/** The header navigation (components/navigation.tsx): which of the three
    links is highlighted for the current pathname. The pathname is a
    parameter; `None` stands for a pathname that is null or undefined. */
module Navigation {
  import opened Wrappers
  import opened Seqs
  import opened Text

  datatype NavLink = NavLink(href: string, title: string)

  const FRIDGE := "/fridge"
  const SALES := "/sales"
  const MENU := "/menu"

  /** The fixed link table, in display order. */
  const LINKS: seq<NavLink> := [NavLink(FRIDGE, "冷蔵庫"), NavLink(SALES, "特売"), NavLink(MENU, "献立")]

  /** `pathname === link.href || (link.href !== "/fridge" &&
      pathname?.startsWith(link.href))` */
  predicate IsActive(pathname: Option<string>, link: NavLink) {
    pathname == Some(link.href) || (link.href != FRIDGE && pathname.Some? && StartsWith(pathname.value, link.href))
  }

  /** The highlighted links, in display order; never more than one. */
  function ActiveLinks(pathname: Option<string>): (r: seq<NavLink>)
    ensures |r| <= 1
    ensures forall i :: 0 <= i < |r| ==> r[i] in LINKS && IsActive(pathname, r[i])
    ensures forall i :: 0 <= i < |LINKS| && IsActive(pathname, LINKS[i]) ==> r == [LINKS[i]]
  {
    var r := Filter(LINKS, (link: NavLink) => IsActive(pathname, link));
    FilterSatisfies(LINKS, (link: NavLink) => IsActive(pathname, link));
    FilterMembers(LINKS, (link: NavLink) => IsActive(pathname, link));
    AtMostOneActive(pathname);
    if exists i :: 0 <= i < |LINKS| && IsActive(pathname, LINKS[i]) then
      var i :| 0 <= i < |LINKS| && IsActive(pathname, LINKS[i]);
      OnlyActive(pathname, i);
      r
    else
      FilterAllFail(LINKS, (link: NavLink) => IsActive(pathname, link));
      r
  }

  /** Filtering the table keeps exactly the one active link `LINKS[i]`. */
  lemma OnlyActive(pathname: Option<string>, i: nat)
    requires i < |LINKS| && IsActive(pathname, LINKS[i])
    ensures Filter(LINKS, (link: NavLink) => IsActive(pathname, link)) == [LINKS[i]]
  {
    AtMostOneActive(pathname);
    var p := (link: NavLink) => IsActive(pathname, link);
    assert LINKS == [LINKS[0]] + [LINKS[1]] + [LINKS[2]];
    FilterAppend([LINKS[0]] + [LINKS[1]], [LINKS[2]], p);
    FilterAppend([LINKS[0]], [LINKS[1]], p);
  }

  /** A pathname equal to a link's href highlights that link. */
  lemma ExactMatchIsActive(pathname: string, link: NavLink)
    ensures pathname == link.href ==> IsActive(Some(pathname), link)
  {
  }

  /** The fridge link is highlighted only on its own path, never on a
      longer one. */
  lemma FridgeNeedsExactMatch(pathname: Option<string>)
    ensures IsActive(pathname, LINKS[0]) <==> pathname == Some(FRIDGE)
  {
  }

  /** The sales and menu links are highlighted on every pathname that
      starts with their href, such as "/menu/selection". */
  lemma PrefixLinksMatchByPrefix(pathname: Option<string>, k: nat)
    requires k == 1 || k == 2
    ensures IsActive(pathname, LINKS[k]) <==> pathname.Some? && StartsWith(pathname.value, LINKS[k].href)
  {
    if pathname == Some(LINKS[k].href) {
      assert pathname.value[..|LINKS[k].href|] == LINKS[k].href;
    }
  }

  /** A subpage of the menu highlights the menu link, one of the fridge
      does not highlight the fridge link, and the prefix is a string
      prefix, not a path segment: "/salesx" highlights the sales link. */
  lemma PrefixExamples()
    ensures IsActive(Some("/menu/selection"), LINKS[2])
    ensures !IsActive(Some("/fridge/x"), LINKS[0])
    ensures IsActive(Some("/salesx"), LINKS[1])
  {
    assert "/menu/selection"[..|MENU|] == MENU;
    assert "/salesx"[..|SALES|] == SALES;
  }

  /** Without a pathname nothing is highlighted. */
  lemma NoPathnameNoActive(link: NavLink)
    ensures !IsActive(None, link)
  {
  }

  /** For any pathname at most one of the three links is highlighted: their
      hrefs differ in the second character, and "/fridge" needs an exact
      match. */
  lemma AtMostOneActive(pathname: Option<string>)
    ensures forall i, j :: 0 <= i < |LINKS| && 0 <= j < |LINKS| && IsActive(pathname, LINKS[i]) && IsActive(pathname, LINKS[j]) ==> i == j
  {
    forall i, j | 0 <= i < |LINKS| && 0 <= j < |LINKS| && IsActive(pathname, LINKS[i]) && IsActive(pathname, LINKS[j])
      ensures i == j
    {
      assert pathname.Some?;
      assert |pathname.value| >= 2;
      assert pathname.value[1] == LINKS[i].href[1] by {
        if pathname.value != LINKS[i].href {
          assert pathname.value[..|LINKS[i].href|] == LINKS[i].href;
        }
      }
      assert pathname.value[1] == LINKS[j].href[1] by {
        if pathname.value != LINKS[j].href {
          assert pathname.value[..|LINKS[j].href|] == LINKS[j].href;
        }
      }
    }
  }
}
