/** The sale form (components/sales-manager.tsx): filling it from a sale,
    the discounted-price preview, and the payload and checks of a
    submission. */
module SalesForm {
  import opened Wrappers
  import opened Text
  import opened Numeric
  import opened Types
  import opened Validation
  import opened DataStore

  /** The form's fields; the price and the rate are texts of number fields. */
  datatype SaleForm = SaleForm(
    name: string,
    price: FieldText,
    discountRate: FieldText,
    startDate: string,
    endDate: string,
    category: string,
    memo: string)

  /** The form after reset. */
  const EMPTY_SALE_FORM: SaleForm := SaleForm("", Typed(""), Typed(""), "", "", "", "")

  const NAME_REQUIRED := "商品名を入力してください。"
  const PRICE_INVALID := "価格は0以上で入力してください。"
  const RATE_INVALID := "割引率は0〜100の範囲で入力してください。"

  /** `startEdit`: the sale's fields; the rate only when it is truthy (not
      absent and not 0), otherwise "". */
  function StartEdit(sale: Sale): (r: SaleForm)
    ensures ToNumber(r.price) == Num(sale.price)
    ensures r.discountRate.Truthy() <==> sale.discountRate.Some? && sale.discountRate.value != 0.0
    ensures r.discountRate.Truthy() ==> ToNumber(r.discountRate) == Num(sale.discountRate.value)
  {
    SaleForm(sale.name, Shown(sale.price),
      if sale.discountRate.Some? && sale.discountRate.value != 0.0 then Shown(sale.discountRate.value) else Typed(""),
      OrEmpty(sale.startDate), OrEmpty(sale.endDate), OrEmpty(sale.category), OrEmpty(sale.memo))
  }

  // ---------------------------------------------------------------------
  // The preview

  /** `computedDiscountedPrice`: `None` stands for the empty text shown
      when the price or the rate is not a number or the rate is not
      positive; otherwise the rounded discounted price, at least 0. */
  function Preview(price: FieldText, rate: FieldText): (r: Option<real>)
    ensures r.None? <==> ToNumber(price).NaN? || ToNumber(rate).NaN? || ToNumber(rate).value <= 0.0
    ensures r.Some? ==> r.value >= 0.0 && r.value == r.value.Floor as real
  {
    var p := ToNumber(price);
    var d := ToNumber(rate);
    if p.NaN? || d.NaN? || d.value <= 0.0 then None
    else Some(MaxR(0.0, RoundedDiscount(p.value, d.value) as real))
  }

  /** With a positive rate the preview shows what the store will compute. */
  lemma PreviewAgreesWithStore(price: FieldText, rate: FieldText)
    requires ToNumber(price).Num? && ToNumber(rate).Num? && ToNumber(rate).value > 0.0
    ensures Preview(price, rate) == CalcDiscountedPrice(ToNumber(price).value, Some(ToNumber(rate).value))
  {
  }

  /** Editing a stored sale with a positive rate previews its stored
      discounted price; a rate of 0 previews nothing. */
  lemma PreviewOfStoredSale(sale: Sale)
    requires sale.discountedPrice == CalcDiscountedPrice(sale.price, sale.discountRate)
    ensures sale.discountRate.Some? && sale.discountRate.value > 0.0 ==>
      Preview(StartEdit(sale).price, StartEdit(sale).discountRate) == sale.discountedPrice
    ensures sale.discountRate.None? || sale.discountRate.value <= 0.0 ==>
      Preview(StartEdit(sale).price, StartEdit(sale).discountRate).None?
  {
    if sale.discountRate.Some? && sale.discountRate.value > 0.0 {
      PreviewAgreesWithStore(StartEdit(sale).price, StartEdit(sale).discountRate);
    } else if sale.discountRate.None? || sale.discountRate.value == 0.0 {
      BlankReadsAsZero("");
    }
  }

  // ---------------------------------------------------------------------
  // Submitting

  /** The rate check as written: `rate !== undefined && (rate < 0 || rate >
      100)`. Both comparisons are false for `NaN`, so a rate that is not a
      number is not rejected. */
  predicate RateRejectedAsWritten(rate: Option<JsNumber>) {
    rate.Some? && rate.value.Num? && (rate.value.value < 0.0 || rate.value.value > 100.0)
  }

  /** The rate check as intended: a given rate must be a number from 0 to 100. */
  predicate RateRejected(rate: Option<JsNumber>) {
    rate.Some? && (rate.value.NaN? || rate.value.value < 0.0 || rate.value.value > 100.0)
  }

  /** A rate field with letters in it reads as `NaN`, and the check as
      written lets it through; the intended check rejects it. */
  lemma NaNRatePassesCheckAsWritten()
    ensures ToNumber(Typed("abc")) == NaN
    ensures !RateRejectedAsWritten(Some(ToNumber(Typed("abc"))))
    ensures RateRejected(Some(ToNumber(Typed("abc"))))
  {
    var t := Trim("abc");
    assert t == "abc" by {
      assert !IsSpace('a') && !IsSpace('c');
      TrimSpec("abc");
    }
    assert IndexOfDot("abc") == 3;
    assert !AllDigits("abc");
  }

  /** The two checks differ only on `NaN`. */
  lemma RateChecksAgreeOnNumbers(rate: Option<JsNumber>)
    ensures RateRejected(rate) <==> RateRejectedAsWritten(rate) || rate == Some(NaN)
  {
  }

  /** The payload's rate: `discountRate ? Number(discountRate) : undefined`. */
  function RateOf(form: SaleForm): (r: Option<JsNumber>)
    ensures r.Some? <==> form.discountRate.Truthy()
  {
    if form.discountRate.Truthy() then Some(ToNumber(form.discountRate)) else None
  }

  /** `handleSubmit`'s payload and checks, with the intended rate check:
      the name is trimmed and required, the price must be a number of at
      least 0, a given rate a number from 0 to 100; the dates are left out
      when empty (untrimmed), the category and memo are trimmed and left
      out when empty. The store computes the discounted price. */
  function SubmitSale(form: SaleForm): (r: Result<SalePayload, string>)
    ensures Trim(form.name) == "" ==> r == Err(NAME_REQUIRED)
    ensures Trim(form.name) != "" && (ToNumber(form.price).NaN? || ToNumber(form.price).value < 0.0) ==>
      r == Err(PRICE_INVALID)
    ensures r.Ok? <==>
      && Trim(form.name) != ""
      && ToNumber(form.price).Num? && ToNumber(form.price).value >= 0.0
      && !RateRejected(RateOf(form))
    ensures Trim(form.name) != "" && !r.Ok? && ToNumber(form.price).Num? && ToNumber(form.price).value >= 0.0 ==>
      r == Err(RATE_INVALID)
    ensures r.Ok? ==>
      && r.value.name == Trim(form.name) && Num(r.value.price) == ToNumber(form.price)
      && (r.value.discountRate.Some? <==> form.discountRate.Truthy())
      && (r.value.discountRate.Some? ==>
            Num(r.value.discountRate.value) == ToNumber(form.discountRate) && 0.0 <= r.value.discountRate.value <= 100.0)
      && r.value.discountedPrice.None?
      && r.value.startDate == NonEmptyOrNone(form.startDate) && r.value.endDate == NonEmptyOrNone(form.endDate)
      && r.value.category == NonEmptyOrNone(Trim(form.category)) && r.value.memo == NonEmptyOrNone(Trim(form.memo))
  {
    var name := Trim(form.name);
    var price := ToNumber(form.price);
    var rate := RateOf(form);
    if name == "" then Err(NAME_REQUIRED)
    else if price.NaN? || price.value < 0.0 then Err(PRICE_INVALID)
    else if RateRejected(rate) then Err(RATE_INVALID)
    else Ok(SalePayload(name, price.value, if rate.Some? then Some(rate.value.value) else None, None,
      NonEmptyOrNone(form.startDate), NonEmptyOrNone(form.endDate),
      NonEmptyOrNone(Trim(form.category)), NonEmptyOrNone(Trim(form.memo))))
  }

  /** A submitted payload passes the schema exactly when its dates have the
      `YYYY-MM-DD` shape; the form does not check them. */
  lemma SubmittedSaleSchema(form: SaleForm)
    requires SubmitSale(form).Ok?
    ensures var p := SubmitSale(form).value;
      SaleInputValid(p) <==> OptionalFullDate(p.startDate) && OptionalFullDate(p.endDate)
  {
  }

  /** An empty price field reads as 0, so it passes the check. */
  lemma EmptyPriceSubmitsZero(form: SaleForm)
    requires Trim(form.name) != "" && form.price == Typed("") && form.discountRate == Typed("")
    ensures SubmitSale(form).Ok? && SubmitSale(form).value.price == 0.0
  {
    BlankReadsAsZero("");
  }

  /** The sales a form round-trips: a trimmed name, a price of at least 0,
      a rate from 0 to 100 if any, no empty date, clean category and memo. */
  predicate Editable(sale: Sale) {
    && sale.name != "" && Trim(sale.name) == sale.name && sale.price >= 0.0
    && (sale.discountRate.Some? ==> 0.0 <= sale.discountRate.value <= 100.0)
    && (sale.startDate.Some? ==> sale.startDate.value != "")
    && (sale.endDate.Some? ==> sale.endDate.value != "")
    && CleanOptional(sale.category) && CleanOptional(sale.memo)
  }

  /** Editing a sale and submitting it unchanged sends its own fields back,
      except that a rate of 0 is dropped. */
  lemma SaleEditRoundTrip(sale: Sale)
    requires Editable(sale)
    ensures SubmitSale(StartEdit(sale)) == Ok(SalePayload(sale.name, sale.price,
      if sale.discountRate == Some(0.0) then None else sale.discountRate, None,
      sale.startDate, sale.endDate, sale.category, sale.memo))
  {
    var form := StartEdit(sale);
    OrEmptyRoundTrip(sale.startDate);
    OrEmptyRoundTrip(sale.endDate);
    CleanRoundTrip(sale.category);
    CleanRoundTrip(sale.memo);
    SubmitReadsBack(form, SalePayload(sale.name, sale.price,
      if sale.discountRate == Some(0.0) then None else sale.discountRate, None,
      sale.startDate, sale.endDate, sale.category, sale.memo));
  }

  /** A form whose fields read back as `p`'s passes with payload `p`. */
  lemma SubmitReadsBack(form: SaleForm, p: SalePayload)
    requires Trim(form.name) == p.name != "" && ToNumber(form.price) == Num(p.price) && p.price >= 0.0
    requires p.discountRate.Some? <==> form.discountRate.Truthy()
    requires p.discountRate.Some? ==>
      ToNumber(form.discountRate) == Num(p.discountRate.value) && 0.0 <= p.discountRate.value <= 100.0
    requires p.discountedPrice.None?
    requires NonEmptyOrNone(form.startDate) == p.startDate && NonEmptyOrNone(form.endDate) == p.endDate
    requires NonEmptyOrNone(Trim(form.category)) == p.category && NonEmptyOrNone(Trim(form.memo)) == p.memo
    ensures SubmitSale(form) == Ok(p)
  {
    var r := SubmitSale(form);
    assert r.Ok?;
    assert r.value.price == p.price && r.value.discountRate == p.discountRate;
  }

  /** Re-saving a sale with a rate of 0 leaves the rate out of the update,
      so the stored sale keeps its rate of 0 but loses its discounted
      price, which was the full price. */
  lemma ZeroRateLosesDiscountedPrice(sale: Sale, now: string)
    requires Editable(sale) && sale.discountRate == Some(0.0) && sale.price == sale.price.Floor as real
    requires sale.discountedPrice == CalcDiscountedPrice(sale.price, sale.discountRate)
    ensures sale.discountedPrice == Some(sale.price)
    ensures var updated := UpdatedSale(sale, sale.id, now, SubmitSale(StartEdit(sale)).value);
      updated.discountRate == Some(0.0) && updated.discountedPrice.None?
  {
    NoDiscountKeepsPrice(sale.price.Floor);
    SaleEditRoundTrip(sale);
  }
}
