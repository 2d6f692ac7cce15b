/** Validation of the split the language model recommends for a transaction:
    the reply must be an object with a `splits` array whose `amount`s, summed by
    a left fold from 0, are within 0.01 of the transaction's `amount`.

    Two versions are kept. `CheckSplitsAsWritten` follows the JavaScript as
    written, where a missing or non-numeric amount makes the sum `NaN` and the
    `> 0.01` comparison then lets the reply through. `CheckSplits` is the
    evidently intended check, which refuses such replies; the route uses it. */
module SplitValidation {
  import opened Wrappers
  import opened Json

  /** The largest accepted gap between the split total and the transaction amount. */
  const Tolerance: real := 0.01

  /** Why a parsed reply is refused (all of them end in the same 500 response). */
  datatype Rejection =
    | Unreadable                               // reading a property of `null` throws
    | InvalidStructure                         // no `splits` array
    | NonNumericAmount                         // a split or the transaction lacks a numeric amount
    | AmountMismatch(total: real, expected: real)

  datatype Verdict = Accepted | Rejected(why: Rejection)

  /** The split total is close enough: `!(Math.abs(total - expected) > 0.01)`. */
  predicate WithinTolerance(total: real, expected: real)
  {
    -Tolerance <= total - expected <= Tolerance
  }

  /** `reduce((sum, a) => sum + a, 0)`: a left fold from 0. */
  function Total(amounts: seq<real>): (r: real)
    // with no negative amount, the total is at least each amount (and so never negative)
    ensures (forall i :: 0 <= i < |amounts| ==> amounts[i] >= 0.0) ==>
              r >= 0.0 && forall i :: 0 <= i < |amounts| ==> amounts[i] <= r
  {
    if amounts == [] then 0.0 else Total(amounts[..|amounts| - 1]) + amounts[|amounts| - 1]
  }

  /** The fold can be cut anywhere: the total of a concatenation is the sum of the totals. */
  lemma {:induction false} TotalAppend(a: seq<real>, b: seq<real>)
    ensures Total(a + b) == Total(a) + Total(b)
  {
    if b != [] {
      var init := b[..|b| - 1];
      assert (a + b)[..|a + b| - 1] == a + init;
      TotalAppend(a, init);
      assert Total(a + b) == Total(a + init) + b[|b| - 1];
    } else {
      assert a + b == a;
    }
  }

  /** A split whose `amount` is a JSON number. */
  predicate Priced(split: Value)
  {
    split.Obj? && "amount" in split.fields && split.fields["amount"].Num?
  }

  function AmountOf(split: Value): real
    requires Priced(split)
  {
    split.fields["amount"].n
  }

  /** The amounts of splits that all carry one, in order. */
  function AmountsOf(splits: seq<Value>): (r: seq<real>)
    requires forall i :: 0 <= i < |splits| ==> Priced(splits[i])
    ensures |r| == |splits|
    ensures forall i :: 0 <= i < |splits| ==> r[i] == AmountOf(splits[i])
  {
    if splits == [] then [] else AmountsOf(splits[..|splits| - 1]) + [AmountOf(splits[|splits| - 1])]
  }

  /** The intended check: the shape, numeric amounts, then the tolerance. The reply
      itself is never altered; the caller returns it as parsed. */
  function CheckSplits(parsed: Value, expected: Option<Value>): (v: Verdict)
    ensures parsed.Null? ==> v == Rejected(Unreadable)
    ensures !parsed.Null? && !(parsed.Obj? && "splits" in parsed.fields && parsed.fields["splits"].Arr?) ==>
              v == Rejected(InvalidStructure)
    // accepted exactly when every amount is a number and the total is within 0.01
    ensures v.Accepted? <==>
              && parsed.Obj? && "splits" in parsed.fields && parsed.fields["splits"].Arr?
              && (forall i :: 0 <= i < |parsed.fields["splits"].items| ==> Priced(parsed.fields["splits"].items[i]))
              && expected.Some? && expected.value.Num?
              && WithinTolerance(Total(AmountsOf(parsed.fields["splits"].items)), expected.value.n)
    ensures v.Rejected? && v.why.AmountMismatch? ==>
              !WithinTolerance(v.why.total, v.why.expected) && expected == Some(Num(v.why.expected))
  {
    if parsed.Null? then Rejected(Unreadable)
    else match Get(parsed, "splits")
      case Some(Arr(items)) =>
        if !(forall i :: 0 <= i < |items| ==> Priced(items[i])) || !(expected.Some? && expected.value.Num?) then
          Rejected(NonNumericAmount)
        else
          var total := Total(AmountsOf(items));
          if WithinTolerance(total, expected.value.n) then Accepted
          else Rejected(AmountMismatch(total, expected.value.n))
      case _ => Rejected(InvalidStructure)
  }

  /** The tolerance is inclusive: a total 0.01 away either way is accepted, one
      more than 0.01 away is not. */
  lemma ToleranceEdges(expected: real, total: real)
    ensures WithinTolerance(expected + 0.01, expected) && WithinTolerance(expected - 0.01, expected)
    ensures total > expected + 0.01 || total < expected - 0.01 ==> !WithinTolerance(total, expected)
  {
  }

  // ---- the check as the JavaScript is written ----

  /** A JavaScript number as far as the check can produce one. */
  datatype JsNumber = Finite(r: real) | NaN

  /** JavaScript's numeric conversion of a property read (`None` is `undefined`)
      in `+` and `-`. Strings, arrays and objects are taken to give `NaN`. */
  function ToNumber(v: Option<Value>): (x: JsNumber)
    ensures v.Some? && v.value.Num? ==> x == Finite(v.value.n)
    ensures v.None? ==> x == NaN
  {
    match v
    case None => NaN
    case Some(Null) => Finite(0.0)
    case Some(Bool(b)) => Finite(if b then 1.0 else 0.0)
    case Some(Num(n)) => Finite(n)
    case Some(_) => NaN
  }

  function Plus(a: JsNumber, b: JsNumber): JsNumber
  {
    if a.Finite? && b.Finite? then Finite(a.r + b.r) else NaN
  }

  /** `splits.reduce((sum, split) => sum + split.amount, 0)`; `None` when some
      split is `null`, where reading `.amount` throws. */
  function SumAsWritten(splits: seq<Value>): (r: Option<JsNumber>)
    ensures r.None? <==> exists i :: 0 <= i < |splits| && splits[i].Null?
  {
    if splits == [] then Some(Finite(0.0))
    else
      match SumAsWritten(splits[..|splits| - 1])
      case None => None
      case Some(acc) =>
        var last := splits[|splits| - 1];
        if last.Null? then None else Some(Plus(acc, ToNumber(Get(last, "amount"))))
  }

  /** `Math.abs(total - expected) > 0.01`, which is false when either side is `NaN`. */
  predicate ExceedsTolerance(total: JsNumber, expected: JsNumber)
  {
    total.Finite? && expected.Finite? && !WithinTolerance(total.r, expected.r)
  }

  /** The check as written at lines 112-120 of the route. */
  function CheckSplitsAsWritten(parsed: Value, expected: Option<Value>): (v: Verdict)
    ensures v == Rejected(InvalidStructure) <==>
              !parsed.Null? && !(parsed.Obj? && "splits" in parsed.fields && parsed.fields["splits"].Arr?)
    // only `null` (the reply or one of its splits) makes a property read throw
    ensures v == Rejected(Unreadable) <==>
              parsed.Null? ||
              (parsed.Obj? && "splits" in parsed.fields && parsed.fields["splits"].Arr? &&
               exists i :: 0 <= i < |parsed.fields["splits"].items| && parsed.fields["splits"].items[i].Null?)
    // as written, no amount is ever refused for not being a number
    ensures v != Rejected(NonNumericAmount)
    // accepted exactly when the JavaScript sum does not throw and stays within 0.01
    ensures v.Accepted? <==>
              parsed.Obj? && "splits" in parsed.fields && parsed.fields["splits"].Arr? &&
              SumAsWritten(parsed.fields["splits"].items).Some? &&
              !ExceedsTolerance(SumAsWritten(parsed.fields["splits"].items).value, ToNumber(expected))
  {
    if parsed.Null? then Rejected(Unreadable)
    else match Get(parsed, "splits")
      case Some(Arr(items)) =>
        (match SumAsWritten(items)
         case None => Rejected(Unreadable)
         case Some(total) =>
           var e := ToNumber(expected);
           if ExceedsTolerance(total, e) then Rejected(AmountMismatch(total.r, e.r)) else Accepted)
      case _ => Rejected(InvalidStructure)
  }

  /** With numeric amounts the JavaScript sum is the exact left fold. */
  lemma {:induction false} SumOfPricedSplits(splits: seq<Value>)
    requires forall i :: 0 <= i < |splits| ==> Priced(splits[i])
    ensures SumAsWritten(splits) == Some(Finite(Total(AmountsOf(splits))))
  {
    if splits != [] {
      var init := splits[..|splits| - 1];
      SumOfPricedSplits(init);
      assert AmountsOf(splits)[..|splits| - 1] == AmountsOf(init);
    }
  }

  /** Once a split without a number is reached the JavaScript sum stays `NaN`
      (unless a later split is `null`). */
  lemma {:induction false} NaNAbsorbs(splits: seq<Value>, j: nat)
    requires j < |splits| && !splits[j].Null? && ToNumber(Get(splits[j], "amount")).NaN?
    requires forall i :: 0 <= i < |splits| ==> !splits[i].Null?
    ensures SumAsWritten(splits) == Some(NaN)
  {
    var init := splits[..|splits| - 1];
    if j < |splits| - 1 {
      assert init[j] == splits[j];
      NaNAbsorbs(init, j);
    }
  }

  /** Where the two checks agree: whenever every split and the transaction carry
      a numeric amount. */
  lemma CheckAgreesOnNumbers(parsed: Value, expected: Option<Value>)
    requires expected.Some? && expected.value.Num?
    requires parsed.Obj? && "splits" in parsed.fields && parsed.fields["splits"].Arr? ==>
               forall i :: 0 <= i < |parsed.fields["splits"].items| ==> Priced(parsed.fields["splits"].items[i])
    ensures CheckSplitsAsWritten(parsed, expected) == CheckSplits(parsed, expected)
  {
    if parsed.Obj? && "splits" in parsed.fields && parsed.fields["splits"].Arr? {
      SumOfPricedSplits(parsed.fields["splits"].items);
    }
  }

  /** The discrepancy: as written, a reply with a split whose amount is missing
      passes whatever the transaction amount, while the intended check refuses it. */
  lemma MissingAmountPassesAsWritten(parsed: Value, expected: Option<Value>, j: nat)
    requires parsed.Obj? && "splits" in parsed.fields && parsed.fields["splits"].Arr?
    requires forall i :: 0 <= i < |parsed.fields["splits"].items| ==> parsed.fields["splits"].items[i].Obj?
    requires j < |parsed.fields["splits"].items| && "amount" !in parsed.fields["splits"].items[j].fields
    ensures CheckSplitsAsWritten(parsed, expected) == Accepted
    ensures CheckSplits(parsed, expected) == Rejected(NonNumericAmount)
  {
    var items := parsed.fields["splits"].items;
    NaNAbsorbs(items, j);
    assert !Priced(items[j]);
  }

  /** The other way `NaN` enters: as written, a transaction without an `amount`
      accepts every split list that does not throw. */
  lemma MissingTransactionAmountPassesAsWritten(parsed: Value)
    requires parsed.Obj? && "splits" in parsed.fields && parsed.fields["splits"].Arr?
    requires forall i :: 0 <= i < |parsed.fields["splits"].items| ==> !parsed.fields["splits"].items[i].Null?
    ensures CheckSplitsAsWritten(parsed, None) == Accepted
    ensures CheckSplits(parsed, None) == Rejected(NonNumericAmount)
  {
  }
}
