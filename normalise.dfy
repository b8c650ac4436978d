/** `fixVouchers`: the in-place pass that turns wire-format vouchers into the form
    the report prints (date texts parsed, minor currency units divided by 100). */
module Normalise {
  import opened Interfaces
  import Report

  /** `new Date(text)` for a date still held as text; a Date is left as it is.
      `parseDate` stands for the JavaScript date parser. */
  function FixDate(d: DateField, parseDate: string -> int): (e: DateField)
    ensures e.Date?
    ensures d.Date? ==> e == d
    ensures d.Str? ==> e.time == parseDate(d.text)
  {
    match d
    case Str(text) => Date(parseDate(text))
    case Date(_) => d
  }

  /** Every field other than the two dates and the two money amounts agrees. */
  predicate SameOtherFields(v: Voucher, w: Voucher) {
    && v.limitPerOrder == w.limitPerOrder
    && v.instance == w.instance
    && v.defId == w.defId
    && v.desc == w.desc
    && v.authorizedValue == w.authorizedValue
    && v.labelText == w.labelText
    && v.code == w.code
  }

  /** One pass of the loop body on one voucher. */
  function FixVoucher(v: Voucher, parseDate: string -> int): (w: Voucher)
    ensures w.validFrom == FixDate(v.validFrom, parseDate)
    ensures w.validUntil == FixDate(v.validUntil, parseDate)
    ensures w.remainingValue * 100.0 == v.remainingValue
    ensures w.originalValue * 100.0 == v.originalValue
    ensures SameOtherFields(v, w)
  {
    v.(validFrom := FixDate(v.validFrom, parseDate),
       validUntil := FixDate(v.validUntil, parseDate),
       remainingValue := v.remainingValue / 100.0,
       originalValue := v.originalValue / 100.0)
  }

  /** The list after one call, as a value: `undefined` and `[]` come back unchanged,
      any other list has every voucher passed through the loop body once. */
  function FixList(vs: Option<seq<Voucher>>, parseDate: string -> int): (ws: Option<seq<Voucher>>)
    ensures vs.None? <==> ws.None?
    ensures vs.Some? ==> |ws.value| == |vs.value|
    ensures vs.Some? ==> forall i :: 0 <= i < |vs.value| ==> ws.value[i] == FixVoucher(vs.value[i], parseDate)
  {
    match vs
    case None => None
    case Some(s) =>
      if |s| == 0 then vs
      else Some(seq(|s|, i requires 0 <= i < |s| => FixVoucher(s[i], parseDate)))
  }

  /** `fixVouchers(vs)`: `null` stands for `undefined`. The array keeps its length and
      order; each slot is rewritten by the loop body, and only its dates and money
      amounts change. */
  method FixVouchers(vs: array?<Voucher>, parseDate: string -> int)
    modifies vs
    ensures vs != null ==> forall i :: 0 <= i < vs.Length ==> vs[i] == FixVoucher(old(vs[i]), parseDate)
    ensures vs != null ==> Some(vs[..]) == FixList(Some(old(vs[..])), parseDate)
  {
    if vs == null || vs.Length == 0 {
      assert vs != null ==> vs[..] == [] == old(vs[..]);
      return;
    }
    for i := 0 to vs.Length
      invariant forall k :: 0 <= k < i ==> vs[k] == FixVoucher(old(vs[k]), parseDate)
      invariant forall k :: i <= k < vs.Length ==> vs[k] == old(vs[k])
    {
      var v := vs[i];
      if v.validFrom.Str? {
        v := v.(validFrom := Date(parseDate(v.validFrom.text)));
      }
      if v.validUntil.Str? {
        v := v.(validUntil := Date(parseDate(v.validUntil.text)));
      }
      v := v.(remainingValue := v.remainingValue / 100.0);
      v := v.(originalValue := v.originalValue / 100.0);
      vs[i] := v;
    }
    ghost var was := old(vs[..]);
    ghost var fixed := FixList(Some(was), parseDate).value;
    assert |fixed| == vs.Length;
    assert forall k :: 0 <= k < vs.Length ==> was[k] == old(vs[k]);
    assert forall k :: 0 <= k < vs.Length ==> vs[..][k] == fixed[k];
    assert vs[..] == fixed;
  }

  /** 100 to the power n, as a real. */
  function Pow100(n: nat): (p: real)
    ensures p >= 1.0
  {
    if n == 0 then 1.0 else 100.0 * Pow100(n - 1)
  }

  /** The voucher after n calls of `fixVouchers` on the list holding it. */
  function Passes(v: Voucher, n: nat, parseDate: string -> int): Voucher {
    if n == 0 then v else FixVoucher(Passes(v, n - 1, parseDate), parseDate)
  }

  /** After n >= 1 passes the dates are those of the first pass, the money amounts are
      scaled by 1/100^n, and nothing else has changed. */
  lemma {:induction false} PassesEffect(v: Voucher, n: nat, parseDate: string -> int)
    requires n >= 1
    ensures var w := Passes(v, n, parseDate);
            && w.validFrom == FixDate(v.validFrom, parseDate)
            && w.validUntil == FixDate(v.validUntil, parseDate)
            && w.remainingValue * Pow100(n) == v.remainingValue
            && w.originalValue * Pow100(n) == v.originalValue
            && SameOtherFields(v, w)
  {
    if n > 1 {
      PassesEffect(v, n - 1, parseDate);
      var u := Passes(v, n - 1, parseDate);
      var w := Passes(v, n, parseDate);
      assert w == FixVoucher(u, parseDate);
      calc {
        w.remainingValue * Pow100(n);
        w.remainingValue * (100.0 * Pow100(n - 1));
        (w.remainingValue * 100.0) * Pow100(n - 1);
        u.remainingValue * Pow100(n - 1);
      }
      calc {
        w.originalValue * Pow100(n);
        w.originalValue * (100.0 * Pow100(n - 1));
        (w.originalValue * 100.0) * Pow100(n - 1);
        u.originalValue * Pow100(n - 1);
      }
    }
  }

  /** A second pass leaves the dates alone but divides the money amounts again: the
      pass is idempotent on dates and not on money. */
  lemma SecondPass(v: Voucher, parseDate: string -> int)
    ensures var once := FixVoucher(v, parseDate);
            var twice := FixVoucher(once, parseDate);
            && twice.validFrom == once.validFrom
            && twice.validUntil == once.validUntil
            && twice.remainingValue * 10000.0 == v.remainingValue
            && twice.originalValue * 10000.0 == v.originalValue
            && (twice == once <==> v.remainingValue == 0.0 && v.originalValue == 0.0)
  {
  }

  /** One pass divides the total remaining value of a list by 100. */
  lemma {:induction false} TotalScalesOnce(raw: seq<Voucher>, parseDate: string -> int)
    ensures Report.TotalRemaining(FixList(Some(raw), parseDate).value) * 100.0
            == Report.TotalRemaining(raw)
    decreases |raw|
  {
    if raw != [] {
      var shown := FixList(Some(raw), parseDate).value;
      var rest := FixList(Some(raw[1..]), parseDate).value;
      TotalScalesOnce(raw[1..], parseDate);
      assert shown[1..] == rest;
    }
  }

  /** Two passes divide it by 10000. */
  lemma TotalScalesTwice(raw: seq<Voucher>, parseDate: string -> int)
    ensures Report.TotalRemaining(FixList(FixList(Some(raw), parseDate), parseDate).value) * 10000.0
            == Report.TotalRemaining(raw)
  {
    var once := FixList(Some(raw), parseDate).value;
    var twice := FixList(Some(once), parseDate).value;
    TotalScalesOnce(raw, parseDate);
    TotalScalesOnce(once, parseDate);
    assert Report.TotalRemaining(twice) * 10000.0 == (Report.TotalRemaining(twice) * 100.0) * 100.0;
  }
}
