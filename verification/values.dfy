/**
 * The Ruby objects a presenter builds its output from, as one closed
 * variant, and the two recursive normalisations `ApiPresenter::Base`
 * applies to that output: dates become ISO 8601 calendar-date strings
 * (`YYYY-MM-DD`, the extended complete form of section 4.1.2.2 of
 * ISO 8601:2004) and times become whole seconds since the epoch (the
 * "Seconds Since the Epoch" of POSIX.1-2017 Base Definitions, section 4.16).
 */
module Values {
  import opened RubyCore

  type Month = m: int | 1 <= m <= 12 witness 1
  type Day = d: int | 1 <= d <= 31 witness 1

  /**
   * A value found in a presenter's output hash. A time carries its epoch
   * seconds and the sub-second part; a record is an ActiveRecord model.
   */
  datatype Value =
    | Nil
    | Bool(b: bool)
    | Int(i: int)
    | Str(s: string)
    | Date(year: int, month: Month, day: Day)
    | Time(seconds: int, nanos: nat)
    | List(items: seq<Value>)
    | Hash(entries: seq<(string, Value)>)
    | Record(model: Model)

  /**
   * An ActiveRecord model: its class name, its id, the values its reader
   * methods return, and the column names of its class (`columns_hash`).
   */
  datatype Model = Model(klass: string, id: int, attributes: map<string, Value>, columns: set<string>)

  /** Ruby truthiness: everything but nil and false. */
  predicate Truthy(v: Value) {
    !(v.Nil? || v == Bool(false))
  }

  /** `model.send(name)`: the value of a reader method (nil for one the model lacks). */
  function Send(m: Model, name: string): Value {
    if name in m.attributes then m.attributes[name] else Nil
  }

  // ---------------------------------------------------------------------
  // strftime('%F')

  /** Zero-padding on the left up to `width` characters. */
  function Pad(s: string, width: nat): (r: string)
    ensures |r| == if |s| >= width then |s| else width
    ensures AllDigits(s) ==> AllDigits(r)
    decreases width - |s|
  {
    if |s| >= width then s else Pad("0" + s, width)
  }

  /** `%Y`: at least four digits, with a minus sign before a negative year. */
  function YearString(y: int): (s: string)
    ensures |s| >= 4
    ensures 0 <= y <= 9999 ==> |s| == 4
  {
    if y < 0 then "-" + Pad(NatToString(-y), 4) else Pad(NatToString(y), 4)
  }

  /** `date.strftime('%F')`, that is `%Y-%m-%d`. */
  function IsoDate(year: int, month: Month, day: Day): (s: string)
    ensures |s| >= 10
    ensures s[|s| - 6] == '-' && s[|s| - 3] == '-'
    ensures 0 <= year <= 9999 ==> |s| == 10 && s[4] == '-' && s[7] == '-'
  {
    var ys, ms, ds := YearString(year), Pad(NatToString(month), 2), Pad(NatToString(day), 2);
    assert |ms| == 2 && |ds| == 2;
    ys + "-" + ms + "-" + ds
  }

  /** Reads a `%F` string back: the year before the last two dashes, then month and day. */
  function ParseIsoDate(s: string): Option<Value> {
    if |s| < 10 || s[|s| - 6] != '-' || s[|s| - 3] != '-' then None
    else
      var y, m, d := s[..|s| - 6], s[|s| - 5..|s| - 3], s[|s| - 2..];
      var neg := |y| > 0 && y[0] == '-';
      var digits := if neg then y[1..] else y;
      if |digits| < 4 || !AllDigits(digits) || !AllDigits(m) || !AllDigits(d) then None
      else
        var year := if neg then -DigitRun(digits, 0) else DigitRun(digits, 0);
        var month, day := DigitRun(m, 0), DigitRun(d, 0);
        if 1 <= month <= 12 && 1 <= day <= 31 then Some(Date(year, month, day)) else None
  }

  lemma {:induction false} DigitRunOfPadded(s: string, width: nat)
    requires |s| >= 1 && AllDigits(s)
    ensures DigitRun(Pad(s, width), 0) == DigitRun(s, 0)
    decreases width - |s|
  {
    if |s| < width {
      DigitRunOfPadded("0" + s, width);
      DigitRunLeadingZero(s);
    }
  }

  /** `%F` loses nothing: the string it writes reads back as the same date. */
  lemma IsoDateRoundTrip(year: int, month: Month, day: Day)
    ensures ParseIsoDate(IsoDate(year, month, day)) == Some(Date(year, month, day))
  {
    var s := IsoDate(year, month, day);
    IsoDateParts(year, month, day);
    var y, m, d := s[..|s| - 6], s[|s| - 5..|s| - 3], s[|s| - 2..];
    var n: nat := if year < 0 then -year else year;
    YearStringParts(year);
    var digits := if |y| > 0 && y[0] == '-' then y[1..] else y;
    assert digits == Pad(NatToString(n), 4);
    PaddedNumeral(n, 4);
    PaddedNumeral(month, 2);
    PaddedNumeral(day, 2);
    assert (if year < 0 then -DigitRun(digits, 0) else DigitRun(digits, 0)) == year;
  }

  /** Where `%F` puts the year, the month and the day. */
  lemma IsoDateParts(year: int, month: Month, day: Day)
    ensures var s := IsoDate(year, month, day);
            s[..|s| - 6] == YearString(year) &&
            s[|s| - 5..|s| - 3] == Pad(NatToString(month), 2) &&
            s[|s| - 2..] == Pad(NatToString(day), 2)
  {
    var s := IsoDate(year, month, day);
    var ys, ms, ds := YearString(year), Pad(NatToString(month), 2), Pad(NatToString(day), 2);
    assert |ms| == 2 && |ds| == 2;
    assert s == ys + "-" + ms + "-" + ds;
  }

  /** `%Y` is a minus sign for a negative year, then the padded digits of its magnitude. */
  lemma YearStringParts(year: int)
    ensures var ys := YearString(year);
            var n: nat := if year < 0 then -year else year;
            (year < 0 ==> |ys| > 0 && ys[0] == '-' && ys[1..] == Pad(NatToString(n), 4)) &&
            (year >= 0 ==> ys == Pad(NatToString(n), 4) && AllDigits(ys) && |ys| > 0 && ys[0] != '-')
  {
  }

  /** A padded numeral reads back as its number. */
  lemma PaddedNumeral(n: nat, width: nat)
    ensures AllDigits(Pad(NatToString(n), width))
    ensures DigitRun(Pad(NatToString(n), width), 0) == n
  {
    DigitRunOfPadded(NatToString(n), width);
    DigitRunOfNumeral(n);
  }

  // ---------------------------------------------------------------------
  // Structure of a value tree

  predicate NoDates(v: Value) {
    match v
    case Date(_, _, _) => false
    case List(xs) => forall i :: 0 <= i < |xs| ==> NoDates(xs[i])
    case Hash(es) => forall i :: 0 <= i < |es| ==> NoDates(es[i].1)
    case _ => true
  }

  predicate NoTimes(v: Value) {
    match v
    case Time(_, _) => false
    case List(xs) => forall i :: 0 <= i < |xs| ==> NoTimes(xs[i])
    case Hash(es) => forall i :: 0 <= i < |es| ==> NoTimes(es[i].1)
    case _ => true
  }

  /**
   * Same tree: lists of the same length, hashes with the same keys in the
   * same order, children of the same shape; leaves may differ.
   */
  predicate SameShape(a: Value, b: Value) {
    match a
    case List(xs) =>
      b.List? && |xs| == |b.items| && forall i :: 0 <= i < |xs| ==> SameShape(xs[i], b.items[i])
    case Hash(es) =>
      b.Hash? && |es| == |b.entries| &&
      forall i :: 0 <= i < |es| ==> es[i].0 == b.entries[i].0 && SameShape(es[i].1, b.entries[i].1)
    case _ => !b.List? && !b.Hash?
  }

  /**
   * `b` is `a` with `leaf` applied to every leaf: lists of the same length
   * and hashes with the same keys in the same order, related child by child.
   */
  predicate LeafwiseImage(a: Value, b: Value, leaf: Value -> Value) {
    match a
    case List(xs) =>
      b.List? && |xs| == |b.items| && forall i :: 0 <= i < |xs| ==> LeafwiseImage(xs[i], b.items[i], leaf)
    case Hash(es) =>
      b.Hash? && |es| == |b.entries| &&
      forall i :: 0 <= i < |es| ==> es[i].0 == b.entries[i].0 && LeafwiseImage(es[i].1, b.entries[i].1, leaf)
    case _ => b == leaf(a)
  }

  /** Applying a leaf map to a tree has one outcome: the relation pins the result down. */
  lemma {:induction false} LeafwiseImageUnique(a: Value, b: Value, c: Value, leaf: Value -> Value)
    requires LeafwiseImage(a, b, leaf) && LeafwiseImage(a, c, leaf)
    ensures b == c
  {
    match a
    case List(xs) =>
      forall i | 0 <= i < |xs| ensures b.items[i] == c.items[i] {
        LeafwiseImageUnique(xs[i], b.items[i], c.items[i], leaf);
      }
      assert b.items == c.items;
    case Hash(es) =>
      forall i | 0 <= i < |es| ensures b.entries[i] == c.entries[i] {
        LeafwiseImageUnique(es[i].1, b.entries[i].1, c.entries[i].1, leaf);
      }
      assert b.entries == c.entries;
    case _ =>
  }

  /** What `dates_to_strings` does to one leaf: a Date becomes its `%F` string, anything else stays. */
  function DateLeaf(v: Value): Value {
    if v.Date? then Str(IsoDate(v.year, v.month, v.day)) else v
  }

  /** What `datetimes_to_epoch` does to one leaf: a time becomes its whole seconds, anything else stays. */
  function TimeLeaf(v: Value): Value {
    if v.Time? then Int(v.seconds) else v
  }

  // ---------------------------------------------------------------------
  // dates_to_strings / datetimes_to_epoch

  /** `dates_to_strings`: every Date in the tree becomes its `%F` string. */
  function DatesToStrings(v: Value): (r: Value)
    ensures NoDates(r)
    ensures SameShape(v, r)
    ensures NoTimes(v) ==> NoTimes(r)
    ensures LeafwiseImage(v, r, DateLeaf)
  {
    match v
    case List(xs) => List(seq(|xs|, i requires 0 <= i < |xs| => DatesToStrings(xs[i])))
    case Hash(es) => Hash(seq(|es|, i requires 0 <= i < |es| => (es[i].0, DatesToStrings(es[i].1))))
    case Date(y, m, d) => Str(IsoDate(y, m, d))
    case _ => v
  }

  /** `datetimes_to_epoch`: every time in the tree becomes its whole epoch seconds (`Time#to_i`). */
  function DatetimesToEpoch(v: Value): (r: Value)
    ensures NoTimes(r)
    ensures SameShape(v, r)
    ensures NoDates(v) ==> NoDates(r)
    ensures LeafwiseImage(v, r, TimeLeaf)
  {
    match v
    case List(xs) => List(seq(|xs|, i requires 0 <= i < |xs| => DatetimesToEpoch(xs[i])))
    case Hash(es) => Hash(seq(|es|, i requires 0 <= i < |es| => (es[i].0, DatetimesToEpoch(es[i].1))))
    case Time(seconds, _) => Int(seconds)
    case _ => v
  }

  /** A tree without dates is a fixed point of `dates_to_strings`. */
  lemma {:induction false} DatesToStringsFixes(v: Value)
    requires NoDates(v)
    ensures DatesToStrings(v) == v
  {
    match v
    case List(xs) =>
      forall i | 0 <= i < |xs| ensures DatesToStrings(xs[i]) == xs[i] {
        DatesToStringsFixes(xs[i]);
      }
      assert DatesToStrings(v).items == xs;
    case Hash(es) =>
      forall i | 0 <= i < |es| ensures DatesToStrings(es[i].1) == es[i].1 {
        DatesToStringsFixes(es[i].1);
      }
      assert DatesToStrings(v).entries == es;
    case _ =>
  }

  /** Applying `dates_to_strings` twice is the same as applying it once. */
  lemma DatesToStringsIdempotent(v: Value)
    ensures DatesToStrings(DatesToStrings(v)) == DatesToStrings(v)
  {
    DatesToStringsFixes(DatesToStrings(v));
  }

  /** A tree without times is a fixed point of `datetimes_to_epoch`. */
  lemma {:induction false} DatetimesToEpochFixes(v: Value)
    requires NoTimes(v)
    ensures DatetimesToEpoch(v) == v
  {
    match v
    case List(xs) =>
      forall i | 0 <= i < |xs| ensures DatetimesToEpoch(xs[i]) == xs[i] {
        DatetimesToEpochFixes(xs[i]);
      }
      assert DatetimesToEpoch(v).items == xs;
    case Hash(es) =>
      forall i | 0 <= i < |es| ensures DatetimesToEpoch(es[i].1) == es[i].1 {
        DatetimesToEpochFixes(es[i].1);
      }
      assert DatetimesToEpoch(v).entries == es;
    case _ =>
  }

  /** Applying `datetimes_to_epoch` twice is the same as applying it once. */
  lemma DatetimesToEpochIdempotent(v: Value)
    ensures DatetimesToEpoch(DatetimesToEpoch(v)) == DatetimesToEpoch(v)
  {
    DatetimesToEpochFixes(DatetimesToEpoch(v));
  }

  /**
   * With dates and times distinct variants, the two passes do not interfere:
   * their order does not matter.
   */
  lemma {:induction false} NormalisationsCommute(v: Value)
    ensures DatetimesToEpoch(DatesToStrings(v)) == DatesToStrings(DatetimesToEpoch(v))
  {
    match v
    case List(xs) =>
      forall i | 0 <= i < |xs|
        ensures DatetimesToEpoch(DatesToStrings(xs[i])) == DatesToStrings(DatetimesToEpoch(xs[i]))
      {
        NormalisationsCommute(xs[i]);
      }
      assert DatetimesToEpoch(DatesToStrings(v)).items == DatesToStrings(DatetimesToEpoch(v)).items;
    case Hash(es) =>
      forall i | 0 <= i < |es|
        ensures DatetimesToEpoch(DatesToStrings(es[i].1)) == DatesToStrings(DatetimesToEpoch(es[i].1))
      {
        NormalisationsCommute(es[i].1);
      }
      assert DatetimesToEpoch(DatesToStrings(v)).entries == DatesToStrings(DatetimesToEpoch(v)).entries;
    case _ =>
  }

  /** Both passes together, leaf by leaf: a Date becomes its `%F` string, a time its seconds. */
  function NormalLeaf(v: Value): Value {
    TimeLeaf(DateLeaf(v))
  }

  /** `dates_to_strings` then `datetimes_to_epoch` rewrite each leaf and nothing else. */
  lemma {:induction false} NormalisedLeafwise(v: Value)
    ensures LeafwiseImage(v, DatetimesToEpoch(DatesToStrings(v)), NormalLeaf)
  {
    match v
    case List(xs) =>
      forall i | 0 <= i < |xs| ensures LeafwiseImage(xs[i], DatetimesToEpoch(DatesToStrings(v)).items[i], NormalLeaf) {
        NormalisedLeafwise(xs[i]);
      }
    case Hash(es) =>
      forall i | 0 <= i < |es|
        ensures es[i].0 == DatetimesToEpoch(DatesToStrings(v)).entries[i].0
        ensures LeafwiseImage(es[i].1, DatetimesToEpoch(DatesToStrings(v)).entries[i].1, NormalLeaf)
      {
        NormalisedLeafwise(es[i].1);
      }
    case _ =>
  }
}
