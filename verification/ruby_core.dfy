/**
 * The pieces of Ruby's core library that the presenter code leans on,
 * written out so that the rest of the model can state what it computes:
 * nil-or-value and raise-or-value results, `String#split` with a
 * one-character separator, `String#to_i`, ActiveSupport's `blank?`,
 * `Array#uniq`, and the insertion-ordered `Hash`.
 */
module RubyCore {

  datatype Option<+T> = None | Some(value: T)

  /** The exceptions the modelled code raises. */
  datatype Error =
    | RuntimeError(message: string)   // `raise 'message'`
    | ArgumentError(message: string)
    | KeyError
    | NoMethodError(message: string)  // a method called on nil

  datatype Result<+T> = Success(value: T) | Failure(error: Error)

  // ---------------------------------------------------------------------
  // Characters

  predicate IsDigit(c: char) { '0' <= c <= '9' }

  /** The characters C's isspace accepts, which Ruby's number parsing and blank? skip. */
  predicate IsSpace(c: char) {
    c == ' ' || c == '\t' || c == '\n' || c == '\U{B}' || c == '\U{C}' || c == '\r'
  }

  function DigitValue(c: char): (d: nat)
    requires IsDigit(c)
    ensures d < 10
  {
    (c as int) - ('0' as int)
  }

  function DigitChar(d: nat): (c: char)
    requires d < 10
    ensures IsDigit(c) && DigitValue(c) == d
  {
    (('0' as int) + d) as char
  }

  predicate AllDigits(s: string) {
    forall i :: 0 <= i < |s| ==> IsDigit(s[i])
  }

  // ---------------------------------------------------------------------
  // String#split with a one-character separator

  /**
   * Every field between separators, empty ones included; `Join` puts them
   * back together (see `FieldsJoin` and `JoinFields`).
   */
  function Fields(s: string, sep: char): (r: seq<string>)
    ensures |r| >= 1
    ensures forall i :: 0 <= i < |r| ==> sep !in r[i]
    decreases |s|
  {
    if |s| == 0 then [""]
    else
      var rest := Fields(s[1..], sep);
      if s[0] == sep then [""] + rest
      else [[s[0]] + rest[0]] + rest[1..]
  }

  function Join(parts: seq<string>, sep: char): string
    requires |parts| >= 1
    decreases |parts|
  {
    if |parts| == 1 then parts[0] else parts[0] + [sep] + Join(parts[1..], sep)
  }

  lemma {:induction false} FieldsJoin(s: string, sep: char)
    ensures Join(Fields(s, sep), sep) == s
    decreases |s|
  {
    if |s| > 0 {
      var rest := Fields(s[1..], sep);
      FieldsJoin(s[1..], sep);
      if s[0] == sep {
        assert Fields(s, sep) == [""] + rest;
        assert Join([""] + rest, sep) == "" + [sep] + Join(rest, sep);
        assert [sep] + s[1..] == s;
      } else {
        var r := [[s[0]] + rest[0]] + rest[1..];
        assert Fields(s, sep) == r;
        if |rest| == 1 {
          assert Join(r, sep) == [s[0]] + rest[0];
        } else {
          assert r[1..] == rest[1..];
          assert Join(r, sep) == [s[0]] + rest[0] + [sep] + Join(rest[1..], sep);
          assert Join(rest, sep) == rest[0] + [sep] + Join(rest[1..], sep);
        }
        assert [s[0]] + s[1..] == s;
      }
    }
  }

  lemma {:induction false} FieldsOfSeparated(a: string, sep: char, b: string)
    requires sep !in a
    ensures Fields(a + [sep] + b, sep) == [a] + Fields(b, sep)
    decreases |a|
  {
    if |a| == 0 {
      assert a + [sep] + b == [sep] + b;
      assert ([sep] + b)[1..] == b;
    } else {
      FieldsOfSeparated(a[1..], sep, b);
      assert (a + [sep] + b)[1..] == a[1..] + [sep] + b;
      assert [a[0]] + a[1..] == a;
    }
  }

  lemma {:induction false} FieldsOfPlain(a: string, sep: char)
    requires sep !in a
    ensures Fields(a, sep) == [a]
    decreases |a|
  {
    if |a| > 0 {
      FieldsOfPlain(a[1..], sep);
      assert [a[0]] + a[1..] == a;
    }
  }

  /** Splitting is the inverse of joining: no field is lost or merged. */
  lemma {:induction false} JoinFields(parts: seq<string>, sep: char)
    requires |parts| >= 1
    requires forall i :: 0 <= i < |parts| ==> sep !in parts[i]
    ensures Fields(Join(parts, sep), sep) == parts
    decreases |parts|
  {
    if |parts| == 1 {
      FieldsOfPlain(parts[0], sep);
    } else {
      JoinFields(parts[1..], sep);
      FieldsOfSeparated(parts[0], sep, Join(parts[1..], sep));
      assert [parts[0]] + parts[1..] == parts;
    }
  }

  function DropTrailingEmpty(r: seq<string>): (t: seq<string>)
    ensures |t| <= |r| && t == r[..|t|]
    ensures forall i :: |t| <= i < |r| ==> r[i] == ""
    ensures |t| > 0 ==> t[|t| - 1] != ""
  {
    if |r| > 0 && r[|r| - 1] == "" then DropTrailingEmpty(r[..|r| - 1]) else r
  }

  /**
   * Ruby's `s.split(sep)` for a one-character separator: the fields between
   * separators, with trailing empty fields removed (so `"".split(",")` and
   * `",".split(",")` are both `[]`, while `",a"` gives `["", "a"]`).
   */
  function Split(s: string, sep: char): (r: seq<string>)
    ensures forall i :: 0 <= i < |r| ==> sep !in r[i]
    ensures |r| <= |Fields(s, sep)| && r == Fields(s, sep)[..|r|]
    ensures forall i :: |r| <= i < |Fields(s, sep)| ==> Fields(s, sep)[i] == ""
    ensures |r| > 0 ==> r[|r| - 1] != ""
  {
    DropTrailingEmpty(Fields(s, sep))
  }

  /** Two fields with one separator between them split into exactly those two. */
  lemma SplitPair(a: string, sep: char, b: string)
    requires sep !in a && sep !in b && b != ""
    ensures Split(a + [sep] + b, sep) == [a, b]
  {
    FieldsOfSeparated(a, sep, b);
    FieldsOfPlain(b, sep);
    assert Fields(a + [sep] + b, sep) == [a, b];
  }

  /** Ruby's multiple assignment `a, b = parts`: a missing element is nil. */
  function Nth(parts: seq<string>, i: nat): Option<string> {
    if i < |parts| then Some(parts[i]) else None
  }

  // ---------------------------------------------------------------------
  // String#to_i

  /** The value of the digit run at the start of `s`, single underscores between digits allowed. */
  function DigitRun(s: string, acc: int): int
    decreases |s|
  {
    if |s| > 0 && IsDigit(s[0]) then DigitRun(s[1..], acc * 10 + DigitValue(s[0]))
    else if |s| > 1 && s[0] == '_' && IsDigit(s[1]) then DigitRun(s[1..], acc)
    else acc
  }

  function SkipSpace(s: string): (t: string)
    ensures |t| <= |s| && t == s[|s| - |t|..]
    ensures |t| > 0 ==> !IsSpace(t[0])
  {
    if |s| > 0 && IsSpace(s[0]) then SkipSpace(s[1..]) else s
  }

  /**
   * Ruby's `String#to_i`: leading white space, an optional sign, then the
   * longest digit run; 0 when there is no digit.
   */
  function ToI(s: string): int {
    var t := SkipSpace(s);
    var neg := |t| > 0 && t[0] == '-';
    var body := if |t| > 0 && (t[0] == '-' || t[0] == '+') then t[1..] else t;
    var n := if |body| > 0 && IsDigit(body[0]) then DigitRun(body, 0) else 0;
    if neg then -n else n
  }

  /** The decimal numeral of `n`, without leading zeros. */
  function NatToString(n: nat): (s: string)
    ensures |s| >= 1 && AllDigits(s)
    ensures n >= 10 ==> s[0] != '0'
    ensures n < 100 ==> |s| <= 2
    ensures n < 10000 ==> |s| <= 4
  {
    if n < 10 then [DigitChar(n)] else NatToString(n / 10) + [DigitChar(n % 10)]
  }

  lemma {:induction false} DigitRunAppend(a: string, c: char, acc: int)
    requires AllDigits(a) && IsDigit(c)
    ensures DigitRun(a + [c], acc) == DigitRun(a, acc) * 10 + DigitValue(c)
    decreases |a|
  {
    if |a| == 0 {
      assert [c][1..] == [];
    } else {
      assert (a + [c])[1..] == a[1..] + [c];
      DigitRunAppend(a[1..], c, acc * 10 + DigitValue(a[0]));
    }
  }

  /** Leading zeros do not change a digit run's value. */
  lemma {:induction false} DigitRunLeadingZero(s: string)
    ensures DigitRun("0" + s, 0) == DigitRun(s, 0)
  {
    assert ("0" + s)[1..] == s;
  }

  lemma {:induction false} DigitRunOfNumeral(n: nat)
    ensures DigitRun(NatToString(n), 0) == n
  {
    if n >= 10 {
      DigitRunOfNumeral(n / 10);
      DigitRunAppend(NatToString(n / 10), DigitChar(n % 10), 0);
    }
  }

  /** `n.to_s.to_i == n` for every natural number. */
  lemma ToIOfNumeral(n: nat)
    ensures ToI(NatToString(n)) == n
  {
    var s := NatToString(n);
    SkipSpaceOfDigits(s);
    DigitRunOfNumeral(n);
  }

  lemma SkipSpaceOfDigits(s: string)
    requires |s| >= 1 && AllDigits(s)
    ensures SkipSpace(s) == s
  {
    assert !IsSpace(s[0]);
  }

  // ---------------------------------------------------------------------
  // ActiveSupport's blank? / present? on strings

  predicate Blank(s: string) {
    forall i :: 0 <= i < |s| ==> IsSpace(s[i])
  }

  /** `x.present?` for a parameter that is nil or a string. */
  predicate Present(p: Option<string>) {
    p.Some? && !Blank(p.value)
  }

  // ---------------------------------------------------------------------
  // Array#uniq

  predicate NoDuplicates<T(==)>(s: seq<T>) {
    forall i, j :: 0 <= i < j < |s| ==> s[i] != s[j]
  }

  /** Ruby's `Array#uniq`: every element once, at the place of its first occurrence. */
  function Uniq<T(==,!new)>(s: seq<T>): (r: seq<T>)
    ensures NoDuplicates(r)
    ensures forall x :: x in r <==> x in s
    ensures |r| <= |s|
  {
    if s == [] then []
    else
      var u := Uniq(s[..|s| - 1]);
      if s[|s| - 1] in u then u else u + [s[|s| - 1]]
  }

  /** `uniq` leaves a list without duplicates as it is. */
  lemma {:induction false} UniqOfDistinct<T(!new)>(s: seq<T>)
    requires NoDuplicates(s)
    ensures Uniq(s) == s
  {
    if s != [] {
      var init := s[..|s| - 1];
      UniqOfDistinct(init);
      assert s[|s| - 1] !in init;
      assert init + [s[|s| - 1]] == s;
    }
  }

  /** The index of the first occurrence of `x` in `s`. */
  function FirstIndex<T(==)>(s: seq<T>, x: T): (r: nat)
    requires x in s
    ensures r < |s| && s[r] == x
    ensures forall j :: 0 <= j < r ==> s[j] != x
  {
    if s[0] == x then 0 else 1 + FirstIndex(s[1..], x)
  }

  lemma FirstIndexTail<T>(s: seq<T>, x: T)
    requires x in s && s[0] != x
    ensures x in s[1..] && FirstIndex(s, x) == 1 + FirstIndex(s[1..], x)
  {
  }

  /** Appending leaves the first occurrence of an element already present where it was. */
  lemma FirstIndexSnoc<T>(s: seq<T>, y: T, x: T)
    requires x in s
    ensures FirstIndex(s + [y], x) == FirstIndex(s, x)
  {
    var i, k := FirstIndex(s, x), FirstIndex(s + [y], x);
    assert (s + [y])[i] == x;
    assert k < |s| ==> s[k] == x;
  }

  /** `uniq` keeps each element at its first occurrence: its elements appear in order of first occurrence in `s`. */
  lemma {:induction false} UniqFirstOccurrence<T(!new)>(s: seq<T>)
    ensures forall i, j :: 0 <= i < j < |Uniq(s)| ==> FirstIndex(s, Uniq(s)[i]) < FirstIndex(s, Uniq(s)[j])
  {
    if s != [] {
      var init, last := s[..|s| - 1], s[|s| - 1];
      var u := Uniq(init);
      UniqFirstOccurrence(init);
      assert s == init + [last];
      forall x | x in u ensures FirstIndex(s, x) == FirstIndex(init, x) {
        FirstIndexSnoc(init, last, x);
      }
      if last !in u {
        assert FirstIndex(s, last) == |s| - 1;
      }
    }
  }

  /** `a | b`: the elements of both, each once, in order of first occurrence. */
  function Union<T(==,!new)>(a: seq<T>, b: seq<T>): (r: seq<T>)
    ensures NoDuplicates(r)
    ensures forall x :: x in r <==> x in a || x in b
  {
    var r := Uniq(a + b);
    assert forall x :: x in a + b ==> x in r by {
      forall x | x in a + b ensures x in r {
        var i :| 0 <= i < |a + b| && (a + b)[i] == x;
      }
    }
    r
  }

  /** `a - b`: the elements of `a` that are not in `b`, in their order. */
  function Without<T(==,!new)>(a: seq<T>, b: seq<T>): (r: seq<T>)
    ensures forall x :: x in r <==> x in a && x !in b
    ensures NoDuplicates(a) ==> NoDuplicates(r)
  {
    if a == [] then [] else (if a[0] in b then [] else [a[0]]) + Without(a[1..], b)
  }

  // ---------------------------------------------------------------------
  // Insertion-ordered Hash with string (or indifferent-access) keys

  type OHash<V> = seq<(string, V)>

  function KeysOf<V>(h: OHash<V>): (ks: seq<string>)
    ensures |ks| == |h|
    ensures forall i {:trigger ks[i]} :: 0 <= i < |h| ==> ks[i] == h[i].0
  {
    if h == [] then [] else [h[0].0] + KeysOf(h[1..])
  }

  predicate UniqueKeys<V>(h: OHash<V>) {
    forall i, j :: 0 <= i < j < |h| ==> h[i].0 != h[j].0
  }

  /** A non-empty sequence is its front followed by its last element. */
  lemma InitLast<T>(s: seq<T>)
    requires s != []
    ensures s == s[..|s| - 1] + [s[|s| - 1]]
  {
  }

  lemma UniqueKeysOfInit<V>(h: OHash<V>)
    requires UniqueKeys(h) && h != []
    ensures UniqueKeys(h[..|h| - 1])
  {
    assert forall i :: 0 <= i < |h| - 1 ==> h[..|h| - 1][i] == h[i];
  }

  /** The position of the first pair stored under `k`. */
  function IndexOfKey<V>(h: OHash<V>, k: string): (r: Option<nat>)
    ensures r.Some? ==> r.value < |h| && h[r.value].0 == k
    ensures r.Some? ==> forall j :: 0 <= j < r.value ==> h[j].0 != k
    ensures r.None? ==> forall j :: 0 <= j < |h| ==> h[j].0 != k
  {
    if h == [] then None
    else if h[0].0 == k then Some(0)
    else match IndexOfKey(h[1..], k)
      case None => None
      case Some(i) => Some(i + 1)
  }

  lemma IndexOfUniqueKey<V>(h: OHash<V>, i: nat)
    requires UniqueKeys(h) && i < |h|
    ensures IndexOfKey(h, h[i].0) == Some(i)
  {
  }

  /** `h.has_key?(k)`. */
  predicate HasKey<V>(h: OHash<V>, k: string) {
    IndexOfKey(h, k).Some?
  }

  /** `h[k]`: the value stored under `k`, or nil. */
  function Lookup<V>(h: OHash<V>, k: string): (r: Option<V>)
    ensures r.Some? <==> HasKey(h, k)
  {
    match IndexOfKey(h, k)
    case None => None
    case Some(i) => Some(h[i].1)
  }

  /** `h[k] = v`: an existing key keeps its place, a new key goes to the end. */
  function Put<V>(h: OHash<V>, k: string, v: V): (r: OHash<V>)
    ensures !HasKey(h, k) ==> r == h + [(k, v)]
    ensures HasKey(h, k) ==> |r| == |h| && forall j :: 0 <= j < |h| ==> r[j].0 == h[j].0
  {
    match IndexOfKey(h, k)
    case None => h + [(k, v)]
    case Some(i) => h[..i] + [(k, v)] + h[i + 1..]
  }

  /** `h.delete(k)`: the pair under `k` goes, the others keep their order. */
  function Delete<V>(h: OHash<V>, k: string): (r: OHash<V>)
    ensures !HasKey(h, k) ==> r == h
    ensures HasKey(h, k) ==> |r| == |h| - 1
  {
    match IndexOfKey(h, k)
    case None => h
    case Some(i) => h[..i] + h[i + 1..]
  }

  /** What a lookup sees after `h[k] = v`: `v` under `k`, everything else as before. */
  lemma PutLookup<V>(h: OHash<V>, k: string, v: V, k': string)
    requires UniqueKeys(h)
    ensures UniqueKeys(Put(h, k, v))
    ensures Lookup(Put(h, k, v), k') == if k' == k then Some(v) else Lookup(h, k')
  {
    if HasKey(h, k) {
      PutLookupPresent(h, k, v, k');
    } else {
      PutLookupAbsent(h, k, v, k');
    }
  }

  lemma PutLookupAbsent<V>(h: OHash<V>, k: string, v: V, k': string)
    requires UniqueKeys(h) && !HasKey(h, k)
    ensures UniqueKeys(Put(h, k, v))
    ensures Lookup(Put(h, k, v), k') == if k' == k then Some(v) else Lookup(h, k')
  {
    var r := Put(h, k, v);
    assert r == h + [(k, v)];
    assert forall j :: 0 <= j < |h| ==> h[j].0 != k;
    if k' == k {
      IndexOfUniqueKey(r, |h|);
    } else if HasKey(h, k') {
      var j := IndexOfKey(h, k').value;
      IndexOfUniqueKey(h, j);
      IndexOfUniqueKey(r, j);
    } else {
      assert forall j :: 0 <= j < |r| ==> r[j].0 != k';
    }
  }

  lemma PutLookupPresent<V>(h: OHash<V>, k: string, v: V, k': string)
    requires UniqueKeys(h) && HasKey(h, k)
    ensures UniqueKeys(Put(h, k, v))
    ensures Lookup(Put(h, k, v), k') == if k' == k then Some(v) else Lookup(h, k')
  {
    var r := Put(h, k, v);
    var i := IndexOfKey(h, k).value;
    assert r == h[..i] + [(k, v)] + h[i + 1..];
    assert r[i] == (k, v);
    assert forall j :: 0 <= j < |h| ==> r[j].0 == h[j].0;
    if k' == k {
      IndexOfUniqueKey(r, i);
    } else if HasKey(h, k') {
      var j := IndexOfKey(h, k').value;
      IndexOfUniqueKey(h, j);
      assert j != i;
      assert r[j] == h[j];
      IndexOfUniqueKey(r, j);
    } else {
      assert forall j :: 0 <= j < |r| ==> r[j].0 != k';
    }
  }

  /** What a lookup sees after `h.delete(k)`: nothing under `k`, everything else as before. */
  lemma DeleteLookup<V>(h: OHash<V>, k: string, k': string)
    requires UniqueKeys(h)
    ensures UniqueKeys(Delete(h, k))
    ensures Lookup(Delete(h, k), k') == if k' == k then None else Lookup(h, k')
  {
    var r := Delete(h, k);
    match IndexOfKey(h, k)
    case None =>
    case Some(i) =>
      assert r == h[..i] + h[i + 1..];
      assert forall j :: 0 <= j < |r| ==> r[j] == h[if j < i then j else j + 1];
      forall a, b | 0 <= a < b < |r| ensures r[a].0 != r[b].0 {
        assert r[a] == h[if a < i then a else a + 1];
        assert r[b] == h[if b < i then b else b + 1];
      }
      if HasKey(h, k') && k' != k {
        var j := IndexOfKey(h, k').value;
        IndexOfUniqueKey(h, j);
        var j' := if j < i then j else j - 1;
        assert j != i;
        assert r[j'] == h[j];
        IndexOfUniqueKey(r, j');
      } else if k' != k {
        assert forall j :: 0 <= j < |r| ==> r[j].0 != k';
      } else {
        assert forall j :: 0 <= j < |r| ==> r[j].0 != k;
      }
  }

  /** A key is stored exactly when it is among the hash's keys. */
  lemma {:induction false} HasKeyInKeys<V>(h: OHash<V>, k: string)
    ensures HasKey(h, k) <==> k in KeysOf(h)
  {
    if k in KeysOf(h) {
      var i :| 0 <= i < |h| && KeysOf(h)[i] == k;
      assert h[i].0 == k;
    } else {
      forall j | 0 <= j < |h| ensures h[j].0 != k {
        assert KeysOf(h)[j] == h[j].0;
      }
    }
  }

  /** `h.reject { |k, _| !ks.include?(k) }`: the pairs whose key is in `ks`, in order. */
  function SelectKeys<V>(h: OHash<V>, ks: seq<string>): (r: OHash<V>)
    ensures |r| <= |h|
  {
    if h == [] then [] else (if h[0].0 in ks then [h[0]] else []) + SelectKeys(h[1..], ks)
  }

  /**
   * When `ks` holds exactly the keys of `h` that are not in `nh`, selecting
   * the pairs under `ks` keeps the keys `KeysOf(h) - nh`, in their order.
   */
  lemma {:induction false} SelectKeysWithout<V>(h: OHash<V>, ks: seq<string>, nh: seq<string>)
    requires forall i :: 0 <= i < |h| ==> (h[i].0 in ks <==> h[i].0 !in nh)
    ensures KeysOf(SelectKeys(h, ks)) == Without(KeysOf(h), nh)
  {
    if h != [] {
      SelectKeysWithout(h[1..], ks, nh);
      assert KeysOf(h)[1..] == KeysOf(h[1..]);
      var head: OHash<V> := if h[0].0 in ks then [h[0]] else [];
      KeysOfAppend(head, SelectKeys(h[1..], ks));
    }
  }

  lemma {:induction false} KeysOfAppend<V>(a: OHash<V>, b: OHash<V>)
    ensures KeysOf(a + b) == KeysOf(a) + KeysOf(b)
  {
    assert |KeysOf(a + b)| == |KeysOf(a) + KeysOf(b)|;
    forall i | 0 <= i < |a + b| ensures KeysOf(a + b)[i] == (KeysOf(a) + KeysOf(b))[i] {
    }
  }

  /** `a.merge(b)`: every pair of `b`, in order, put into `a`. */
  function Merge<V>(a: OHash<V>, b: OHash<V>): OHash<V>
    decreases |b|
  {
    if b == [] then a else Put(Merge(a, b[..|b| - 1]), b[|b| - 1].0, b[|b| - 1].1)
  }

  /** The keys after `h[k] = v`: unchanged for a known key, `k` appended otherwise. */
  lemma {:induction false} PutKeys<V>(h: OHash<V>, k: string, v: V)
    ensures KeysOf(Put(h, k, v)) == if k in KeysOf(h) then KeysOf(h) else KeysOf(h) + [k]
  {
    HasKeyInKeys(h, k);
    if HasKey(h, k) {
      assert KeysOf(Put(h, k, v)) == KeysOf(h);
    } else {
      KeysOfAppend(h, [(k, v)]);
    }
  }

  lemma {:induction false} UniqSnoc<T(!new)>(s: seq<T>, x: T)
    ensures Uniq(s + [x]) == if x in Uniq(s) then Uniq(s) else Uniq(s) + [x]
  {
    assert (s + [x])[..|s|] == s;
  }

  /**
   * `merge` keeps the keys of `a` where they are and appends the new keys of
   * `b` in their order: its keys are `a.keys | b.keys`.
   */
  lemma {:induction false} MergeKeys<V>(a: OHash<V>, b: OHash<V>)
    requires UniqueKeys(a)
    ensures UniqueKeys(Merge(a, b))
    ensures KeysOf(Merge(a, b)) == Uniq(KeysOf(a) + KeysOf(b))
    decreases |b|
  {
    if b == [] {
      assert KeysOf(a) + KeysOf(b) == KeysOf(a);
      UniqOfDistinct(KeysOf(a));
    } else {
      var b', last := b[..|b| - 1], b[|b| - 1];
      assert b == b' + [last];
      MergeKeys(a, b');
      MergeKeysStep(a, b', last);
      MergeUniqueStep(a, b', last);
    }
  }

  lemma MergeSnoc<V>(a: OHash<V>, b: OHash<V>, last: (string, V))
    ensures Merge(a, b + [last]) == Put(Merge(a, b), last.0, last.1)
  {
    assert (b + [last])[..|b|] == b;
  }

  lemma KeysOfSnoc<V>(b: OHash<V>, last: (string, V))
    ensures KeysOf(b + [last]) == KeysOf(b) + [last.0]
  {
    KeysOfAppend(b, [last]);
  }

  lemma PutUniqStep<V>(m: OHash<V>, xs: seq<string>, k: string, v: V)
    requires KeysOf(m) == Uniq(xs)
    ensures KeysOf(Put(m, k, v)) == Uniq(xs + [k])
  {
    PutKeys(m, k, v);
    UniqSnoc(xs, k);
  }

  lemma {:induction false} MergeKeysStep<V>(a: OHash<V>, b: OHash<V>, last: (string, V))
    requires KeysOf(Merge(a, b)) == Uniq(KeysOf(a) + KeysOf(b))
    ensures KeysOf(Merge(a, b + [last])) == Uniq(KeysOf(a) + KeysOf(b + [last]))
  {
    var xs := KeysOf(a) + KeysOf(b);
    MergeSnoc(a, b, last);
    PutUniqStep(Merge(a, b), xs, last.0, last.1);
    KeysOfSnoc(b, last);
    assert KeysOf(a) + KeysOf(b + [last]) == xs + [last.0];
  }

  lemma {:induction false} MergeUniqueStep<V>(a: OHash<V>, b: OHash<V>, last: (string, V))
    requires UniqueKeys(Merge(a, b))
    ensures UniqueKeys(Merge(a, b + [last]))
  {
    assert (b + [last])[..|b|] == b;
    PutLookup(Merge(a, b), last.0, last.1, last.0);
  }

  /** The pair at position `i` of a hash with distinct keys is what a lookup of its key finds. */
  lemma LookupAt<V>(h: OHash<V>, i: nat)
    requires UniqueKeys(h) && i < |h|
    ensures Lookup(h, h[i].0) == Some(h[i].1)
  {
    IndexOfUniqueKey(h, i);
  }

  /** A lookup in a hash with one more pair at the front. */
  lemma LookupCons<V>(x: (string, V), h: OHash<V>, k: string)
    ensures Lookup([x] + h, k) == if k == x.0 then Some(x.1) else Lookup(h, k)
  {
    assert ([x] + h)[1..] == h;
  }

  /** A lookup in a hash with one more pair at the end. */
  /** A lookup in a hash whose last pair is known: that pair, or a lookup in the pairs before it. */
  lemma LookupLast<V>(h: OHash<V>, k: string)
    requires UniqueKeys(h) && h != []
    ensures Lookup(h, k) == if k == h[|h| - 1].0 then Some(h[|h| - 1].1) else Lookup(h[..|h| - 1], k)
  {
    InitLast(h);
    LookupSnoc(h[..|h| - 1], h[|h| - 1], k);
  }

  lemma LookupSnoc<V>(h: OHash<V>, x: (string, V), k: string)
    requires UniqueKeys(h + [x])
    ensures Lookup(h + [x], k) == if k == x.0 then Some(x.1) else Lookup(h, k)
  {
    var hx := h + [x];
    assert hx[|h|] == x;
    if k == x.0 {
      IndexOfUniqueKey(hx, |h|);
    } else if HasKey(h, k) {
      var i := IndexOfKey(h, k).value;
      assert hx[i] == h[i];
      IndexOfUniqueKey(hx, i);
    } else {
      forall j | 0 <= j < |hx| ensures hx[j].0 != k {
        if j < |h| {
          assert hx[j] == h[j];
        }
      }
    }
  }

  /** `a.merge(b)`: a key of `b` reads its value from `b`, any other key from `a`. */
  lemma {:induction false} MergeLookup<V>(a: OHash<V>, b: OHash<V>, k: string)
    requires UniqueKeys(a) && UniqueKeys(b)
    ensures Lookup(Merge(a, b), k) == if HasKey(b, k) then Lookup(b, k) else Lookup(a, k)
    decreases |b|
  {
    if b != [] {
      var b', last := b[..|b| - 1], b[|b| - 1];
      assert b == b' + [last];
      MergeLookup(a, b', k);
      MergeKeys(a, b');
      PutLookup(Merge(a, b'), last.0, last.1, k);
      LookupSnoc(b', last, k);
    }
  }

  /** Distinct keys make a hash whose pairs have distinct keys. */
  lemma UniqueKeysOfDistinct<V>(h: OHash<V>)
    requires NoDuplicates(KeysOf(h))
    ensures UniqueKeys(h)
  {
    forall i, j | 0 <= i < j < |h| ensures h[i].0 != h[j].0 {
      assert KeysOf(h)[i] == h[i].0 && KeysOf(h)[j] == h[j].0;
    }
  }
}
