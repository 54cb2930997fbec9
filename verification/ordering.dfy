/** Reverse ("oldest first") mode of the Slack and Discord exporters buffers the
    accepted rows and sorts them once pagination ends: by the numeric value of
    one field when every row's field converts, otherwise by the field as a
    string. Python's sort is stable; it is modelled by an insertion sort that
    places each row before the first row whose key is not smaller. */
module Ordering {
  import opened Common
  import opened Rows

  /** A sort key: a number, or a string compared code point by code point. */
  datatype SortKey = Num(n: int) | Str(s: string)

  /** Python's `a <= b` on strings. */
  predicate StrLe(a: string, b: string)
    decreases |a|
  {
    a == [] || (b != [] && (a[0] < b[0] || (a[0] == b[0] && StrLe(a[1..], b[1..]))))
  }

  /** The order the sort uses; numbers and strings never meet in one sort, and
      placing numbers first keeps the order total. */
  predicate KeyLe(a: SortKey, b: SortKey) {
    match (a, b)
    case (Num(x), Num(y)) => x <= y
    case (Str(x), Str(y)) => StrLe(x, y)
    case (Num(_), Str(_)) => true
    case (Str(_), Num(_)) => false
  }

  lemma {:induction false} StrLeTotal(a: string, b: string)
    ensures StrLe(a, b) || StrLe(b, a)
    decreases |a|
  {
    if a != [] && b != [] && a[0] == b[0] {
      StrLeTotal(a[1..], b[1..]);
    }
  }

  lemma {:induction false} StrLeTrans(a: string, b: string, c: string)
    requires StrLe(a, b) && StrLe(b, c)
    ensures StrLe(a, c)
    decreases |a|
  {
    if a != [] && b != [] && c != [] && a[0] == b[0] == c[0] {
      StrLeTrans(a[1..], b[1..], c[1..]);
    }
  }

  lemma KeyLeTotal(a: SortKey, b: SortKey)
    ensures KeyLe(a, b) || KeyLe(b, a)
  {
    if a.Str? && b.Str? {
      StrLeTotal(a.s, b.s);
    }
  }

  lemma KeyLeTrans(a: SortKey, b: SortKey, c: SortKey)
    requires KeyLe(a, b) && KeyLe(b, c)
    ensures KeyLe(a, c)
  {
    if a.Str? && b.Str? && c.Str? {
      StrLeTrans(a.s, b.s, c.s);
    }
  }

  predicate SortedBy<T>(xs: seq<T>, key: T -> SortKey) {
    forall i, j :: 0 <= i < j < |xs| ==> KeyLe(key(xs[i]), key(xs[j]))
  }

  /** Inserts `x` before the first element whose key is not smaller. */
  function Insert<T>(x: T, xs: seq<T>, key: T -> SortKey): (r: seq<T>)
    ensures multiset(r) == multiset(xs) + multiset{x}
    decreases |xs|
  {
    if xs == [] || KeyLe(key(x), key(xs[0])) then [x] + xs
    else
      assert xs == [xs[0]] + xs[1..];
      [xs[0]] + Insert(x, xs[1..], key)
  }

  /** `sorted(xs, key=key)`. */
  function SortBy<T>(xs: seq<T>, key: T -> SortKey): seq<T>
    decreases |xs|
  {
    if xs == [] then [] else Insert(xs[0], SortBy(xs[1..], key), key)
  }

  lemma {:induction false} InsertSorted<T>(x: T, xs: seq<T>, key: T -> SortKey)
    requires SortedBy(xs, key)
    ensures SortedBy(Insert(x, xs, key), key)
    decreases |xs|
  {
    if xs == [] || KeyLe(key(x), key(xs[0])) {
      var r := [x] + xs;
      forall i, j | 0 <= i < j < |r|
        ensures KeyLe(key(r[i]), key(r[j]))
      {
        if i == 0 && j > 1 {
          KeyLeTrans(key(x), key(xs[0]), key(xs[j - 1]));
        }
      }
    } else {
      var rest := Insert(x, xs[1..], key);
      InsertSorted(x, xs[1..], key);
      var r := [xs[0]] + rest;
      KeyLeTotal(key(x), key(xs[0]));
      forall y | y in rest
        ensures KeyLe(key(xs[0]), key(y))
      {
        assert y in multiset(rest);
        if y != x {
          assert y in multiset(xs[1..]);
          var k :| 0 <= k < |xs[1..]| && xs[1..][k] == y;
          assert xs[k + 1] == y;
        }
      }
      forall i, j | 0 <= i < j < |r|
        ensures KeyLe(key(r[i]), key(r[j]))
      {
        if i == 0 {
          assert r[j] == rest[j - 1];
          assert r[j] in rest;
        } else {
          assert r[i] == rest[i - 1] && r[j] == rest[j - 1];
        }
      }
    }
  }

  lemma {:induction false} StrLeRefl(a: string)
    ensures StrLe(a, a)
    decreases |a|
  {
    if a != [] {
      StrLeRefl(a[1..]);
    }
  }

  /** The elements of `xs` whose key is `k`, in their order in `xs`. */
  function WithKey<T>(xs: seq<T>, key: T -> SortKey, k: SortKey): seq<T>
    decreases |xs|
  {
    if xs == [] then [] else (if key(xs[0]) == k then [xs[0]] else []) + WithKey(xs[1..], key, k)
  }

  lemma KeyLeRefl(a: SortKey)
    ensures KeyLe(a, a)
  {
    if a.Str? {
      StrLeRefl(a.s);
    }
  }

  lemma WithKeyCons<T>(y: T, ys: seq<T>, key: T -> SortKey, k: SortKey)
    ensures WithKey([y] + ys, key, k) == (if key(y) == k then [y] else []) + WithKey(ys, key, k)
  {
    assert ([y] + ys)[0] == y && ([y] + ys)[1..] == ys;
  }

  lemma InsertHere<T>(x: T, xs: seq<T>, key: T -> SortKey)
    requires xs == [] || KeyLe(key(x), key(xs[0]))
    ensures Insert(x, xs, key) == [x] + xs
  {
  }

  lemma InsertPast<T>(x: T, xs: seq<T>, key: T -> SortKey)
    requires xs != [] && !KeyLe(key(x), key(xs[0]))
    ensures Insert(x, xs, key) == [xs[0]] + Insert(x, xs[1..], key)
  {
  }

  /** Insertion goes past elements with a smaller key only, so `x` lands
      before every element that has its key. */
  lemma {:induction false} InsertStable<T>(x: T, xs: seq<T>, key: T -> SortKey, k: SortKey)
    ensures WithKey(Insert(x, xs, key), key, k) == (if key(x) == k then [x] else []) + WithKey(xs, key, k)
    decreases |xs|
  {
    var mine := if key(x) == k then [x] else [];
    KeyLeRefl(key(x));
    hide KeyLe;
    hide StrLe;
    hide WithKey;
    hide Insert;
    if xs == [] || KeyLe(key(x), key(xs[0])) {
      InsertHere(x, xs, key);
      WithKeyCons(x, xs, key, k);
    } else {
      InsertPast(x, xs, key);
      var rest := Insert(x, xs[1..], key);
      var head := if key(xs[0]) == k then [xs[0]] else [];
      InsertStable(x, xs[1..], key, k);
      WithKeyCons(xs[0], rest, key, k);
      WithKeyCons(xs[0], xs[1..], key, k);
      assert xs == [xs[0]] + xs[1..];
      assert head == [] || mine == [];
      assert head + (mine + WithKey(xs[1..], key, k)) == mine + (head + WithKey(xs[1..], key, k));
    }
  }

  /** The sort's result is ordered by the key, is a permutation of its input,
      and is stable: the elements sharing a key keep their input order. */
  lemma {:induction false} SortByCorrect<T>(xs: seq<T>, key: T -> SortKey)
    ensures SortedBy(SortBy(xs, key), key)
    ensures multiset(SortBy(xs, key)) == multiset(xs)
    ensures forall k :: WithKey(SortBy(xs, key), key, k) == WithKey(xs, key, k)
    decreases |xs|
  {
    if xs != [] {
      SortByCorrect(xs[1..], key);
      InsertSorted(xs[0], SortBy(xs[1..], key), key);
      assert xs == [xs[0]] + xs[1..];
      forall k
        ensures WithKey(SortBy(xs, key), key, k) == WithKey(xs, key, k)
      {
        InsertStable(xs[0], SortBy(xs[1..], key), key, k);
      }
    }
  }

  // ---------------------------------------------------------------------------
  // The buffered rows

  /** The numeric key of a row whose field converts (used only when all do). */
  function NumericKey(field: Row -> Option<string>, num: string -> Option<int>, r: Row): SortKey {
    match field(r)
    case Some(s) => (match num(s) case Some(n) => Num(n) case None => Num(0))
    case None => Num(0)
  }

  /** The string key of a row: the field itself (a missing field never reaches
      a comparison, see AscendingRows). */
  function StringKey(field: Row -> Option<string>, r: Row): SortKey {
    Str(field(r).GetOr(""))
  }

  predicate AllNumeric(rows: seq<Row>, field: Row -> Option<string>, num: string -> Option<int>) {
    forall i :: 0 <= i < |rows| ==> field(rows[i]).Some? && num(field(rows[i]).value).Some?
  }

  /** `collected.sort(key=<number>)`, and on failure `collected.sort(key=<string>)`.
      The first sort converts every key before it compares, so it fails
      without reordering; the second raises TypeError (None is returned) once
      a row without the field takes part in a comparison, which happens to
      every row as soon as there are two. */
  function AscendingRows(rows: seq<Row>, field: Row -> Option<string>, num: string -> Option<int>)
    : (r: Option<seq<Row>>)
    ensures r.Some? ==> multiset(r.value) == multiset(rows)
    ensures r.Some? && AllNumeric(rows, field, num) ==> SortedBy(r.value, (x: Row) => NumericKey(field, num, x))
    ensures r.Some? && !AllNumeric(rows, field, num) ==> SortedBy(r.value, (x: Row) => StringKey(field, x))
    ensures r.None? <==> !AllNumeric(rows, field, num) && |rows| >= 2 && exists i :: 0 <= i < |rows| && field(rows[i]).None?
  {
    if AllNumeric(rows, field, num) then
      var key := (x: Row) => NumericKey(field, num, x);
      SortByCorrect(rows, key);
      Some(SortBy(rows, key))
    else if |rows| >= 2 && exists i :: 0 <= i < |rows| && field(rows[i]).None? then
      None
    else
      var key := (x: Row) => StringKey(field, x);
      SortByCorrect(rows, key);
      Some(SortBy(rows, key))
  }
}
