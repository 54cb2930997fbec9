/** The shape all three export loops share: messages arrive in fetch order, a
    filter chain keeps some of them, and a counter stops the loop once an
    optional limit is reached. */
module Stream {
  import opened Common

  /** The messages the filter chain keeps, in fetch order. */
  function Select<M>(ms: seq<M>, keep: M -> bool): (r: seq<M>)
    ensures |r| <= |ms|
    decreases |ms|
  {
    if ms == [] then []
    else
      var init := Select(ms[..|ms| - 1], keep);
      var last := ms[|ms| - 1];
      if keep(last) then init + [last] else init
  }

  /** What Select keeps is exactly the messages that pass, and it keeps a
      stream in which all pass unchanged. */
  lemma {:induction false} SelectMembers<M>(ms: seq<M>, keep: M -> bool)
    ensures forall x :: x in Select(ms, keep) ==> x in ms && keep(x)
    ensures forall x :: x in ms && keep(x) ==> x in Select(ms, keep)
    ensures (forall i :: 0 <= i < |ms| ==> keep(ms[i])) ==> Select(ms, keep) == ms
    decreases |ms|
  {
    if ms != [] {
      var init := ms[..|ms| - 1];
      SelectMembers(init, keep);
      assert ms == init + [ms[|ms| - 1]];
    }
  }

  /** Filtering one more message extends the kept messages by it when it passes. */
  lemma SelectSnoc<M>(ms: seq<M>, m: M, keep: M -> bool)
    ensures Select(ms + [m], keep) == Select(ms, keep) + (if keep(m) then [m] else [])
  {
    assert (ms + [m])[..|ms|] == ms;
  }

  /** Filtering distributes over the concatenation of pages. */
  lemma {:induction false} SelectAppend<M>(a: seq<M>, b: seq<M>, keep: M -> bool)
    ensures Select(a + b, keep) == Select(a, keep) + Select(b, keep)
    decreases |b|
  {
    if b == [] {
      assert a + b == a;
    } else {
      var b' := b[..|b| - 1];
      assert a + b == (a + b') + [b[|b| - 1]];
      assert b == b' + [b[|b| - 1]];
      SelectAppend(a, b', keep);
      SelectSnoc(a + b', b[|b| - 1], keep);
      SelectSnoc(b', b[|b| - 1], keep);
    }
  }

  /** Nothing passes, nothing is kept. */
  lemma {:induction false} SelectNone<M>(ms: seq<M>, keep: M -> bool)
    requires forall i :: 0 <= i < |ms| ==> !keep(ms[i])
    ensures Select(ms, keep) == []
    decreases |ms|
  {
    if ms != [] {
      SelectNone(ms[..|ms| - 1], keep);
    }
  }

  /** Python's `limit and count >= limit`: a limit of None or 0 never stops. */
  predicate LimitReached(limit: Option<int>, count: int) {
    limit.Some? && limit.value != 0 && count >= limit.value
  }

  /** The accepted items a loop with that stop test keeps: all of them when the
      limit is unset or 0, none when it is negative, else the first `limit`. */
  function TakeLimit<T>(xs: seq<T>, limit: Option<int>): (r: seq<T>)
    ensures |r| <= |xs| && r == xs[..|r|]
    ensures limit.Some? && limit.value != 0 ==> |r| <= if limit.value < 0 then 0 else limit.value
    ensures !LimitReached(limit, |r|) ==> r == xs
  {
    if limit.None? || limit.value == 0 then xs
    else if limit.value < 0 then []
    else if |xs| <= limit.value then xs
    else xs[..limit.value]
  }

  /** Below the limit, one more accepted item is kept. */
  lemma TakeLimitSnoc<T>(xs: seq<T>, x: T, limit: Option<int>)
    requires !LimitReached(limit, |TakeLimit(xs, limit)|)
    ensures TakeLimit(xs + [x], limit) == TakeLimit(xs, limit) + [x]
  {
  }

  /** Once the limit is reached, nothing later is kept. */
  lemma TakeLimitStable<T>(xs: seq<T>, ys: seq<T>, limit: Option<int>)
    requires LimitReached(limit, |TakeLimit(xs, limit)|)
    ensures TakeLimit(xs + ys, limit) == TakeLimit(xs, limit)
  {
    if limit.value > 0 {
      assert limit.value <= |xs|;
      assert (xs + ys)[..limit.value] == xs[..limit.value];
    }
  }

  /** What is kept from a prefix is a prefix of what is kept from the whole. */
  lemma TakeLimitPrefix<T>(xs: seq<T>, ys: seq<T>, limit: Option<int>)
    ensures |TakeLimit(xs, limit)| <= |TakeLimit(xs + ys, limit)|
    ensures TakeLimit(xs, limit) == TakeLimit(xs + ys, limit)[..|TakeLimit(xs, limit)|]
  {
    if limit.Some? && limit.value > 0 && |xs| > limit.value {
      assert (xs + ys)[..limit.value] == xs[..limit.value];
    } else if limit.Some? && limit.value > 0 && |xs + ys| > limit.value {
      assert (xs + ys)[..limit.value][..|xs|] == xs;
    } else {
      assert (xs + ys)[..|xs|] == xs;
    }
  }

  /** An accepted item below the limit is the next one kept from the whole
      stream, whatever follows it. */
  lemma {:induction false} KeptNext<M>(seen: seq<M>, m: M, rest: seq<M>, keep: M -> bool, limit: Option<int>)
    requires keep(m) && !LimitReached(limit, |TakeLimit(Select(seen, keep), limit)|)
    ensures var acc := TakeLimit(Select(seen, keep), limit);
      var all := TakeLimit(Select(seen + [m] + rest, keep), limit);
      |acc| < |all| && all[..|acc| + 1] == acc + [m]
  {
    SelectSnoc(seen, m, keep);
    TakeLimitSnoc(Select(seen, keep), m, limit);
    SelectAppend(seen + [m], rest, keep);
    TakeLimitPrefix(Select(seen + [m], keep), Select(rest, keep), limit);
  }

  /** A page seen up to item j, that item, and the rest of the page. */
  lemma Around<M>(before: seq<M>, msgs: seq<M>, j: nat)
    requires j < |msgs|
    ensures before + msgs == (before + msgs[..j]) + [msgs[j]] + msgs[j + 1..]
    ensures before + msgs[..j + 1] == (before + msgs[..j]) + [msgs[j]]
  {
    assert msgs == msgs[..j] + [msgs[j]] + msgs[j + 1..];
    assert msgs[..j + 1] == msgs[..j] + [msgs[j]];
  }

  /** `[f(x) for x in xs]`. */
  function MapSeq<A, B>(xs: seq<A>, f: A -> B): (r: seq<B>)
    ensures |r| == |xs|
    decreases |xs|
  {
    if xs == [] then [] else MapSeq(xs[..|xs| - 1], f) + [f(xs[|xs| - 1])]
  }

  /** The i-th result is the image of the i-th item. */
  lemma {:induction false} MapSeqAt<A, B>(xs: seq<A>, f: A -> B, i: nat)
    requires i < |xs|
    ensures MapSeq(xs, f)[i] == f(xs[i])
    decreases |xs|
  {
    if i < |xs| - 1 {
      MapSeqAt(xs[..|xs| - 1], f, i);
    }
  }

  lemma MapSeqSnoc<A, B>(xs: seq<A>, x: A, f: A -> B)
    ensures MapSeq(xs + [x], f) == MapSeq(xs, f) + [f(x)]
  {
    assert (xs + [x])[..|xs|] == xs;
  }

  /** Mapping commutes with taking a prefix. */
  lemma {:induction false} MapSeqPrefix<A, B>(xs: seq<A>, n: nat, f: A -> B)
    requires n <= |xs|
    ensures MapSeq(xs, f)[..n] == MapSeq(xs[..n], f)
    decreases |xs|
  {
    if n < |xs| {
      var init := xs[..|xs| - 1];
      MapSeqPrefix(init, n, f);
      assert init[..n] == xs[..n];
    } else {
      assert xs[..n] == xs;
    }
  }

  /** `[f(x) for x in xs if keep(x)]` holds the image of every item that
      passes, and nothing else. */
  lemma SelectMapMembers<A, B>(xs: seq<A>, keep: A -> bool, f: A -> B)
    ensures forall x :: x in xs && keep(x) ==> f(x) in MapSeq(Select(xs, keep), f)
    ensures forall y :: y in MapSeq(Select(xs, keep), f) ==> exists x :: x in xs && keep(x) && y == f(x)
  {
    var kept := Select(xs, keep);
    SelectMembers(xs, keep);
    forall x | x in xs && keep(x)
      ensures f(x) in MapSeq(kept, f)
    {
      var i :| 0 <= i < |kept| && kept[i] == x;
      MapSeqAt(kept, f, i);
    }
    forall y | y in MapSeq(kept, f)
      ensures exists x :: x in xs && keep(x) && y == f(x)
    {
      var i :| 0 <= i < |MapSeq(kept, f)| && MapSeq(kept, f)[i] == y;
      MapSeqAt(kept, f, i);
      assert kept[i] in kept;
    }
  }
}
