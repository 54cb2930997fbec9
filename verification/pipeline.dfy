/** The page step the Slack and Discord loops share: each message of a page is
    checked against the limit, then the filter chain; an accepted message's
    row is handed to the destination at once, or buffered in reverse mode. */
module Pipeline {
  import opened Common
  import opened Rows
  import opened Stream
  import opened FileSink

  /** Why an export ends early: an exception it raises itself (with its
      message), a row the destination refuses, or the TypeError of sorting
      rows without a timestamp. */
  datatype Failure = Raised(msg: string) | Refused(fault: WriteFault) | Unorderable

  /** The progress line every exporter reports after a run that did not raise. */
  function DoneLine(count: nat, outPath: string): string {
    "Done. Exported " + NatToString(count) + " messages to " + outPath
  }

  /** The progress lines of a Slack or Discord export: the resume line, then
      the closing line when the export returns a count. */
  function ProgressLog(resumeLine: seq<string>, outcome: Result<nat, Failure>, outPath: string): seq<string> {
    resumeLine + (if outcome.Ok? then [DoneLine(outcome.value, outPath)] else [])
  }

  /** The messages accepted out of `ms`: the filtered ones, cut at the limit. */
  function Kept<M>(ms: seq<M>, keep: M -> bool, limit: Option<int>): seq<M> {
    TakeLimit(Select(ms, keep), limit)
  }

  /** Every accepted message is one of the messages and passes the filters,
      and a positive limit bounds how many there are. */
  lemma KeptPass<M>(ms: seq<M>, keep: M -> bool, limit: Option<int>)
    ensures forall m :: m in Kept(ms, keep, limit) ==> m in ms && keep(m)
    ensures limit.Some? && limit.value > 0 ==> |Kept(ms, keep, limit)| <= limit.value
  {
    SelectMembers(ms, keep);
    var sel := Select(ms, keep);
    var acc := Kept(ms, keep, limit);
    assert acc == sel[..|acc|];
    assert forall m :: m in acc ==> m in sel;
  }

  /** Messages are accepted in fetch order: what is accepted from a prefix
      of the stream comes first among what is accepted from all of it. */
  lemma KeptGrows<M>(before: seq<M>, after: seq<M>, keep: M -> bool, limit: Option<int>)
    ensures |Kept(before, keep, limit)| <= |Kept(before + after, keep, limit)|
    ensures Kept(before, keep, limit) == Kept(before + after, keep, limit)[..|Kept(before, keep, limit)|]
  {
    SelectAppend(before, after, keep);
    TakeLimitPrefix(Select(before, keep), Select(after, keep), limit);
  }

  /** After the loop over a page ended (all of it seen, or the limit reached),
      what was accepted is what the whole page allows. */
  lemma {:induction false} PageDone<M>(before: seq<M>, msgs: seq<M>, j: nat, keep: M -> bool, limit: Option<int>)
    requires j <= |msgs|
    requires j == |msgs| || LimitReached(limit, |Kept(before + msgs[..j], keep, limit)|)
    ensures Kept(before + msgs[..j], keep, limit) == Kept(before + msgs, keep, limit)
  {
    if j < |msgs| {
      assert before + msgs == (before + msgs[..j]) + msgs[j..];
      SelectAppend(before + msgs[..j], msgs[j..], keep);
      TakeLimitStable(Select(before + msgs[..j], keep), Select(msgs[j..], keep), limit);
    } else {
      assert msgs[..j] == msgs;
    }
  }

  /** The j-th message of the page is accepted and its row refused: the rows
      delivered are those before it, and its fault is the delivery error. */
  lemma PageRefused<M, E>(before: seq<M>, msgs: seq<M>, j: nat, keep: M -> bool, limit: Option<int>,
                          rowOf: M -> Row, fail: Row -> Option<E>)
    requires j < |msgs| && keep(msgs[j]) && !LimitReached(limit, |Kept(before + msgs[..j], keep, limit)|)
    requires Deliverable(fail, MapSeq(Kept(before + msgs[..j], keep, limit), rowOf)) == |Kept(before + msgs[..j], keep, limit)|
    requires fail(rowOf(msgs[j])).Some?
    ensures var rows := MapSeq(Kept(before + msgs, keep, limit), rowOf);
      MapSeq(Kept(before + msgs[..j], keep, limit), rowOf) == rows[..Deliverable(fail, rows)]
      && DeliveryError(fail, rows) == fail(rowOf(msgs[j]))
  {
    Around(before, msgs, j);
    KeptNext(before + msgs[..j], msgs[j], msgs[j + 1..], keep, limit);
    FirstRefused(fail, Kept(before + msgs[..j], keep, limit), msgs[j], Kept(before + msgs, keep, limit), rowOf);
  }

  /** One page in reverse mode: `for m in msgs: if limit and count >= limit:
      break; <filters>; collected.append(row); count += 1`. */
  method CollectPage<M>(limit: Option<int>, keep: M -> bool, rowOf: M -> Row,
                        ghost before: seq<M>, msgs: seq<M>, collected0: seq<Row>, count0: nat)
    returns (collected: seq<Row>, count: nat)
    requires count0 == |Kept(before, keep, limit)|
    requires collected0 == MapSeq(Kept(before, keep, limit), rowOf)
    ensures count == |Kept(before + msgs, keep, limit)|
    ensures collected == MapSeq(Kept(before + msgs, keep, limit), rowOf)
  {
    collected, count := collected0, count0;
    assert before + msgs[..0] == before;
    var j := 0;
    while j < |msgs| && !LimitReached(limit, count)
      invariant 0 <= j <= |msgs|
      invariant count == |Kept(before + msgs[..j], keep, limit)|
      invariant collected == MapSeq(Kept(before + msgs[..j], keep, limit), rowOf)
    {
      var m := msgs[j];
      ghost var seen := before + msgs[..j];
      ghost var acc := Kept(seen, keep, limit);
      Around(before, msgs, j);
      assert before + msgs[..j + 1] == seen + [m];
      SelectSnoc(seen, m, keep);
      if keep(m) {
        TakeLimitSnoc(Select(seen, keep), m, limit);
        assert Kept(seen + [m], keep, limit) == acc + [m];
        MapSeqSnoc(acc, m, rowOf);
        collected := collected + [rowOf(m)];
        count := count + 1;
      } else {
        assert Kept(seen + [m], keep, limit) == acc;
      }
      j := j + 1;
    }
    PageDone(before, msgs, j, keep, limit);
  }

  /** Below the limit, one more message is kept exactly when it passes. */
  lemma KeptSnoc<M>(seen: seq<M>, m: M, keep: M -> bool, limit: Option<int>)
    requires !LimitReached(limit, |Kept(seen, keep, limit)|)
    ensures keep(m) ==> Kept(seen + [m], keep, limit) == Kept(seen, keep, limit) + [m]
    ensures !keep(m) ==> Kept(seen + [m], keep, limit) == Kept(seen, keep, limit)
  {
    SelectSnoc(seen, m, keep);
    if keep(m) {
      TakeLimitSnoc(Select(seen, keep), m, limit);
    }
  }

  /** The loop body for one message below the limit: filter it, and write the
      row of an accepted one. */
  method Offer<M>(limit: Option<int>, keep: M -> bool, rowOf: M -> Row, dest: Dest,
                  ghost seen: seq<M>, m: M, out: OutputFile, ghost base: seq<Entry>,
                  written0: seq<Row>, count0: nat)
    returns (written: seq<Row>, count: nat, err: Option<WriteFault>)
    requires !LimitReached(limit, count0)
    requires count0 == |Kept(seen, keep, limit)|
    requires written0 == MapSeq(Kept(seen, keep, limit), rowOf)
    requires Deliverable(Fails(dest), written0) == |written0|
    requires out.entries == base + Entries(dest, written0)
    modifies out
    ensures out.entries == base + Entries(dest, written)
    ensures err.None? ==>
      count == |Kept(seen + [m], keep, limit)|
      && written == MapSeq(Kept(seen + [m], keep, limit), rowOf)
      && Deliverable(Fails(dest), written) == |written|
    ensures err.Some? ==> keep(m) && written == written0 && err == Fails(dest)(rowOf(m))
  {
    written, count := written0, count0;
    KeptSnoc(seen, m, keep, limit);
    if keep(m) {
      var row := rowOf(m);
      ghost var before := out.entries;
      err := out.Emit(dest, row);
      EmitStep(dest, base, written, row, before, out.entries, err);
      if err.None? {
        RowAccepted(seen, m, keep, limit, rowOf, Fails(dest));
        written := written + [row];
        count := count + 1;
      }
    } else {
      err := None;
    }
  }

  /** An accepted message whose row the destination takes extends every
      part of the loop state by that row. */
  lemma RowAccepted<M, E>(seen: seq<M>, m: M, keep: M -> bool, limit: Option<int>, rowOf: M -> Row,
                          fail: Row -> Option<E>)
    requires keep(m) && Kept(seen + [m], keep, limit) == Kept(seen, keep, limit) + [m]
    requires Deliverable(fail, MapSeq(Kept(seen, keep, limit), rowOf)) == |Kept(seen, keep, limit)|
    requires fail(rowOf(m)).None?
    ensures var written := MapSeq(Kept(seen, keep, limit), rowOf);
      && MapSeq(Kept(seen + [m], keep, limit), rowOf) == written + [rowOf(m)]
      && Deliverable(fail, written + [rowOf(m)]) == |written| + 1
  {
    var written := MapSeq(Kept(seen, keep, limit), rowOf);
    MapSeqSnoc(Kept(seen, keep, limit), m, rowOf);
    DeliverableSnoc(fail, written, rowOf(m));
  }

  /** One page written as it is read: `for m in msgs: if limit and count >=
      limit: break; <filters>; <write row>; count += 1`. A refused row ends the
      export, with the rows before it written. */
  method EmitPage<M>(limit: Option<int>, keep: M -> bool, rowOf: M -> Row, dest: Dest,
                     ghost before: seq<M>, msgs: seq<M>, out: OutputFile, ghost base: seq<Entry>,
                     written0: seq<Row>, count0: nat)
    returns (written: seq<Row>, count: nat, err: Option<WriteFault>)
    requires count0 == |Kept(before, keep, limit)|
    requires written0 == MapSeq(Kept(before, keep, limit), rowOf)
    requires Deliverable(Fails(dest), written0) == |written0|
    requires out.entries == base + Entries(dest, written0)
    modifies out
    ensures out.entries == base + Entries(dest, written)
    ensures err.None? ==>
      count == |Kept(before + msgs, keep, limit)|
      && written == MapSeq(Kept(before + msgs, keep, limit), rowOf)
      && Deliverable(Fails(dest), written) == |written|
    ensures err.Some? ==>
      var rows := MapSeq(Kept(before + msgs, keep, limit), rowOf);
      written == rows[..Deliverable(Fails(dest), rows)] && err == DeliveryError(Fails(dest), rows)
  {
    written, count := written0, count0;
    assert before + msgs[..0] == before;
    hide Kept;
    hide MapSeq;
    hide Deliverable;
    hide Entries;
    hide DeliveryError;
    var j := 0;
    while j < |msgs| && !LimitReached(limit, count)
      invariant 0 <= j <= |msgs|
      invariant count == |Kept(before + msgs[..j], keep, limit)|
      invariant written == MapSeq(Kept(before + msgs[..j], keep, limit), rowOf)
      invariant Deliverable(Fails(dest), written) == |written|
      invariant out.entries == base + Entries(dest, written)
    {
      Around(before, msgs, j);
      var e;
      written, count, e := Offer(limit, keep, rowOf, dest, before + msgs[..j], msgs[j], out, base, written, count);
      if e.Some? {
        PageRefused(before, msgs, j, keep, limit, rowOf, Fails(dest));
        return written, count, e;
      }
      j := j + 1;
    }
    PageDone(before, msgs, j, keep, limit);
    err := None;
  }

  /** Hands the rows to the destination in order, stopping at the first one
      it refuses. */
  method DeliverAll(dest: Dest, rows: seq<Row>, out: OutputFile) returns (written: seq<Row>, err: Option<WriteFault>)
    modifies out
    ensures written == rows[..Deliverable(Fails(dest), rows)] && err == DeliveryError(Fails(dest), rows)
    ensures out.entries == old(out.entries) + Entries(dest, written)
  {
    written := [];
    var n := 0;
    while n < |rows|
      invariant 0 <= n <= |rows|
      invariant written == rows[..n]
      invariant forall i :: 0 <= i < n ==> Fails(dest)(rows[i]).None?
      invariant out.entries == old(out.entries) + Entries(dest, written)
    {
      var e := out.Emit(dest, rows[n]);
      if e.Some? {
        DeliverableAt(Fails(dest), rows, n);
        return written, e;
      }
      EntriesSnoc(dest, written, rows[n]);
      assert rows[..n + 1] == written + [rows[n]];
      written := written + [rows[n]];
      n := n + 1;
    }
    DeliverableAt(Fails(dest), rows, n);
    assert rows[..n] == rows;
    err := None;
  }
}
