/** Where an export puts its rows: either a pluggable sink, or an output file
    opened for append, holding one JSON object per line or CSV records under a
    header that is written only when the file is empty. */
module FileSink {
  import opened Common
  import opened Rows
  import opened Stream

  /** One line of an output file. */
  datatype Entry = Header(fields: seq<Field>) | JsonRecord(row: Row) | CsvRecord(cols: Columns, row: Row)

  /** A sink answers Some(e) when it raises e. A file destination carries the
      format ("jsonl", anything else is CSV) and the CSV header. */
  datatype Dest = ToSink(accept: Row -> Option<string>) | ToFile(fmt: string, cols: Columns)

  /** The keys of `row` that are not columns of the header: only the optional
      keys can be. `csv.DictWriter` collects them as a set, so the order of
      two of them in its message is not fixed; here they follow the row. */
  function ExtraKeys(row: Row, cols: Columns): (ks: seq<Field>)
    ensures ks == [] <==> (row.ts.Some? ==> cols.ts) && (row.mediaPath.Some? ==> cols.mediaPath)
  {
    (if row.ts.Some? && !cols.ts then [Ts] else [])
    + (if row.mediaPath.Some? && !cols.mediaPath then [MediaPath] else [])
  }

  /** The test `csv.DictWriter` applies to each key of a row. */
  function Unlisted(cols: Columns): Field -> bool {
    (k: Field) => k !in ColumnList(cols)
  }

  lemma BaseKeysListed(cols: Columns)
    ensures Select(BaseKeys, Unlisted(cols)) == []
  {
    var fs := ColumnList(cols);
    assert fs == [Id] + (if cols.ts then [Ts] else []) + BaseKeys + (if cols.mediaPath then [MediaPath] else []);
    forall i | 0 <= i < |BaseKeys|
      ensures !Unlisted(cols)(BaseKeys[i])
    {
      assert BaseKeys[i] == fs[i + |fs| - |BaseKeys| - (if cols.mediaPath then 1 else 0)];
    }
    SelectNone(BaseKeys, Unlisted(cols));
  }

  /** ExtraKeys is the check `csv.DictWriter` makes: exactly the row's keys
      that are not field names (listed in the row's order). */
  lemma ExtraKeysAreUnlisted(row: Row, cols: Columns)
    ensures ExtraKeys(row, cols) == Select(Keys(row), Unlisted(cols))
  {
    var unlisted := Unlisted(cols);
    var ts := if row.ts.Some? then [Ts] else [];
    var path := if row.mediaPath.Some? then [MediaPath] else [];
    assert Keys(row) == [Id] + ts + BaseKeys + path;
    SelectAppend([Id] + ts + BaseKeys, path, unlisted);
    SelectAppend([Id] + ts, BaseKeys, unlisted);
    SelectAppend([Id], ts, unlisted);
    SelectNone([Id], unlisted);
    BaseKeysListed(cols);
    var sTs := Select(ts, unlisted);
    var sPath := Select(path, unlisted);
    assert sTs == if row.ts.Some? && !cols.ts then [Ts] else [];
    assert sPath == if row.mediaPath.Some? && !cols.mediaPath then [MediaPath] else [];
    assert Select([Id] + ts, unlisted) == [] + sTs == sTs;
    assert Select([Id] + ts + BaseKeys, unlisted) == sTs + [] == sTs;
    assert Select(Keys(row), unlisted) == sTs + sPath;
  }

  /** What a write raises: the sink's own exception, or the ValueError of
      `csv.DictWriter.writerow` naming the keys outside the header. */
  datatype WriteFault = SinkRaised(msg: string) | ExtraFields(keys: seq<Field>)

  function Quote(k: Field): string {
    "'" + FieldName(k) + "'"
  }

  const ExtraFieldsError := "dict contains fields not in fieldnames: "

  /** `str(e)` of the fault. */
  function FaultMessage(f: WriteFault): (s: string)
    ensures f.ExtraFields? ==> StartsWith(s, ExtraFieldsError)
  {
    match f
    case SinkRaised(msg) => msg
    case ExtraFields(keys) => ExtraFieldsError + Join(", ", MapSeq(keys, Quote))
  }

  /** What handing `row` to the destination raises, if anything: the sink's own
      exception, or `csv.DictWriter.writerow` refusing keys outside the header
      (before anything is written). JSON lines never fail. */
  function WriteError(dest: Dest, row: Row): (e: Option<WriteFault>)
    ensures dest.ToFile? && dest.fmt == "jsonl" ==> e.None?
    ensures dest.ToFile? && dest.fmt != "jsonl" ==> (e.None? <==> ExtraKeys(row, dest.cols) == [])
  {
    match dest
    case ToSink(accept) =>
      var raised := accept(row);
      if raised.Some? then Some(SinkRaised(raised.value)) else None
    case ToFile(fmt, cols) =>
      var extra := ExtraKeys(row, cols);
      if fmt == "jsonl" || extra == [] then None else Some(ExtraFields(extra))
  }

  /** The lines that writing these rows appends (none for a sink). */
  function Entries(dest: Dest, rows: seq<Row>): (es: seq<Entry>)
    ensures dest.ToSink? ==> es == []
    ensures dest.ToFile? ==> |es| == |rows|
    ensures forall i :: 0 <= i < |es| ==> !es[i].Header?
    decreases |rows|
  {
    match dest
    case ToSink(_) => []
    case ToFile(fmt, cols) =>
      if rows == [] then []
      else
        var last := rows[|rows| - 1];
        Entries(dest, rows[..|rows| - 1]) + [if fmt == "jsonl" then JsonRecord(last) else CsvRecord(cols, last)]
  }

  lemma EntriesSnoc(dest: Dest, rows: seq<Row>, row: Row)
    ensures Entries(dest, rows + [row]) == Entries(dest, rows) + Entries(dest, [row])
  {
    assert (rows + [row])[..|rows|] == rows;
    assert [row][..0] == [];
  }

  /** The header opening writes: only for CSV, and only into an empty file
      (`out_f.tell() == 0` right after opening for append). */
  function HeaderFor(dest: Dest, existing: seq<Entry>): (h: seq<Entry>)
    ensures h != [] <==> dest.ToFile? && dest.fmt != "jsonl" && existing == []
    ensures h != [] ==> h == [Header(ColumnList(dest.cols))]
  {
    if dest.ToFile? && dest.fmt != "jsonl" && existing == [] then [Header(ColumnList(dest.cols))] else []
  }

  /** The destination's answer to each row. */
  function Fails(dest: Dest): Row -> Option<WriteFault> {
    (r: Row) => WriteError(dest, r)
  }

  /** How many rows, from the front, are taken before one is refused. */
  function Deliverable<R, E>(fail: R -> Option<E>, rows: seq<R>): (n: nat)
    ensures n <= |rows|
    ensures forall i :: 0 <= i < n ==> fail(rows[i]).None?
    ensures n < |rows| ==> fail(rows[n]).Some?
    decreases |rows|
  {
    if rows == [] || fail(rows[0]).Some? then 0
    else 1 + Deliverable(fail, rows[1..])
  }

  /** Deliverable is the index of the first refused row. */
  lemma {:induction false} DeliverableAt<R, E>(fail: R -> Option<E>, rows: seq<R>, n: nat)
    requires n <= |rows|
    requires forall i :: 0 <= i < n ==> fail(rows[i]).None?
    requires n < |rows| ==> fail(rows[n]).Some?
    ensures Deliverable(fail, rows) == n
    decreases n
  {
    if n > 0 {
      DeliverableAt(fail, rows[1..], n - 1);
    }
  }

  /** The error that stops delivering these rows, if one does. */
  function DeliveryError<R, E>(fail: R -> Option<E>, rows: seq<R>): (e: Option<E>)
    ensures e.None? <==> Deliverable(fail, rows) == |rows|
  {
    var n := Deliverable(fail, rows);
    if n < |rows| then fail(rows[n]) else None
  }

  /** When the rows of the items before `m` were all taken and the row of `m`
      is refused, the rows taken from a longer stream that continues with `m`
      are exactly those, and the refusal is the one that stops delivery. */
  lemma {:induction false} FirstRefused<M, R, E>(fail: R -> Option<E>, acc: seq<M>, m: M, all: seq<M>, f: M -> R)
    requires |acc| < |all| && all[..|acc| + 1] == acc + [m]
    requires Deliverable(fail, MapSeq(acc, f)) == |acc| && fail(f(m)).Some?
    ensures var rows := MapSeq(all, f);
      MapSeq(acc, f) == rows[..Deliverable(fail, rows)] && DeliveryError(fail, rows) == fail(f(m))
  {
    var rows := MapSeq(all, f);
    assert all[..|acc|] == all[..|acc| + 1][..|acc|] == acc;
    assert all[|acc|] == all[..|acc| + 1][|acc|] == m;
    MapSeqPrefix(all, |acc|, f);
    MapSeqAt(all, f, |acc|);
    DeliverableAt(fail, rows, |acc|);
  }

  /** The file after one `Emit`: the row's line follows the rows already
      written, unless the file refused it. */
  lemma EmitStep(dest: Dest, base: seq<Entry>, written: seq<Row>, row: Row,
                 before: seq<Entry>, after: seq<Entry>, err: Option<WriteFault>)
    requires before == base + Entries(dest, written)
    requires after == before + (if err.None? then Entries(dest, [row]) else [])
    ensures dest.ToSink? || err.None? ==> after == base + Entries(dest, written + [row])
    ensures err.Some? ==> after == base + Entries(dest, written)
  {
    EntriesSnoc(dest, written, row);
    if err.None? {
      assert base + Entries(dest, written) + Entries(dest, [row])
        == base + (Entries(dest, written) + Entries(dest, [row]));
    } else {
      assert after == before;
    }
  }

  lemma {:induction false} DeliverableSnoc<R, E>(fail: R -> Option<E>, rows: seq<R>, row: R)
    requires Deliverable(fail, rows) == |rows|
    ensures Deliverable(fail, rows + [row]) == |rows| + (if fail(row).None? then 1 else 0)
    decreases |rows|
  {
    if rows == [] {
      assert [row][1..] == [];
    } else {
      assert (rows + [row])[0] == rows[0];
      assert (rows + [row])[1..] == rows[1..] + [row];
      DeliverableSnoc(fail, rows[1..], row);
    }
  }

  /** A file written only by these exporters holds at most one header, and
      only as its first line. */
  predicate HeaderFirst(entries: seq<Entry>) {
    forall i :: 0 < i < |entries| ==> !entries[i].Header?
  }

  /** Appending a run's output keeps that shape, whatever rows the run wrote. */
  lemma RunKeepsHeaderFirst(existing: seq<Entry>, dest: Dest, rows: seq<Row>)
    requires HeaderFirst(existing)
    ensures HeaderFirst(existing + HeaderFor(dest, existing) + Entries(dest, rows))
  {
    var all := existing + HeaderFor(dest, existing) + Entries(dest, rows);
    forall i | 0 < i < |all|
      ensures !all[i].Header?
    {
      if i >= |existing| + |HeaderFor(dest, existing)| {
        assert all[i] == Entries(dest, rows)[i - |existing| - |HeaderFor(dest, existing)|];
      }
    }
  }

  /** The output file, opened for append: `entries` are its lines. */
  class OutputFile {
    var entries: seq<Entry>

    /** A file with these lines already in it (none for a new file). */
    constructor (existing: seq<Entry>)
      ensures entries == existing
    {
      entries := existing;
    }

    /** `open(out_path, "a")`, and for CSV `if out_f.tell() == 0: writeheader()`. */
    method Open(dest: Dest)
      modifies this
      ensures entries == old(entries) + HeaderFor(dest, old(entries))
    {
      if dest.ToFile? && dest.fmt != "jsonl" && entries == [] {
        entries := entries + [Header(ColumnList(dest.cols))];
      }
    }

    /** Hands one row to the destination: the sink, `out_f.write(json.dumps(row))`
        or `csv_writer.writerow(row)`. */
    method Emit(dest: Dest, row: Row) returns (err: Option<WriteFault>)
      modifies this
      ensures err == Fails(dest)(row)
      ensures entries == old(entries) + (if err.None? then Entries(dest, [row]) else [])
    {
      err := WriteError(dest, row);
      if err.None? && dest.ToFile? {
        assert [row][..0] == [];
        entries := entries + Entries(dest, [row]);
      }
    }
  }
}
