/** The resume checkpoint: `read_last_ts_jsonl` (Slack) and `read_last_id_jsonl`
    (Discord, Telegram) read an existing JSONL output backwards in 4096-byte
    blocks, split the bytes read into lines and return one field of the last
    non-blank line that parses. The three copies differ only in the field they
    return, so the field lookup is part of the decoder passed in. */
module Checkpoint {
  import opened Common

  type Byte = bv8

  const LF: Byte := 10
  const CR: Byte := 13
  const BlockSize: nat := 4096

  /** What `json.loads` followed by `(last or {}).get(field)` makes of one
      line: Malformed when parsing raises, else the field's value (None when
      the field is absent). */
  datatype LineParse<K> = Malformed | Parsed(key: Option<K>)

  /** The bytes `bytes.strip()` removes. */
  predicate IsSpaceByte(b: Byte) {
    b == 32 || b == 9 || b == 10 || b == 13 || b == 11 || b == 12
  }

  /** `not line.strip()`. */
  predicate IsBlank(line: seq<Byte>) {
    forall i :: 0 <= i < |line| ==> IsSpaceByte(line[i])
  }

  predicate NoBreak(s: seq<Byte>) {
    forall i :: 0 <= i < |s| ==> s[i] != LF && s[i] != CR
  }

  // ---------------------------------------------------------------------------
  // Line splitting

  /** `bytes.splitlines()`: lines end at "\n", "\r" or "\r\n"; the line
      breaks are dropped and a final break does not open an empty line. */
  function SplitLines(s: seq<Byte>): seq<seq<Byte>> {
    SplitFrom(s, [])
  }

  /** Splitting with `cur` already read into the current line. */
  function SplitFrom(s: seq<Byte>, cur: seq<Byte>): seq<seq<Byte>>
    decreases |s|
  {
    if s == [] then (if cur == [] then [] else [cur])
    else if s[0] == LF then [cur] + SplitFrom(s[1..], [])
    else if s[0] == CR then
      if |s| > 1 && s[1] == LF then [cur] + SplitFrom(s[2..], [])
      else [cur] + SplitFrom(s[1..], [])
    else SplitFrom(s[1..], cur + [s[0]])
  }

  /** Bytes without line breaks only extend the current line. */
  lemma {:induction false} SplitNoBreak(s: seq<Byte>, rest: seq<Byte>, cur: seq<Byte>)
    requires NoBreak(s)
    ensures SplitFrom(s + rest, cur) == SplitFrom(rest, cur + s)
    decreases |s|
  {
    if s != [] {
      assert (s + rest)[0] == s[0];
      assert (s + rest)[1..] == s[1..] + rest;
      SplitNoBreak(s[1..], rest, cur + [s[0]]);
      assert cur + [s[0]] + s[1..] == cur + s;
    } else {
      assert s + rest == rest;
      assert cur + s == cur;
    }
  }

  /** Splitting distributes over a cut made just after a "\n". */
  lemma {:induction false} SplitAfterLF(p: seq<Byte>, q: seq<Byte>, cur: seq<Byte>)
    requires p != [] && p[|p| - 1] == LF
    ensures SplitFrom(p + q, cur) == SplitFrom(p, cur) + SplitFrom(q, [])
    decreases |p|
  {
    var s := p + q;
    assert s[0] == p[0];
    if p[0] == LF {
      if |p| == 1 {
        assert s[1..] == q;
      } else {
        assert s[1..] == p[1..] + q;
        SplitAfterLF(p[1..], q, []);
      }
    } else if p[0] == CR {
      assert |p| > 1;
      assert s[1] == p[1];
      if p[1] == LF {
        if |p| == 2 {
          assert s[2..] == q;
        } else {
          assert s[2..] == p[2..] + q;
          SplitAfterLF(p[2..], q, []);
        }
      } else {
        assert s[1..] == p[1..] + q;
        SplitAfterLF(p[1..], q, []);
      }
    } else {
      assert |p| > 1;
      assert s[1..] == p[1..] + q;
      SplitAfterLF(p[1..], q, cur + [p[0]]);
    }
  }

  lemma SplitLinesAfterLF(p: seq<Byte>, q: seq<Byte>)
    requires p == [] || p[|p| - 1] == LF
    ensures SplitLines(p + q) == SplitLines(p) + SplitLines(q)
  {
    if p == [] {
      assert p + q == q;
    } else {
      SplitAfterLF(p, q, []);
    }
  }

  // ---------------------------------------------------------------------------
  // Choosing the line

  /** Index of the last non-blank line that parses, or -1: the line the
      backward `for line in reversed(lines)` loop stops at. */
  function LastParsedIndex<K>(lines: seq<seq<Byte>>, decode: seq<Byte> -> LineParse<K>): (k: int)
    ensures -1 <= k < |lines|
    ensures k >= 0 ==> !IsBlank(lines[k]) && decode(lines[k]).Parsed?
    ensures forall j :: k < j < |lines| ==> IsBlank(lines[j]) || decode(lines[j]).Malformed?
  {
    if lines == [] then -1
    else
      var last := lines[|lines| - 1];
      if !IsBlank(last) && decode(last).Parsed? then |lines| - 1
      else LastParsedIndex(lines[..|lines| - 1], decode)
  }

  /** The field the scan returns for these lines. */
  function LastKey<K>(lines: seq<seq<Byte>>, decode: seq<Byte> -> LineParse<K>): Option<K> {
    var k := LastParsedIndex(lines, decode);
    if k < 0 then None else decode(lines[k]).key
  }

  /** Lines appended after the others take precedence when one of them parses. */
  lemma {:induction false} LastParsedIndexAppend<K>(a: seq<seq<Byte>>, b: seq<seq<Byte>>, decode: seq<Byte> -> LineParse<K>)
    ensures LastParsedIndex(a + b, decode) ==
      if LastParsedIndex(b, decode) >= 0 then |a| + LastParsedIndex(b, decode) else LastParsedIndex(a, decode)
    decreases |b|
  {
    if b == [] {
      assert a + b == a;
    } else {
      assert (a + b)[..|a + b| - 1] == a + b[..|b| - 1];
      LastParsedIndexAppend(a, b[..|b| - 1], decode);
    }
  }

  /** The backward search over the lines (the `for line in reversed(lines)`
      loop), shared by both scans. */
  method SearchBackward<K>(lines: seq<seq<Byte>>, decode: seq<Byte> -> LineParse<K>)
    returns (found: bool, key: Option<K>)
    ensures found <==> LastParsedIndex(lines, decode) >= 0
    ensures key == LastKey(lines, decode)
  {
    var i := |lines|;
    while i > 0
      invariant 0 <= i <= |lines|
      invariant LastParsedIndex(lines, decode) == LastParsedIndex(lines[..i], decode)
    {
      var line := lines[i - 1];
      if !IsBlank(line) {
        match decode(line)
        case Parsed(k) =>
          assert lines[..i][..i - 1] == lines[..i - 1];
          return true, k;
        case Malformed =>
      }
      assert lines[..i][..i - 1] == lines[..i - 1];
      i := i - 1;
    }
    return false, None;
  }

  // ---------------------------------------------------------------------------
  // The scan as written

  /** Where the block loop leaves its window when it has read back to `size`
      (so far `data == file[size..]` without a "\n"): it steps back a block at a
      time and stops at the first block boundary whose window holds a "\n". */
  function WindowFrom(file: seq<Byte>, size: nat): (w: nat)
    requires size <= |file|
    ensures w <= size
    decreases size
  {
    if size == 0 then 0
    else
      var seek := if size > BlockSize then size - BlockSize else 0;
      if LF in file[seek..] then seek else WindowFrom(file, seek)
  }

  /** The window the scan splits: it ends at a "\n" or reaches the start of the
      file, it starts at a block boundary counted from the end, and the window
      one block shorter had no "\n". */
  lemma {:induction false} WindowShape(file: seq<Byte>, size: nat)
    requires size <= |file| && (|file| - size) % BlockSize == 0 && LF !in file[size..]
    ensures var w := WindowFrom(file, size);
      w <= size && (w == 0 || LF in file[w..]) && (w == 0 || (|file| - w) % BlockSize == 0)
      && LF !in file[if w + BlockSize < |file| then w + BlockSize else |file|..]
    decreases size
  {
    if size > 0 {
      var seek := if size > BlockSize then size - BlockSize else 0;
      if seek > 0 && LF !in file[seek..] {
        WindowShape(file, seek);
      } else if seek > 0 {
        assert seek + BlockSize == size;
      } else {
        assert file[if BlockSize < |file| then BlockSize else |file|..] == file[size..][(if BlockSize < |file| then BlockSize else |file|) - size..];
      }
    }
  }

  /** What `read_last_*_jsonl` returns for an existing non-empty file. */
  function LastKeyAsWritten<K>(file: seq<Byte>, decode: seq<Byte> -> LineParse<K>): Option<K> {
    LastKey(SplitLines(file[WindowFrom(file, |file|)..]), decode)
  }

  /** `read_last_ts_jsonl` / `read_last_id_jsonl`. `present` is
      `os.path.exists(path)`; `file` holds the file's bytes. */
  method ReadLastKey<K>(present: bool, file: array<Byte>, decode: seq<Byte> -> LineParse<K>)
    returns (key: Option<K>)
    ensures !present || file.Length == 0 ==> key == None
    ensures present && file.Length > 0 ==> key == LastKeyAsWritten(file[..], decode)
  {
    if !present || file.Length == 0 {
      return None;
    }
    ghost var w := WindowFrom(file[..], file.Length);
    var size := file.Length;
    var data: seq<Byte> := [];
    // `while size > 0: ... if b"\n" in data: break`, with the break folded into the guard
    while size > 0 && LF !in data
      invariant 0 <= size <= file.Length
      invariant data == file[size..]
      invariant LF in data ==> size == w
      invariant LF !in data ==> WindowFrom(file[..], size) == w
      decreases size
    {
      var seek := if size > BlockSize then size - BlockSize else 0;
      var chunk := file[seek..size];
      data := chunk + data;
      size := seek;
    }
    assert data == file[w..];
    var lines := SplitLines(data);
    var found;
    found, key := SearchBackward(lines, decode);
  }

  /** The scan as written loses a final record longer than 4095 bytes: the file
      always ends in "\n", so the first block already holds a "\n" and the
      window keeps only the record's last 4095 bytes. The answer then depends
      on that fragment alone, never on the whole record. */
  lemma LongLastRecordLost<K>(prefix: seq<Byte>, rec: seq<Byte>, decode: seq<Byte> -> LineParse<K>)
    requires |rec| >= BlockSize && NoBreak(rec)
    ensures LastKeyAsWritten(prefix + rec + [LF], decode) == LastKey([rec[|rec| - (BlockSize - 1)..]], decode)
  {
    var file := prefix + rec + [LF];
    var n := |file|;
    var tail := rec[|rec| - (BlockSize - 1)..];
    assert file[n - BlockSize..] == tail + [LF];
    assert LF in file[n - BlockSize..];
    assert WindowFrom(file, n) == n - BlockSize;
    assert NoBreak(tail);
    SplitNoBreak(tail, [LF], []);
    assert [] + tail == tail;
    assert SplitLines(tail + [LF]) == [tail];
  }

  /** A concrete decoder that accepts only lines opening a JSON object ('{')
      and returns the line's length as the field. */
  function ObjectDecoder(line: seq<Byte>): LineParse<nat> {
    if line != [] && line[0] == 0x7B then Parsed(Some(|line|)) else Malformed
  }

  /** A 4097-byte record `{aaa...a}` written as the file's only line. */
  function LongRecordFile(): seq<Byte> {
    seq(4097, i => if i == 0 then 0x7B else if i == 4096 then 0x7D else 0x61) + [LF]
  }

  /** The counterexample: the whole record parses and has key 4097, yet the
      scan as written finds nothing. */
  lemma LongRecordCounterexample()
    ensures LastCompleteKey(LongRecordFile(), ObjectDecoder) == Some(4097)
    ensures LastKeyAsWritten(LongRecordFile(), ObjectDecoder) == None
  {
    var rec: seq<Byte> := seq(4097, i => if i == 0 then 0x7B else if i == 4096 then 0x7D else 0x61);
    assert LongRecordFile() == [] + rec + [LF];
    LongLastRecordLost([], rec, ObjectDecoder);
    assert rec[2..][0] == 0x61;
    LastCompleteKeyOfRecord([], rec, ObjectDecoder);
    assert !IsBlank(rec) by { assert !IsSpaceByte(rec[0]); }
  }

  // ---------------------------------------------------------------------------
  // The scan as intended

  /** The key of the last complete non-blank line of the file that parses. */
  function LastCompleteKey<K>(file: seq<Byte>, decode: seq<Byte> -> LineParse<K>): Option<K> {
    LastKey(SplitLines(file), decode)
  }

  /** Appending one record line makes that record's field the checkpoint,
      whatever the file held before (as long as it ended in a line break). */
  lemma LastCompleteKeyOfRecord<K>(prefix: seq<Byte>, rec: seq<Byte>, decode: seq<Byte> -> LineParse<K>)
    requires prefix == [] || prefix[|prefix| - 1] == LF
    requires NoBreak(rec) && !IsBlank(rec) && decode(rec).Parsed?
    ensures LastCompleteKey(prefix + rec + [LF], decode) == decode(rec).key
  {
    SplitLinesAfterLF(prefix, rec + [LF]);
    assert prefix + rec + [LF] == prefix + (rec + [LF]);
    SplitNoBreak(rec, [LF], []);
    assert [] + rec == rec;
    assert SplitLines(rec + [LF]) == [rec];
    LastParsedIndexAppend(SplitLines(prefix), [rec], decode);
  }

  /** The scan as written is right whenever the last record is shorter than a
      block: the window then holds the whole record line, which starts after a
      line break or at the window's start. */
  lemma ShortLastRecordKept<K>(prefix: seq<Byte>, rec: seq<Byte>, decode: seq<Byte> -> LineParse<K>)
    requires prefix == [] || prefix[|prefix| - 1] == LF
    requires NoBreak(rec) && |rec| < BlockSize && !IsBlank(rec) && decode(rec).Parsed?
    ensures LastKeyAsWritten(prefix + rec + [LF], decode) == decode(rec).key
  {
    var file := prefix + rec + [LF];
    var n := |file|;
    var seek := if n > BlockSize then n - BlockSize else 0;
    assert file[n - 1] == LF;
    assert LF in file[seek..] by { assert file[seek..][n - 1 - seek] == LF; }
    assert WindowFrom(file, n) == seek;
    var head := prefix[seek..];
    assert file[seek..] == head + rec + [LF];
    assert head == [] || head[|head| - 1] == LF;
    LastCompleteKeyOfRecord(head, rec, decode);
  }

  /** Index of the first "\n" in file[from..to], or `to` when there is none. */
  method FirstLF(file: array<Byte>, from: nat, to: nat) returns (k: nat)
    requires from <= to <= file.Length
    ensures from <= k <= to
    ensures k < to ==> file[k] == LF
    ensures forall j :: from <= j < k ==> file[j] != LF
  {
    k := from;
    while k < to && file[k] != LF
      invariant from <= k <= to
      invariant forall j :: from <= j < k ==> file[j] != LF
    {
      k := k + 1;
    }
  }

  /** The same bounded backward block scan, searching only complete lines: a
      window's first line is skipped while it may be the tail of a longer line,
      and the scan moves back another block until a complete line parses or
      the start of the file is reached. */
  method ReadLastCompleteKey<K>(present: bool, file: array<Byte>, decode: seq<Byte> -> LineParse<K>)
    returns (key: Option<K>)
    ensures !present || file.Length == 0 ==> key == None
    ensures present && file.Length > 0 ==> key == LastCompleteKey(file[..], decode)
  {
    if !present || file.Length == 0 {
      return None;
    }
    var size := file.Length;
    var tail := file.Length;   // file[tail..] holds only complete lines, none of which parses
    assert SplitLines(file[tail..]) == [];
    hide LastParsedIndex;
    hide LastKey;
    hide SplitLines;
    hide LastCompleteKey;
    while size > 0
      invariant 0 <= size <= tail <= file.Length
      invariant tail == file.Length || tail == 0 || file[tail - 1] == LF
      invariant size == 0 ==> tail == 0
      invariant LastParsedIndex(SplitLines(file[tail..]), decode) == -1
      decreases size
    {
      size := if size > BlockSize then size - BlockSize else 0;
      var cut := 0;
      if size > 0 {
        cut := FirstLF(file, size, tail);
        if cut < tail {
          cut := cut + 1;
        }
      }
      if cut < tail {
        var lines := SplitLines(file[cut..tail]);
        var found;
        found, key := SearchBackward(lines, decode);
        WindowStep(file[..], cut, tail, decode);
        if found {
          WholeFileFromCut(file[..], cut, decode);
          return;
        }
        tail := cut;
      }
    }
    assert file[..] == file[0..];
    NothingParsed(file[..], decode);
    return None;
  }

  /** The checkpoint an exporter resumes from: the scan as written runs only
      when resuming is enabled (`--resume` with JSONL output) and the output
      file exists. */
  function ResumeFrom<K>(enabled: bool, present: bool, file: seq<Byte>, decode: seq<Byte> -> LineParse<K>): Option<K> {
    if enabled && present && |file| > 0 then LastKeyAsWritten(file, decode) else None
  }

  /** The resume step every exporter takes before its first request: no
      checkpoint unless resuming is enabled and the file exists, else the scan. */
  method ReadResume<K>(enabled: bool, present: bool, file: array<Byte>, decode: seq<Byte> -> LineParse<K>)
    returns (key: Option<K>)
    ensures !enabled || !present ==> key == None
    ensures key == ResumeFrom(enabled, present, file[..], decode)
  {
    key := None;
    if enabled && present {
      key := ReadLastKey(present, file, decode);
    }
  }

  /** No line of the file parses: there is no checkpoint. */
  lemma NothingParsed<K>(file: seq<Byte>, decode: seq<Byte> -> LineParse<K>)
    requires LastParsedIndex(SplitLines(file), decode) == -1
    ensures LastCompleteKey(file, decode) == None
  {
  }

  /** A window `file[cut..tail]` searched ahead of the already searched
      lines decides the search over everything from `cut` on. */
  lemma WindowStep<K>(file: seq<Byte>, cut: nat, tail: nat, decode: seq<Byte> -> LineParse<K>)
    requires cut < tail <= |file| && (tail == |file| || file[tail - 1] == LF)
    requires LastParsedIndex(SplitLines(file[tail..]), decode) == -1
    ensures LastParsedIndex(SplitLines(file[cut..tail]), decode) >= 0 ==>
      LastParsedIndex(SplitLines(file[cut..]), decode) >= 0 &&
      LastKey(SplitLines(file[cut..]), decode) == LastKey(SplitLines(file[cut..tail]), decode)
    ensures LastParsedIndex(SplitLines(file[cut..tail]), decode) < 0 ==>
      LastParsedIndex(SplitLines(file[cut..]), decode) == -1
  {
    var lines := SplitLines(file[cut..tail]);
    assert file[cut..] == file[cut..tail] + file[tail..];
    assert tail < |file| ==> file[cut..tail][tail - cut - 1] == LF;
    SplitLinesAppendTail(file[cut..tail], file[tail..]);
    LastParsedIndexAppend(lines, SplitLines(file[tail..]), decode);
  }

  /** Splitting a searched window ahead of the already searched lines. */
  lemma SplitLinesAppendTail(p: seq<Byte>, q: seq<Byte>)
    requires p != []
    requires q == [] || p[|p| - 1] == LF
    ensures SplitLines(p + q) == SplitLines(p) + SplitLines(q)
  {
    if q == [] {
      assert p + q == p;
    } else {
      SplitLinesAfterLF(p, q);
    }
  }

  /** A parseable line found after a cut at a line start is the file's answer. */
  lemma WholeFileFromCut<K>(file: seq<Byte>, cut: nat, decode: seq<Byte> -> LineParse<K>)
    requires cut <= |file| && (cut == 0 || file[cut - 1] == LF)
    requires LastParsedIndex(SplitLines(file[cut..]), decode) >= 0
    ensures LastCompleteKey(file, decode) == LastKey(SplitLines(file[cut..]), decode)
  {
    assert file == file[..cut] + file[cut..];
    SplitLinesAfterLF(file[..cut], file[cut..]);
    LastParsedIndexAppend(SplitLines(file[..cut]), SplitLines(file[cut..]), decode);
  }
}
