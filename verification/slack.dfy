/** The Slack exporter (`export_slack.py`): resolving the channel, turning a
    message into a row, the filter chain, and the cursor-paginated export loop
    that streams rows in fetch order or buffers and sorts them. */
module Slack {
  import opened Common
  import opened Rows
  import opened Stream
  import opened Checkpoint
  import opened Ordering
  import opened FileSink
  import opened Pipeline

  // ---------------------------------------------------------------------------
  // Messages and rows

  /** An entry of a message's `files` list; entries that are not objects are
      counted as media but contribute no type or name. */
  datatype SlackFile = FileInfo(filetype: Option<string>, mimetype: Option<string>, name: Option<string>) | NotAnObject

  /** The fields of a history message the exporter reads. `realName` is
      `user_profile.real_name` when `user_profile` is an object, `editedTs` is
      `edited.ts` when `edited` is an object. */
  datatype SlackMessage = SlackMessage(
    clientMsgId: Option<string>,
    ts: Option<string>,
    text: Option<string>,
    files: seq<SlackFile>,
    user: Option<string>,
    botId: Option<string>,
    username: Option<string>,
    realName: Option<string>,
    editedTs: Option<string>)

  function FileType(f: SlackFile): string {
    match f
    case FileInfo(filetype, mimetype, _) => if Truthy(filetype) then filetype.value else mimetype.GetOr("")
    case NotAnObject => ""
  }

  function FileName(f: SlackFile): string {
    if f.FileInfo? then f.name.GetOr("") else ""
  }

  function IsObject(f: SlackFile): bool {
    f.FileInfo?
  }

  /** `msg_to_row`. `tsIso` is `slack_ts_to_iso`, which formats a numeric ts
      as an ISO date and returns any other input unchanged. */
  function MsgToRow(m: SlackMessage, channelId: string, channelName: string, tsIso: string -> string): (r: Row)
    ensures r.media <==> m.files != []
    ensures r.mediaType == VNone <==> |Select(m.files, IsObject)| == 0 || (|Select(m.files, IsObject)| == 1 && FileType(Select(m.files, IsObject)[0]) == "")
    ensures r.mediaFileName == VNone <==> |Select(m.files, IsObject)| == 0 || (|Select(m.files, IsObject)| == 1 && FileName(Select(m.files, IsObject)[0]) == "")
    ensures Truthy(m.clientMsgId) ==> r.id == VStr(m.clientMsgId.value)
    ensures !Truthy(m.clientMsgId) ==> r.id == OptStr(m.ts)
    ensures Truthy(m.user) ==> r.senderId == VStr(m.user.value)
    ensures !Truthy(m.user) ==> r.senderId == OptStr(m.botId)
    ensures r.ts == Some(OptStr(m.ts)) && r.mediaPath.None?
  {
    var objects := Select(m.files, IsObject);
    Row(
      id := OptStr(OrElse(m.clientMsgId, m.ts)),
      ts := Some(OptStr(m.ts)),
      date := VStr(tsIso(m.ts.GetOr(""))),
      chatId := VStr(channelId),
      chatTitle := VStr(channelName),
      senderId := OptStr(OrElse(m.user, m.botId)),
      senderUsername := OptStr(m.username),
      senderDisplay := OptStr(m.realName),
      text := VStr(m.text.GetOr("")),
      replyToId := VNone,
      views := VNone,
      forwards := VNone,
      editDate := if m.editedTs.Some? then VStr(tsIso(m.editedTs.value)) else VNone,
      viaBotId := OptStr(m.botId),
      isPinned := false,
      media := m.files != [],
      mediaType := JoinOrNone(",", MapSeq(objects, FileType)),
      mediaFileName := JoinOrNone(";", MapSeq(objects, FileName)),
      mediaPath := None)
  }

  // ---------------------------------------------------------------------------
  // Channel

  /** One entry of the `conversations_list` listing. */
  datatype ChannelEntry = ChannelEntry(name: Option<string>, id: Option<string>)

  /** The name `get_channel_id` looks up: the trimmed input without one leading '#'. */
  function LookupName(input: string): string {
    var ch := Trim(input);
    if StartsWith(ch, "#") then ch[1..] else ch
  }

  predicate IsChannelId(input: string) {
    StartsWith(Trim(input), "C") || StartsWith(Trim(input), "G")
  }

  /** Index of the first entry with this name, or -1. */
  function FirstNamed(dir: seq<ChannelEntry>, name: string): (k: int)
    ensures -1 <= k < |dir|
    ensures k >= 0 ==> dir[k].name == Some(name)
    ensures forall j :: 0 <= j < |dir| && (k < 0 || j < k) ==> dir[j].name != Some(name)
    decreases |dir|
  {
    if dir == [] then -1
    else if dir[0].name == Some(name) then 0
    else
      var k := FirstNamed(dir[1..], name);
      if k < 0 then -1 else k + 1
  }

  /** `get_channel_id`: an input that looks like an id is used as it is, any
      other is looked up by name in the listing (`directory`, all pages of it);
      the first entry with that name decides. */
  function GetChannelId(input: string, directory: seq<ChannelEntry>): (r: Result<string, string>)
    ensures IsChannelId(input) ==> r == Ok(Trim(input))
    ensures !IsChannelId(input) && r.Ok? ==>
      (exists i :: 0 <= i < |directory| && directory[i].name == Some(LookupName(input)) && directory[i].id == Some(r.value))
    ensures r.Ok? ==> r.value != ""
    ensures r.Err? ==> r.error == "Channel not found: " + input
  {
    if IsChannelId(input) then Ok(Trim(input))
    else
      var k := FirstNamed(directory, LookupName(input));
      if k >= 0 && Truthy(directory[k].id) then Ok(directory[k].id.value)
      else Err("Channel not found: " + input)
  }

  // ---------------------------------------------------------------------------
  // Filters

  datatype SlackFilter = SlackFilter(onlyMedia: bool, onlyText: bool, users: seq<string>, keywords: seq<string>)

  /** `only_media` drops file-less messages, `only_text` those with files. */
  predicate MediaOk(f: SlackFilter, m: SlackMessage) {
    !(f.onlyMedia && m.files == []) && !(f.onlyText && m.files != [])
  }

  /** With a user list, the user (else bot) id must be in it exactly, or the
      lower-cased username must equal a lower-cased entry. */
  predicate UserOk(f: SlackFilter, m: SlackMessage) {
    f.users == []
    || OrElse(m.user, m.botId).GetOr("") in f.users
    || Lower(m.username.GetOr("")) in MapSeq(f.users, Lower)
  }

  /** With a keyword list, some lower-cased keyword must occur in the
      lower-cased text. */
  predicate KeywordOk(f: SlackFilter, m: SlackMessage) {
    f.keywords == []
    || exists i :: 0 <= i < |f.keywords| && Contains(Lower(m.text.GetOr("")), Lower(f.keywords[i]))
  }

  predicate Accepts(f: SlackFilter, m: SlackMessage) {
    MediaOk(f, m) && UserOk(f, m) && KeywordOk(f, m)
  }

  function Keep(f: SlackFilter): SlackMessage -> bool {
    m => Accepts(f, m)
  }

  // ---------------------------------------------------------------------------
  // The export

  /** One answer of `conversations_history`: a page, or the SlackApiError. */
  datatype SlackPage = Page(messages: seq<SlackMessage>, nextCursor: Option<string>) | ApiError(error: string)

  /** The arguments of one `conversations_history` call. */
  datatype HistoryRequest = HistoryRequest(cursor: Option<string>, oldest: Option<int>, latest: Option<int>)

  /** The workspace as the exporter sees it. `pages` answers the history calls
      in order (a call past its end gets an empty page); `tsMicros` is
      `float(ts)` in microseconds; `download` is `download_files`. */
  datatype SlackApi = SlackApi(
    directory: seq<ChannelEntry>,
    infoName: Option<string>,
    pages: seq<SlackPage>,
    tsIso: string -> string,
    tsMicros: string -> Option<int>,
    download: SlackMessage -> seq<string>)

  /** The arguments of `export_slack_messages`; the date bounds are the
      instants of 00:00 UTC of `min_date` and `max_date`, in microseconds. */
  datatype SlackOptions = SlackOptions(
    fmt: string,
    reverse: bool,
    resume: bool,
    limit: Option<int>,
    mediaDir: Option<string>,
    minDate: Option<int>,
    maxDate: Option<int>,
    filter: SlackFilter,
    outPath: string)

  /** `float(v)` in microseconds. */
  function FloatOf(v: Value, tsMicros: string -> Option<int>): Option<int> {
    match v
    case VStr(s) => tsMicros(s)
    case VInt(i) => Some(i * 1000000)
    case VBool(b) => Some(if b then 1000000 else 0)
    case VNone => None
  }

  /** The checkpoint a resumed JSONL export reads: the `ts` of the file's last
      record as the scan of `read_last_ts_jsonl` finds it (Checkpoint.LastKeyAsWritten). */
  function ResumeKey(opts: SlackOptions, present: bool, file: seq<Byte>, decode: seq<Byte> -> LineParse<Value>): Option<Value> {
    ResumeFrom(opts.resume && opts.fmt == "jsonl", present, file, decode)
  }

  /** `on_progress(f"Resuming after ts {last_ts}")` for a truthy checkpoint. */
  function ResumeLog(lastTs: Option<Value>): seq<string> {
    if lastTs.Some? && TruthyValue(lastTs.value) then ["Resuming after ts " + Show(lastTs.value)] else []
  }

  /** The lower bound after resuming: at least the saved ts when it converts. */
  function ResumeOldest(oldest: Option<int>, lastTs: Option<Value>, tsMicros: string -> Option<int>): (r: Option<int>)
    ensures lastTs.Some? && TruthyValue(lastTs.value) && FloatOf(lastTs.value, tsMicros).Some? ==>
      r.Some? && r.value >= FloatOf(lastTs.value, tsMicros).value && r.value >= oldest.GetOr(0)
      && (r.value == FloatOf(lastTs.value, tsMicros).value || r.value == oldest.GetOr(0))
    ensures !(lastTs.Some? && TruthyValue(lastTs.value) && FloatOf(lastTs.value, tsMicros).Some?) ==> r == oldest
  {
    if lastTs.Some? && TruthyValue(lastTs.value) then
      match FloatOf(lastTs.value, tsMicros)
      case Some(v) => Some(if oldest.GetOr(0) >= v then oldest.GetOr(0) else v)
      case None => oldest
    else oldest
  }

  /** `str(x) if x else None`. */
  function NonZero(x: Option<int>): Option<int> {
    if x.Some? && x.value != 0 then x else None
  }

  /** Where the rows go: the sink when one is given, else the output file. */
  function DestOf(opts: SlackOptions, sink: Option<Row -> Option<string>>): Dest {
    if sink.Some? then ToSink(sink.value) else ToFile(opts.fmt, SlackColumns)
  }

  /** The CSV header of the Slack exporter: every key, `ts` and `media_path`
      included. */
  const SlackColumns := Columns(true, true)

  /** Without a sink nothing is ever refused: every Slack row fits the header. */
  lemma FileTakesAll(opts: SlackOptions, rows: seq<Row>)
    ensures DeliveryError(Fails(DestOf(opts, None)), rows).None?
  {
    DeliverableAt(Fails(DestOf(opts, None)), rows, |rows|);
  }

  /** What the row of an accepted message depends on besides the message:
      files are downloaded only with a media directory and no sink. */
  datatype RowContext = RowContext(
    channelId: string, channelName: string, tsIso: string -> string,
    download: Option<SlackMessage -> seq<string>>)

  function ContextOf(opts: SlackOptions, api: SlackApi, sink: Option<Row -> Option<string>>, channelId: string, channelInput: string): RowContext {
    RowContext(channelId, OrElse(api.infoName, Some(LStrip(channelInput, '#'))).value, api.tsIso,
      if Truthy(opts.mediaDir) && sink.None? then Some(api.download) else None)
  }

  /** The row written for an accepted message, with `media_path` when its
      files were downloaded. */
  function ExportRow(ctx: RowContext, m: SlackMessage): (r: Row)
    ensures r.ts.Some?
  {
    var row := MsgToRow(m, ctx.channelId, ctx.channelName, ctx.tsIso);
    if ctx.download.Some? && m.files != [] then
      var paths := ctx.download.value(m);
      row.(mediaPath := Some(if paths != [] then VStr(Join(";", paths)) else VNone))
    else row
  }

  function RowFn(ctx: RowContext): SlackMessage -> Row {
    m => ExportRow(ctx, m)
  }

  /** The history answer to the i-th call. */
  function PageAt(pages: seq<SlackPage>, i: nat): SlackPage {
    if i < |pages| then pages[i] else Page([], None)
  }

  function CursorOf(p: SlackPage): Option<string> {
    if p.Page? then p.nextCursor else None
  }

  function MessagesOf(p: SlackPage): seq<SlackMessage> {
    if p.Page? then p.messages else []
  }

  /** All messages of the first k answers, in fetch order. */
  function Fetched(pages: seq<SlackPage>, k: nat): seq<SlackMessage> {
    if k == 0 then [] else Fetched(pages, k - 1) + MessagesOf(PageAt(pages, k - 1))
  }

  /** One run of the pagination loop: the limit and mode it reads, the filter
      chain, the row builder, the destination, and the history answers. */
  datatype Run = Run(
    limit: Option<int>, reverse: bool, keep: SlackMessage -> bool, rowOf: SlackMessage -> Row,
    dest: Dest, pages: seq<SlackPage>)

  function RunOf(opts: SlackOptions, ctx: RowContext, dest: Dest, pages: seq<SlackPage>): Run {
    Run(opts.limit, opts.reverse, Keep(opts.filter), RowFn(ctx), dest, pages)
  }

  /** The messages accepted from the first k answers: the filtered ones, cut at the limit. */
  function Accepted(run: Run, k: nat): seq<SlackMessage> {
    Kept(Fetched(run.pages, k), run.keep, run.limit)
  }

  /** Their rows, in order. */
  function RowsUpTo(run: Run, k: nat): seq<Row> {
    MapSeq(Accepted(run, k), run.rowOf)
  }

  /** After the i-th answer the loop asks for another page: the answer was a
      non-empty page with a next cursor, and the limit is not reached. */
  predicate Continues(run: Run, i: nat) {
    var p := PageAt(run.pages, i);
    p.Page? && p.messages != [] && Truthy(p.nextCursor)
    && !LimitReached(run.limit, |Accepted(run, i + 1)|)
  }

  /** The export goes on after the i-th answer: the loop continues and, when
      rows are written as they come, the destination took all of them. */
  predicate GoesOn(run: Run, i: nat) {
    Continues(run, i) && (run.reverse || DeliveryError(Fails(run.dest), RowsUpTo(run, i + 1)).None?)
  }

  /** The i-th history call: the previous page's cursor, the same bounds. */
  function RequestAt(pages: seq<SlackPage>, oldest: Option<int>, latest: Option<int>, i: nat): HistoryRequest {
    HistoryRequest(if i == 0 then None else CursorOf(PageAt(pages, i - 1)), NonZero(oldest), NonZero(latest))
  }

  /** The first k history calls. */
  function Requests(pages: seq<SlackPage>, oldest: Option<int>, latest: Option<int>, k: nat): (rs: seq<HistoryRequest>)
    ensures |rs| == k
  {
    if k == 0 then [] else Requests(pages, oldest, latest, k - 1) + [RequestAt(pages, oldest, latest, k - 1)]
  }

  lemma {:induction false} RequestsAt(pages: seq<SlackPage>, oldest: Option<int>, latest: Option<int>, k: nat)
    ensures forall i :: 0 <= i < k ==> Requests(pages, oldest, latest, k)[i] == RequestAt(pages, oldest, latest, i)
  {
    if k > 0 {
      RequestsAt(pages, oldest, latest, k - 1);
    }
  }

  /** How a loop that stopped after k answers ended: the API error of the
      last answer, or the first row the destination refused. */
  function EndOf(run: Run, k: nat): Option<Failure>
    requires k >= 1
  {
    var p := PageAt(run.pages, k - 1);
    if p.ApiError? then Some(Raised("Slack API error: " + p.error))
    else if run.reverse then None
    else
      var e := DeliveryError(Fails(run.dest), RowsUpTo(run, k));
      if e.Some? then Some(Refused(e.value)) else None
  }

  /** The rows of the first n answers: all written and taken, or all buffered. */
  predicate InState(run: Run, n: nat, written: seq<Row>, collected: seq<Row>) {
    var rows := RowsUpTo(run, n);
    (!run.reverse ==> written == rows && collected == [] && Deliverable(Fails(run.dest), rows) == |rows|)
    && (run.reverse ==> written == [] && collected == rows)
  }

  /** The rows after the last answer: written up to the first refused one, or
      all buffered. */
  predicate Final(run: Run, k: nat, written: seq<Row>, collected: seq<Row>) {
    var rows := RowsUpTo(run, k);
    (!run.reverse ==> written == rows[..Deliverable(Fails(run.dest), rows)] && collected == [])
    && (run.reverse ==> written == [] && collected == rows)
  }

  /** One page of the history (the part of the body of `while True` after the
      call): an error or an empty page stops the loop; otherwise the page's
      messages go through the filters, and the loop goes on with the page's
      cursor unless the limit is reached or the cursor is missing. */
  method ReadPage(run: Run, n: nat, out: OutputFile, ghost base: seq<Entry>,
                  written0: seq<Row>, collected0: seq<Row>, count0: nat)
    returns (written: seq<Row>, collected: seq<Row>, count: nat, next: Option<string>, stop: bool, failure: Option<Failure>)
    requires count0 == |Accepted(run, n)|
    requires InState(run, n, written0, collected0)
    requires out.entries == base + Entries(run.dest, written0)
    modifies out
    ensures out.entries == base + Entries(run.dest, written)
    ensures stop <==> !GoesOn(run, n)
    ensures !stop ==>
      count == |Accepted(run, n + 1)| && InState(run, n + 1, written, collected)
      && next == CursorOf(PageAt(run.pages, n))
    ensures stop ==>
      failure == EndOf(run, n + 1) && Final(run, n + 1, written, collected)
      && (failure.None? ==> count == |Accepted(run, n + 1)|)
  {
    written, collected, count, next := written0, collected0, count0, None;
    var page := PageAt(run.pages, n);
    ghost var before := Fetched(run.pages, n);
    assert Fetched(run.pages, n + 1) == before + MessagesOf(page);
    if page.ApiError? {
      assert before + [] == before;
      return written, collected, count, next, true, Some(Raised("Slack API error: " + page.error));
    }
    var msgs := page.messages;
    if msgs == [] {
      assert before + msgs == before;
      return written, collected, count, next, true, None;
    }
    if run.reverse {
      collected, count := CollectPage(run.limit, run.keep, run.rowOf, before, msgs, collected, count);
    } else {
      var e;
      written, count, e := EmitPage(run.limit, run.keep, run.rowOf, run.dest, before, msgs, out, base, written, count);
      if e.Some? {
        return written, collected, count, next, true, Some(Refused(e.value));
      }
    }
    next := if Truthy(page.nextCursor) then page.nextCursor else None;
    stop := LimitReached(run.limit, count) || next.None?;
    failure := None;
  }

  /** The loop's state after n answers that all let it go on: the calls made,
      what was accepted, and the cursor of the next call. */
  predicate Running(run: Run, oldest: Option<int>, latest: Option<int>, n: nat,
                    requests: seq<HistoryRequest>, written: seq<Row>, collected: seq<Row>, count: nat,
                    cursor: Option<string>) {
    && n <= |run.pages|
    && requests == Requests(run.pages, oldest, latest, n)
    && (forall i :: 0 <= i < n ==> GoesOn(run, i))
    && count == |Accepted(run, n)| && InState(run, n, written, collected)
    && cursor == RequestAt(run.pages, oldest, latest, n).cursor
  }

  /** Before the first call nothing was accepted and the first cursor is None. */
  lemma RunningAtStart(run: Run, oldest: Option<int>, latest: Option<int>)
    ensures Running(run, oldest, latest, 0, [], [], [], 0, None)
  {
    assert Accepted(run, 0) == [];
  }

  /** The loop stopped after k answers: the calls made, why it stopped, and
      the rows written or buffered by then. */
  predicate Stopped(run: Run, oldest: Option<int>, latest: Option<int>, k: nat,
                    requests: seq<HistoryRequest>, written: seq<Row>, collected: seq<Row>, count: nat,
                    failure: Option<Failure>) {
    && 1 <= k <= |run.pages| + 1
    && requests == Requests(run.pages, oldest, latest, k)
    && (forall i :: 0 <= i < k - 1 ==> GoesOn(run, i))
    && !GoesOn(run, k - 1)
    && failure == EndOf(run, k)
    && Final(run, k, written, collected)
    && (failure.None? ==> count == |Accepted(run, k)|)
  }

  /** The body of `while True`: `conversations_history(channel=..., cursor=cursor,
      oldest=..., latest=..., limit=1000)`, then the page. */
  method FetchPage(run: Run, oldest: Option<int>, latest: Option<int>, n: nat, out: OutputFile, ghost base: seq<Entry>,
                   requests0: seq<HistoryRequest>, written0: seq<Row>, collected0: seq<Row>, count0: nat,
                   cursor0: Option<string>)
    returns (requests: seq<HistoryRequest>, written: seq<Row>, collected: seq<Row>, count: nat,
             cursor: Option<string>, stop: bool, failure: Option<Failure>)
    requires Running(run, oldest, latest, n, requests0, written0, collected0, count0, cursor0)
    requires out.entries == base + Entries(run.dest, written0)
    modifies out
    ensures out.entries == base + Entries(run.dest, written)
    ensures !stop ==> Running(run, oldest, latest, n + 1, requests, written, collected, count, cursor)
    ensures stop ==> Stopped(run, oldest, latest, n + 1, requests, written, collected, count, failure)
  {
    hide Accepted;
    hide RowsUpTo;
    hide EndOf;
    hide InState;
    hide Final;
    requests := requests0 + [HistoryRequest(cursor0, NonZero(oldest), NonZero(latest))];
    assert requests == Requests(run.pages, oldest, latest, n + 1);
    written, collected, count, cursor, stop, failure := ReadPage(run, n, out, base, written0, collected0, count0);
  }

  /** The pagination loop: `while True: res = conversations_history(...)`,
      until an empty page, the limit, a missing cursor, or an exception. */
  method Paginate(run: Run, oldest: Option<int>, latest: Option<int>, out: OutputFile)
    returns (k: nat, requests: seq<HistoryRequest>, written: seq<Row>, collected: seq<Row>, count: nat,
             failure: Option<Failure>)
    modifies out
    ensures Stopped(run, oldest, latest, k, requests, written, collected, count, failure)
    ensures out.entries == old(out.entries) + Entries(run.dest, written)
  {
    hide Accepted;
    hide RowsUpTo;
    hide EndOf;
    hide InState;
    hide Final;
    ghost var base := out.entries;
    k, requests, written, collected, count := 0, [], [], [], 0;
    var cursor: Option<string> := None;
    RunningAtStart(run, oldest, latest);
    assert Entries(run.dest, []) == [];
    while true
      invariant Running(run, oldest, latest, k, requests, written, collected, count, cursor)
      invariant out.entries == base + Entries(run.dest, written)
      decreases |run.pages| - k
    {
      var stop;
      requests, written, collected, count, cursor, stop, failure :=
        FetchPage(run, oldest, latest, k, out, base, requests, written, collected, count, cursor);
      k := k + 1;
      if stop {
        return;
      }
    }
  }

  /** The field the buffered rows are sorted by. */
  function TsField(r: Row): Option<string> {
    match r.ts
    case Some(VStr(s)) => Some(s)
    case _ => None
  }

  /** The outcome of writing rows whose delivery stopped at `err`, if anything stopped it. */
  function OutcomeOf(err: Option<WriteFault>, n: nat): Result<nat, Failure> {
    if err.Some? then Err(Refused(err.value)) else Ok(n)
  }

  /** What an export that got past the channel lookup did: the history calls
      it made until the loop stopped, and what it returned and wrote. With
      rows written as they come, the outcome is the API error, the first
      refused row, or the count; in reverse mode the rows are sorted first,
      and an unorderable buffer or a refused row ends the export. */
  predicate ExportedAs(run: Run, oldest: Option<int>, latest: Option<int>, tsMicros: string -> Option<int>,
                       outcome: Result<nat, Failure>, requests: seq<HistoryRequest>, written: seq<Row>) {
    var k := |requests|;
    && 1 <= k <= |run.pages| + 1
    && requests == Requests(run.pages, oldest, latest, k)
    && (forall i :: 0 <= i < k - 1 ==> GoesOn(run, i))
    && !GoesOn(run, k - 1)
    && var rows := RowsUpTo(run, k);
    && (EndOf(run, k).Some? ==>
          outcome == Err(EndOf(run, k).value)
          && written == (if run.reverse then [] else rows[..Deliverable(Fails(run.dest), rows)]))
    && (EndOf(run, k).None? && !run.reverse ==> outcome == Ok(|rows|) && written == rows)
    && (EndOf(run, k).None? && run.reverse ==>
          (match AscendingRows(rows, TsField, tsMicros)
           case None => outcome == Err(Unorderable) && written == []
           case Some(sorted) =>
             written == sorted[..Deliverable(Fails(run.dest), sorted)]
             && outcome == OutcomeOf(DeliveryError(Fails(run.dest), sorted), |rows|)))
  }

  /** Every accepted message was fetched and passes the filter chain, and a
      positive limit bounds how many there are. */
  lemma AcceptedPass(run: Run, k: nat)
    ensures forall m :: m in Accepted(run, k) ==> m in Fetched(run.pages, k) && run.keep(m)
    ensures run.limit.Some? && run.limit.value > 0 ==> |Accepted(run, k)| <= run.limit.value
  {
    KeptPass(Fetched(run.pages, k), run.keep, run.limit);
  }

  /** Rows are produced in fetch order: what was accepted from the first k
      answers comes first among what is accepted from k + 1. */
  lemma AcceptedGrows(run: Run, k: nat)
    ensures |Accepted(run, k)| <= |Accepted(run, k + 1)|
    ensures Accepted(run, k) == Accepted(run, k + 1)[..|Accepted(run, k)|]
  {
    assert Fetched(run.pages, k + 1) == Fetched(run.pages, k) + MessagesOf(PageAt(run.pages, k));
    KeptGrows(Fetched(run.pages, k), MessagesOf(PageAt(run.pages, k)), run.keep, run.limit);
  }

  /** A name is resolved exactly when its first entry in the listing carries
      a non-empty id. */
  lemma ChannelLookup(input: string, directory: seq<ChannelEntry>)
    requires !IsChannelId(input)
    ensures GetChannelId(input, directory).Ok? <==>
      exists k :: 0 <= k < |directory| && directory[k].name == Some(LookupName(input)) && Truthy(directory[k].id)
        && forall j :: 0 <= j < k ==> directory[j].name != Some(LookupName(input))
  {
    var name := LookupName(input);
    var first := FirstNamed(directory, name);
    assert GetChannelId(input, directory).Ok? <==> first >= 0 && Truthy(directory[first].id);
    hide GetChannelId;
    if first < 0 || !Truthy(directory[first].id) {
      forall k | 0 <= k < |directory| && directory[k].name == Some(name) && Truthy(directory[k].id)
        ensures exists j :: 0 <= j < k && directory[j].name == Some(name)
      {
        assert first >= 0 && first != k;
        assert directory[first].name == Some(name);
      }
    }
  }

  /** A reverse-mode export that returns its count wrote every accepted row,
      sorted by numeric ts when every ts converts and by ts string otherwise. */
  lemma ReverseOutput(run: Run, oldest: Option<int>, latest: Option<int>, tsMicros: string -> Option<int>,
                      outcome: Result<nat, Failure>, requests: seq<HistoryRequest>, written: seq<Row>)
    requires ExportedAs(run, oldest, latest, tsMicros, outcome, requests, written)
    requires run.reverse && outcome.Ok?
    ensures var rows := RowsUpTo(run, |requests|);
      && outcome == Ok(|rows|)
      && multiset(written) == multiset(rows)
      && (AllNumeric(rows, TsField, tsMicros) ==> SortedBy(written, (x: Row) => NumericKey(TsField, tsMicros, x)))
      && (!AllNumeric(rows, TsField, tsMicros) ==> SortedBy(written, (x: Row) => StringKey(TsField, x)))
  {
    var rows := RowsUpTo(run, |requests|);
    var sorted := AscendingRows(rows, TsField, tsMicros);
    assert sorted.Some?;
    assert DeliveryError(Fails(run.dest), sorted.value).None?;
    assert written == sorted.value;
  }

  /** A loop that stopped without an error, in write-as-you-go mode, wrote
      every accepted row. */
  lemma AllWritten(run: Run, k: nat, written: seq<Row>, collected: seq<Row>)
    requires k >= 1 && !run.reverse && EndOf(run, k).None?
    requires Final(run, k, written, collected)
    ensures written == RowsUpTo(run, k)
  {
  }

  /** One row per accepted message. */
  lemma RowCount(run: Run, k: nat)
    ensures |RowsUpTo(run, k)| == |Accepted(run, k)|
  {
  }

  /** The pagination loop and the flush after it, once the channel is known. */
  method Drain(run: Run, oldest: Option<int>, latest: Option<int>, tsMicros: string -> Option<int>, out: OutputFile)
    returns (outcome: Result<nat, Failure>, requests: seq<HistoryRequest>, written: seq<Row>)
    modifies out
    ensures ExportedAs(run, oldest, latest, tsMicros, outcome, requests, written)
    ensures out.entries == old(out.entries) + Entries(run.dest, written)
  {
    hide Accepted;
    hide RowsUpTo;
    hide InState;
    hide EndOf;
    hide GoesOn;
    hide Requests;
    hide AscendingRows;
    hide Deliverable;
    hide DeliveryError;
    var k, collected, count, failure;
    k, requests, written, collected, count, failure := Paginate(run, oldest, latest, out);
    if failure.Some? {
      return Err(failure.value), requests, written;
    }
    RowCount(run, k);
    if !run.reverse {
      AllWritten(run, k, written, collected);
      return Ok(count), requests, written;
    }
    var sorted := AscendingRows(collected, TsField, tsMicros);
    if sorted.None? {
      return Err(Unorderable), requests, written;
    }
    ghost var before := written;
    var e;
    written, e := DeliverAll(run.dest, sorted.value, out);
    assert before == [];
    outcome := OutcomeOf(e, count);
  }

  /** `export_slack_messages`. `present` and `file` are the output file's
      existence and bytes when the run starts (read by the resume scan);
      `out` is that file opened for append; `sink` replaces the file when
      given. Returns the outcome (the count, or why the export raised), the
      history calls made, and the rows handed to the destination, in order. */
  method Export(opts: SlackOptions, api: SlackApi, sink: Option<Row -> Option<string>>, channelInput: string,
                present: bool, file: array<Byte>, decode: seq<Byte> -> LineParse<Value>, out: OutputFile)
    returns (outcome: Result<nat, Failure>, requests: seq<HistoryRequest>, written: seq<Row>, log: seq<string>)
    modifies out
    ensures GetChannelId(channelInput, api.directory).Err? ==>
      outcome == Err(Raised(GetChannelId(channelInput, api.directory).error)) && requests == [] && written == []
      && out.entries == old(out.entries)
    ensures log == ProgressLog(ResumeLog(ResumeKey(opts, present, file[..], decode)), outcome, opts.outPath)
    ensures GetChannelId(channelInput, api.directory).Ok? ==>
      var dest := DestOf(opts, sink);
      var oldest := ResumeOldest(opts.minDate, ResumeKey(opts, present, file[..], decode), api.tsMicros);
      var ctx := ContextOf(opts, api, sink, GetChannelId(channelInput, api.directory).value, channelInput);
      && ExportedAs(RunOf(opts, ctx, dest, api.pages), oldest, opts.maxDate, api.tsMicros, outcome, requests, written)
      && out.entries == old(out.entries) + HeaderFor(dest, old(out.entries)) + Entries(dest, written)
  {
    var lastTs := ReadResume(opts.resume && opts.fmt == "jsonl", present, file, decode);
    assert lastTs == ResumeKey(opts, present, file[..], decode);
    hide ResumeKey;
    hide ResumeFrom;
    hide ExportedAs;
    hide RunOf;
    var oldest := ResumeOldest(opts.minDate, lastTs, api.tsMicros);
    var channel := GetChannelId(channelInput, api.directory);
    if channel.Err? {
      return Err(Raised(channel.error)), [], [], ResumeLog(lastTs);
    }
    var ctx := ContextOf(opts, api, sink, channel.value, channelInput);
    var dest := DestOf(opts, sink);
    out.Open(dest);
    outcome, requests, written := Drain(RunOf(opts, ctx, dest, api.pages), oldest, opts.maxDate, api.tsMicros, out);
    log := ProgressLog(ResumeLog(lastTs), outcome, opts.outPath);
  }
}
