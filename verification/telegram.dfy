/** The Telegram exporter: the messages the client's history iterator yields
    (newer than the resume checkpoint, at most `limit` of them) go one by one
    through the filter chain; an accepted message becomes a row, its media is
    optionally downloaded, and the row goes to the sink or the output file. */
module Telegram {
  import opened Common
  import opened Rows
  import opened Stream
  import opened Checkpoint
  import opened FileSink
  import opened Pipeline

  // ---------------------------------------------------------------------------
  // Messages and rows

  /** The message's sender entity: its id, username and names. */
  datatype TgSender = TgSender(id: int, username: Option<string>, firstName: Option<string>, lastName: Option<string>)

  /** A message's media: a photo, a document with the `file_name` of each of
      its attributes (none when the document or its attribute list is
      missing), or some other media class. */
  datatype TgMedia = Photo | Document(fileNames: seq<Option<string>>) | OtherMedia(className: string)

  /** A message as the client returns it; dates are instants (UTC). */
  datatype TgMessage = TgMessage(
    id: int,
    date: int,
    chatId: Option<int>,
    sender: Option<TgSender>,
    message: Option<string>,
    replyTo: Option<int>,
    views: Option<int>,
    forwards: Option<int>,
    editDate: Option<int>,
    viaBotId: Option<int>,
    pinned: bool,
    media: Option<TgMedia>)

  /** The index of the first attribute with a non-empty file name, or -1. */
  function FirstNamed(fileNames: seq<Option<string>>): (k: int)
    ensures k < 0 <==> forall i :: 0 <= i < |fileNames| ==> !Truthy(fileNames[i])
    ensures k >= 0 ==> k < |fileNames| && Truthy(fileNames[k])
    ensures k >= 0 ==> forall i :: 0 <= i < k ==> !Truthy(fileNames[i])
    decreases |fileNames|
  {
    if fileNames == [] then -1
    else if Truthy(fileNames[0]) then 0
    else
      var k := FirstNamed(fileNames[1..]);
      if k < 0 then -1 else k + 1
  }

  /** `" ".join(x for x in [first_name, last_name] if x) or username or str(id)`. */
  function SenderDisplay(s: TgSender): (r: string)
    ensures Truthy(s.firstName) && Truthy(s.lastName) ==> r == s.firstName.value + " " + s.lastName.value
    ensures Truthy(s.firstName) && !Truthy(s.lastName) ==> r == s.firstName.value
    ensures !Truthy(s.firstName) && Truthy(s.lastName) ==> r == s.lastName.value
    ensures !Truthy(s.firstName) && !Truthy(s.lastName) && Truthy(s.username) ==> r == s.username.value
    ensures !Truthy(s.firstName) && !Truthy(s.lastName) && !Truthy(s.username) ==> r == IntToString(s.id)
  {
    var names := (if Truthy(s.firstName) then [s.firstName.value] else [])
      + (if Truthy(s.lastName) then [s.lastName.value] else []);
    var joined := Join(" ", names);
    assert |names| == 2 ==> names[1..] == [names[1]] && Join(" ", names[1..]) == names[1];
    if joined != "" then joined else if Truthy(s.username) then s.username.value else IntToString(s.id)
  }

  function MediaTypeName(media: TgMedia): string {
    match media
    case Photo => "photo"
    case Document(_) => "document"
    case OtherMedia(name) => name
  }

  function MediaFileName(media: TgMedia): Value {
    match media
    case Document(names) =>
      var k := FirstNamed(names);
      if k < 0 then VNone else VStr(names[k].value)
    case _ => VNone
  }

  /** `msg_to_row`: the message as a row; `iso` is `isoformat()`. */
  function MsgToRow(m: TgMessage, chatTitle: Value, iso: int -> string): (r: Row)
    ensures r.id == VInt(m.id) && r.ts.None? && r.mediaPath.None?
    ensures r.date == VStr(iso(m.date)) && r.chatTitle == chatTitle
    ensures r.text == VStr(m.message.GetOr(""))
    ensures r.media <==> m.media.Some?
    ensures m.media == Some(Photo) ==> r.mediaType == VStr("photo")
    ensures m.media.Some? && m.media.value.Document? ==> r.mediaType == VStr("document")
    ensures m.media.Some? && m.media.value.OtherMedia? ==> r.mediaType == VStr(m.media.value.className)
    ensures m.media.None? ==> r.mediaType == VNone
    ensures r.mediaFileName != VNone <==>
      m.media.Some? && m.media.value.Document? && FirstNamed(m.media.value.fileNames) >= 0
    ensures m.sender.None? <==> r.senderDisplay == VNone
    ensures m.sender.None? ==> r.senderId == VNone && r.senderUsername == VNone
    ensures m.sender.Some? ==> r.senderId == VInt(m.sender.value.id)
    ensures r.editDate == VNone <==> m.editDate.None?
    ensures r.isPinned == m.pinned
  {
    var media := m.media;
    Row(
      id := VInt(m.id),
      ts := None,
      date := VStr(iso(m.date)),
      chatId := OptInt(m.chatId),
      chatTitle := chatTitle,
      senderId := if m.sender.Some? then VInt(m.sender.value.id) else VNone,
      senderUsername := if m.sender.Some? then OptStr(m.sender.value.username) else VNone,
      senderDisplay := if m.sender.Some? then VStr(SenderDisplay(m.sender.value)) else VNone,
      text := VStr(m.message.GetOr("")),
      replyToId := OptInt(m.replyTo),
      views := OptInt(m.views),
      forwards := OptInt(m.forwards),
      editDate := if m.editDate.Some? then VStr(iso(m.editDate.value)) else VNone,
      viaBotId := OptInt(m.viaBotId),
      isPinned := m.pinned,
      media := media.Some?,
      mediaType := if media.Some? then VStr(MediaTypeName(media.value)) else VNone,
      mediaFileName := if media.Some? then MediaFileName(media.value) else VNone,
      mediaPath := None)
  }

  // ---------------------------------------------------------------------------
  // Filters

  function NonBlank(x: string): bool {
    Trim(x) != ""
  }

  function StripLower(x: string): string {
    Lower(Trim(x))
  }

  function StripAt(x: string): string {
    LStrip(Trim(x), '@')
  }

  /** `[k.strip().lower() for k in keywords if k.strip()]`. */
  function KeywordList(keywords: seq<string>): seq<string> {
    MapSeq(Select(keywords, NonBlank), StripLower)
  }

  /** `[u.strip().lstrip("@") for u in users if u.strip()]`. */
  function UserList(users: seq<string>): seq<string> {
    MapSeq(Select(users, NonBlank), StripAt)
  }

  /** The keyword list holds every non-blank keyword, stripped and
      lower-cased, and nothing else; none of its entries is empty. */
  lemma KeywordListMembers(xs: seq<string>)
    ensures forall x :: x in xs && Trim(x) != "" ==> Lower(Trim(x)) in KeywordList(xs)
    ensures forall y :: y in KeywordList(xs) ==> exists x :: x in xs && Trim(x) != "" && y == Lower(Trim(x))
    ensures "" !in KeywordList(xs)
  {
    hide Trim;
    SelectMapMembers(xs, NonBlank, StripLower);
    forall y | y in KeywordList(xs)
      ensures y != ""
    {
      var x :| x in xs && Trim(x) != "" && y == Lower(Trim(x));
      assert |y| == |Trim(x)|;
    }
  }

  /** The user list holds every non-blank entry, stripped and without its
      leading '@'s, and nothing else. */
  lemma UserListMembers(xs: seq<string>)
    ensures forall x :: x in xs && Trim(x) != "" ==> LStrip(Trim(x), '@') in UserList(xs)
    ensures forall y :: y in UserList(xs) ==> exists x :: x in xs && Trim(x) != "" && y == LStrip(Trim(x), '@')
  {
    hide Trim;
    hide LStrip;
    SelectMapMembers(xs, NonBlank, StripAt);
  }

  /** A user entry of "@" alone survives as "", which lets through every
      message without a sender (its id is "") and every message whose sender
      has no username (its lower-cased username is ""). */
  lemma LoneAtMatchesSenderless(f: TgFilter, m: TgMessage, extra: seq<string>)
    requires f.users == ["@"] + extra
    ensures "" in UserList(f.users)
    ensures m.sender.None? || m.sender.value.username.GetOr("") == "" ==> UserOk(f, m)
  {
    LoneAt();
    hide Trim;
    hide LStrip;
    hide NonBlank;
    hide StripAt;
    SelectMapMembers(["@"] + extra, NonBlank, StripAt);
    assert "@" in ["@"] + extra;
    var users := UserList(f.users);
    var i :| 0 <= i < |users| && users[i] == "";
    MapSeqAt(users, Lower, i);
    assert Lower("") == "";
  }

  /** "@" is not blank, and stripping its '@' leaves nothing. */
  lemma LoneAt()
    ensures NonBlank("@") && StripAt("@") == ""
  {
    var at := "@";
    assert at[0] == '@' && at[|at| - 1] == '@' && !IsSpace('@');
    assert TrimStart(at) == at;
    assert TrimEnd(at) == at;
    assert Trim(at) == at;
    assert at[1..] == "";
    assert LStrip(at, '@') == LStrip("", '@') == "";
  }

  /** The message filters; the date bounds are 00:00 of `min_date` and
      `max_date`, as instants. */
  datatype TgFilter = TgFilter(
    minDate: Option<int>, maxDate: Option<int>, onlyMedia: bool, onlyText: bool,
    users: seq<string>, keywords: seq<string>)

  /** Dropped before 00:00 of `min_date` and after 00:00 of `max_date`. */
  predicate DateOk(f: TgFilter, m: TgMessage) {
    (f.minDate.None? || m.date >= f.minDate.value) && (f.maxDate.None? || m.date <= f.maxDate.value)
  }

  predicate MediaOk(f: TgFilter, m: TgMessage) {
    !(f.onlyMedia && m.media.None?) && !(f.onlyText && m.media.Some?)
  }

  /** `str(sender.id)` exactly, or the lower-cased username among the
      lower-cased entries; without a sender both are "". */
  predicate UserOk(f: TgFilter, m: TgMessage) {
    var users := UserList(f.users);
    var uid := if m.sender.Some? then IntToString(m.sender.value.id) else "";
    var uname := if m.sender.Some? then Lower(m.sender.value.username.GetOr("")) else "";
    users == [] || uid in users || uname in MapSeq(users, Lower)
  }

  predicate KeywordOk(f: TgFilter, m: TgMessage) {
    var kw := KeywordList(f.keywords);
    kw == [] || exists i :: 0 <= i < |kw| && Contains(Lower(m.message.GetOr("")), kw[i])
  }

  predicate Accepts(f: TgFilter, m: TgMessage) {
    DateOk(f, m) && MediaOk(f, m) && UserOk(f, m) && KeywordOk(f, m)
  }

  // ---------------------------------------------------------------------------
  // The history iterator and the resume checkpoint

  /** `iter_messages(entity, reverse, limit, min_id)` over the chat's history
      in the requested order: the messages with an id above `min_id`, all of
      them without a limit and at most `limit` (none for `limit <= 0`)
      with one. */
  function Iterated(history: seq<TgMessage>, minId: int, limit: Option<int>): seq<TgMessage> {
    var newer := Select(history, (m: TgMessage) => m.id > minId);
    if limit.None? then newer
    else if limit.value <= 0 then []
    else if |newer| <= limit.value then newer
    else newer[..limit.value]
  }

  /** What the iterator yields is history newer than `min_id`, bounded by the
      limit; without a limit it is all of that history. */
  lemma IteratedBounds(history: seq<TgMessage>, minId: int, limit: Option<int>)
    ensures forall m :: m in Iterated(history, minId, limit) ==> m in history && m.id > minId
    ensures limit.Some? ==> |Iterated(history, minId, limit)| <= if limit.value < 0 then 0 else limit.value
    ensures limit.None? ==> forall m :: m in history && m.id > minId ==> m in Iterated(history, minId, limit)
  {
    var keep := (m: TgMessage) => m.id > minId;
    var newer := Select(history, keep);
    SelectMembers(history, keep);
    forall m | m in Iterated(history, minId, limit)
      ensures m in newer
    {
      if limit.Some? && limit.value > 0 && |newer| > limit.value {
        var i :| 0 <= i < limit.value && newer[..limit.value][i] == m;
        assert newer[i] == m;
      }
    }
  }

  const ConcatError := "can only concatenate str (not \"int\") to str"

  /** `(last_id + 1) if last_id else 0`, or the TypeError of adding 1 to a
      string id (`True + 1` is 2). */
  function MinIdOf(lastId: Option<Value>): (r: Result<int, string>)
    ensures lastId.None? || !TruthyValue(lastId.value) ==> r == Ok(0)
    ensures lastId.Some? && lastId.value.VInt? && lastId.value.i != 0 ==> r == Ok(lastId.value.i + 1)
    ensures r.Err? <==> lastId.Some? && lastId.value.VStr? && lastId.value.s != ""
  {
    if lastId.None? || !TruthyValue(lastId.value) then Ok(0)
    else
      match lastId.value
      case VInt(i) => Ok(i + 1)
      case VBool(_) => Ok(2)
      case VStr(_) => Err(ConcatError)
      case VNone => Ok(0)
  }

  /** A resumed export fetches nothing up to the checkpoint, and not the
      message right after it either: `min_id` is exclusive, so asking for
      `last_id + 1` skips the id `last_id + 1`. */
  lemma ResumeSkipsNext(history: seq<TgMessage>, lastId: int, limit: Option<int>)
    requires lastId != 0
    ensures MinIdOf(Some(VInt(lastId))) == Ok(lastId + 1)
    ensures forall m :: m in Iterated(history, lastId + 1, limit) ==> m.id > lastId + 1
  {
    IteratedBounds(history, lastId + 1, limit);
  }

  /** Resuming with `min_id = last_id`, which the exclusive bound calls for,
      fetches exactly the history newer than the checkpoint when no limit is
      given: nothing up to it, and every message after it, `last_id + 1`
      included. */
  lemma ResumeFetchesAllNewer(history: seq<TgMessage>, lastId: int)
    ensures forall m :: m in Iterated(history, lastId, None) ==> m in history && m.id > lastId
    ensures forall m :: m in history && m.id > lastId ==> m in Iterated(history, lastId, None)
  {
    IteratedBounds(history, lastId, None);
  }

  // ---------------------------------------------------------------------------
  // Media download

  /** One `download_media` call: the saved path (None when nothing was
      saved), a FloodWaitError with its wait, or any other exception. */
  datatype Attempt = Saved(path: Option<string>) | FloodWait(seconds: nat, error: string) | Failed(error: string)

  /** The outcome of downloading a message's media: the `media_path` value or
      the exception the retry raised, the sleeps taken and the lines logged. */
  datatype Fetch = Fetch(path: Result<Value, string>, waits: seq<nat>, log: seq<string>)

  function RateLimitLine(seconds: nat): string {
    "Rate limited during media download, sleeping " + NatToString(seconds) + "s..."
  }

  function MediaFailedLine(id: int, error: string): string {
    "Media download failed for " + IntToString(id) + ": " + error
  }

  /** The download with its retry: `attempt(m, 0)` is the first call and
      `attempt(m, 1)` the one after a flood wait. */
  function FetchMedia(m: TgMessage, attempt: (TgMessage, nat) -> Attempt): (r: Fetch)
    ensures |r.waits| <= 1 && |r.log| <= 1
    ensures r.path.Err? <==> attempt(m, 0).FloodWait? && !attempt(m, 1).Saved?
    ensures r.path.Err? ==> r.path.error == attempt(m, 1).error
    ensures r.waits != [] <==> attempt(m, 0).FloodWait?
    ensures attempt(m, 0).FloodWait? ==> r.waits == [attempt(m, 0).seconds]
    ensures attempt(m, 0).Failed? ==> r.path == Ok(VNone)
    ensures attempt(m, 0).Saved? ==> r == Fetch(Ok(OptStr(attempt(m, 0).path)), [], [])
  {
    match attempt(m, 0)
    case Saved(path) => Fetch(Ok(OptStr(path)), [], [])
    case Failed(error) => Fetch(Ok(VNone), [], [MediaFailedLine(m.id, error)])
    case FloodWait(seconds, _) =>
      var retry := attempt(m, 1);
      Fetch(if retry.Saved? then Ok(OptStr(retry.path)) else Err(retry.error), [seconds], [RateLimitLine(seconds)])
  }

  // ---------------------------------------------------------------------------
  // The export loop

  /** What the loop reads besides the messages: the filter chain, the chat
      title and date formatter for rows, the download calls (only with a
      media directory and no sink) and the destination. */
  datatype TgRun = TgRun(
    keep: TgMessage -> bool, chatTitle: Value, iso: int -> string,
    attempt: Option<(TgMessage, nat) -> Attempt>, dest: Dest)

  /** The loop's state: the count, the rows handed over, the sleeps, the
      progress lines, and the exception that ended the loop, if any. */
  datatype Progress = Progress(count: nat, written: seq<Row>, waits: seq<nat>, log: seq<string>, failure: Option<Failure>)

  const Start := Progress(0, [], [], [], None)

  /** The AttributeError of `out_f.flush()` when `out_f` is None (sink mode). */
  const FlushError := "'NoneType' object has no attribute 'flush'"

  function ProgressLine(count: nat): string {
    "Exported " + NatToString(count) + " messages..."
  }

  function SinkErrorLine(id: int, error: string): string {
    "Sink error for message " + IntToString(id) + ": " + error
  }

  /** The download of an accepted message, when there is one. */
  function DownloadOf(run: TgRun, m: TgMessage): Option<Fetch> {
    if run.attempt.Some? && m.media.Some? then Some(FetchMedia(m, run.attempt.value)) else None
  }

  /** The row of an accepted message, with `media_path` when its media was
      downloaded. */
  function ExportRow(run: TgRun, m: TgMessage): (r: Row)
    ensures r.ts.None?
    ensures r.mediaPath.Some? <==> DownloadOf(run, m).Some? && DownloadOf(run, m).value.path.Ok?
  {
    var row := MsgToRow(m, run.chatTitle, run.iso);
    var f := DownloadOf(run, m);
    if f.Some? && f.value.path.Ok? then row.(mediaPath := Some(f.value.path.value)) else row
  }

  function RowFn(run: TgRun): TgMessage -> Row {
    m => ExportRow(run, m)
  }

  /** After the count went up: every 500th message flushes the file (which
      raises in sink mode, where there is no file) and logs progress. */
  function Tick(run: TgRun, p: Progress): Progress {
    if p.count % 500 != 0 then p
    else if run.dest.ToSink? then p.(failure := Some(Raised(FlushError)))
    else p.(log := p.log + [ProgressLine(p.count)])
  }

  /** The periodic flush as intended, `if out_f: out_f.flush()`: every 500th
      message logs progress, and a sink, having no file, skips the flush. */
  function TickIntended(p: Progress): Progress {
    if p.count % 500 != 0 then p else p.(log := p.log + [ProgressLine(p.count)])
  }

  /** The intended flush never ends the loop, and for a file destination it is
      the flush as written. */
  lemma TickIntendedNeverFails(run: TgRun, p: Progress)
    ensures TickIntended(p).failure == p.failure && TickIntended(p).count == p.count
    ensures TickIntended(p).written == p.written
    ensures run.dest.ToFile? ==> TickIntended(p) == Tick(run, p)
    ensures run.dest.ToSink? && p.count % 500 == 0 ==> Tick(run, p).failure == Some(Raised(FlushError))
  {
  }

  /** Handing the row over: a sink's exception is logged and the message
      still counts; a CSV row the writer refuses raises out of the loop. */
  function Deliver(run: TgRun, p: Progress, m: TgMessage, row: Row): Progress {
    var fault := WriteError(run.dest, row);
    if run.dest.ToFile? && fault.Some? then p.(failure := Some(Refused(fault.value)))
    else
      var logged := if fault.Some? then [SinkErrorLine(m.id, FaultMessage(fault.value))] else [];
      Tick(run, p.(count := p.count + 1, written := p.written + [row], log := p.log + logged))
  }

  /** One iteration of `for m in it` on an accepted message. */
  function Accept(run: TgRun, p: Progress, m: TgMessage): Progress {
    var f := DownloadOf(run, m);
    var waits := if f.Some? then f.value.waits else [];
    var log := if f.Some? then f.value.log else [];
    var p1 := p.(waits := p.waits + waits, log := p.log + log);
    if f.Some? && f.value.path.Err? then p1.(failure := Some(Raised(f.value.path.error)))
    else Deliver(run, p1, m, ExportRow(run, m))
  }

  /** One iteration of the loop; nothing happens once it has raised. */
  function Step(run: TgRun, p: Progress, m: TgMessage): Progress {
    if p.failure.Some? || !run.keep(m) then p else Accept(run, p, m)
  }

  /** The loop over these messages. */
  function Consume(run: TgRun, ms: seq<TgMessage>): Progress
    decreases |ms|
  {
    if ms == [] then Start else Step(run, Consume(run, ms[..|ms| - 1]), ms[|ms| - 1])
  }

  lemma ConsumeSnoc(run: TgRun, ms: seq<TgMessage>, m: TgMessage)
    ensures Consume(run, ms + [m]) == Step(run, Consume(run, ms), m)
  {
    assert (ms + [m])[..|ms|] == ms;
  }

  /** Once the loop has raised, later messages change nothing. */
  lemma {:induction false} ConsumeStops(run: TgRun, a: seq<TgMessage>, b: seq<TgMessage>)
    requires Consume(run, a).failure.Some?
    ensures Consume(run, a + b) == Consume(run, a)
    decreases |b|
  {
    if b == [] {
      assert a + b == a;
    } else {
      var b' := b[..|b| - 1];
      assert a + b == (a + b') + [b[|b| - 1]];
      ConsumeStops(run, a, b');
      ConsumeSnoc(run, a + b', b[|b| - 1]);
    }
  }

  /** Every iteration that does not raise hands over the next accepted row. */
  lemma StepWrites(run: TgRun, p: Progress, m: TgMessage)
    requires p.failure.None?
    ensures Step(run, p, m).failure.None? ==>
      Step(run, p, m).written == p.written + (if run.keep(m) then [ExportRow(run, m)] else [])
      && Step(run, p, m).count == p.count + (if run.keep(m) then 1 else 0)
    ensures Step(run, p, m).failure.Some? ==>
      run.keep(m) && (Step(run, p, m).written == p.written || Step(run, p, m).written == p.written + [ExportRow(run, m)])
      && Step(run, p, m).count == |Step(run, p, m).written| - |p.written| + p.count
  {
  }

  /** The count is the number of rows handed over, those rows are the rows
      of the accepted messages in iteration order (all of them unless the
      loop raised), and only accepted messages are counted. */
  lemma {:induction false} ConsumeWrites(run: TgRun, ms: seq<TgMessage>)
    ensures var p := Consume(run, ms);
      var rows := MapSeq(Select(ms, run.keep), RowFn(run));
      && p.count == |p.written| <= |rows|
      && p.written == rows[..|p.written|]
      && (p.failure.None? ==> p.written == rows)
    decreases |ms|
  {
    if ms != [] {
      var init := ms[..|ms| - 1];
      var m := ms[|ms| - 1];
      assert ms == init + [m];
      ConsumeWrites(run, init);
      ConsumeSnoc(run, init, m);
      hide Accept;
      var p0 := Consume(run, init);
      if p0.failure.None? {
        StepWrites(run, p0, m);
      } else {
        assert Step(run, p0, m) == p0;
      }
      RowsSnoc(run, init, m);
      hide Consume;
      hide Step;
      hide Select;
      hide MapSeq;
    }
  }

  /** The rows of the accepted messages, one message later. */
  lemma RowsSnoc(run: TgRun, init: seq<TgMessage>, m: TgMessage)
    ensures MapSeq(Select(init + [m], run.keep), RowFn(run))
      == MapSeq(Select(init, run.keep), RowFn(run)) + (if run.keep(m) then [ExportRow(run, m)] else [])
  {
    SelectSnoc(init, m, run.keep);
    if run.keep(m) {
      MapSeqSnoc(Select(init, run.keep), m, RowFn(run));
    } else {
      assert Select(init + [m], run.keep) == Select(init, run.keep);
    }
  }

  /** In sink mode an accepted message always counts, and raises exactly when
      it is a 500th one. */
  lemma SinkStep(run: TgRun, p: Progress, m: TgMessage)
    requires run.dest.ToSink? && run.attempt.None? && p.failure.None? && run.keep(m)
    ensures Step(run, p, m).count == p.count + 1
    ensures Step(run, p, m).failure == if (p.count + 1) % 500 == 0 then Some(Raised(FlushError)) else None
  {
  }

  /** In sink mode nothing is downloaded and a sink's exception never stops
      the loop: with fewer than 500 accepted messages the loop ends normally
      with all of them counted. */
  lemma {:induction false} SinkModeCompletes(run: TgRun, ms: seq<TgMessage>)
    requires run.dest.ToSink? && run.attempt.None?
    requires |Select(ms, run.keep)| < 500
    ensures Consume(run, ms).failure.None?
    ensures Consume(run, ms).count == |Select(ms, run.keep)|
    decreases |ms|
  {
    hide Accept;
    if ms != [] {
      hide Consume;
      var init := ms[..|ms| - 1];
      var m := ms[|ms| - 1];
      assert ms == init + [m];
      SelectSnoc(init, m, run.keep);
      SinkModeCompletes(run, init);
      ConsumeSnoc(run, init, m);
      if run.keep(m) {
        SinkStep(run, Consume(run, init), m);
      }
    }
  }

  /** ...and the 500th accepted message ends it with the AttributeError of
      flushing a file that was never opened, right after the sink took it. */
  lemma {:induction false} SinkModeStopsAt500(run: TgRun, ms: seq<TgMessage>)
    requires run.dest.ToSink? && run.attempt.None?
    requires |Select(ms, run.keep)| >= 500
    ensures Consume(run, ms).failure == Some(Raised(FlushError))
    ensures Consume(run, ms).count == 500
    decreases |ms|
  {
    hide Accept;
    hide Consume;
    var init := ms[..|ms| - 1];
    var m := ms[|ms| - 1];
    assert ms == init + [m];
    SelectSnoc(init, m, run.keep);
    ConsumeSnoc(run, init, m);
    if |Select(init, run.keep)| >= 500 {
      SinkModeStopsAt500(run, init);
    } else {
      SinkModeCompletes(run, init);
      SinkStep(run, Consume(run, init), m);
    }
  }

  /** The Telegram CSV header has no `media_path` column: a CSV export that
      downloads media ends normally only when no accepted message has media. */
  lemma {:induction false} CsvRefusesMedia(run: TgRun, ms: seq<TgMessage>)
    requires run.dest.ToFile? && run.dest.cols == TelegramColumns && run.dest.fmt != "jsonl" && run.attempt.Some?
    requires Consume(run, ms).failure.None?
    ensures forall m :: m in Select(ms, run.keep) ==> m.media.None?
    decreases |ms|
  {
    if ms != [] {
      var init := ms[..|ms| - 1];
      var m := ms[|ms| - 1];
      assert ms == init + [m];
      SelectSnoc(init, m, run.keep);
      if Consume(run, init).failure.Some? {
        ConsumeStops(run, init, [m]);
      }
      CsvRefusesMedia(run, init);
    }
  }

  /** `client.download_media(m, file=media_dir)` with its `except` clauses. */
  method DownloadMedia(m: TgMessage, attempt: (TgMessage, nat) -> Attempt) returns (f: Fetch)
    ensures f == FetchMedia(m, attempt)
  {
    var first := attempt(m, 0);
    match first
    case Saved(path) =>
      f := Fetch(Ok(OptStr(path)), [], []);
    case FloodWait(seconds, _) =>
      var retry := attempt(m, 1);
      if retry.Saved? {
        f := Fetch(Ok(OptStr(retry.path)), [seconds], [RateLimitLine(seconds)]);
      } else {
        f := Fetch(Err(retry.error), [seconds], [RateLimitLine(seconds)]);
      }
    case Failed(error) =>
      f := Fetch(Ok(VNone), [], [MediaFailedLine(m.id, error)]);
  }

  /** `sink(row, m, client)` or the file write, then the count and the
      periodic flush. */
  method DeliverRow(run: TgRun, p0: Progress, m: TgMessage, row: Row, out: OutputFile, ghost base: seq<Entry>)
    returns (p: Progress)
    requires out.entries == base + Entries(run.dest, p0.written)
    modifies out
    ensures p == Deliver(run, p0, m, row)
    ensures out.entries == base + Entries(run.dest, p.written)
  {
    hide ProgressLine;
    hide SinkErrorLine;
    hide FaultMessage;
    hide WriteError;
    p := p0;
    ghost var before := out.entries;
    var err := out.Emit(run.dest, row);
    EmitStep(run.dest, base, p0.written, row, before, out.entries, err);
    hide Entries;
    if err.Some? {
      if run.dest.ToFile? {
        return p.(failure := Some(Refused(err.value)));
      }
      p := p.(log := p.log + [SinkErrorLine(m.id, FaultMessage(err.value))]);
    }
    p := p.(count := p.count + 1, written := p.written + [row]);
    if p.count % 500 == 0 {
      if run.dest.ToSink? {
        p := p.(failure := Some(Raised(FlushError)));
      } else {
        p := p.(log := p.log + [ProgressLine(p.count)]);
      }
    }
  }

  /** The loop body: filters, row, download, hand-over, count. */
  method HandleMessage(run: TgRun, p0: Progress, m: TgMessage, out: OutputFile, ghost base: seq<Entry>)
    returns (p: Progress)
    requires p0.failure.None?
    requires out.entries == base + Entries(run.dest, p0.written)
    modifies out
    ensures p == Step(run, p0, m)
    ensures out.entries == base + Entries(run.dest, p.written)
  {
    hide Deliver;
    hide FetchMedia;
    hide MsgToRow;
    p := p0;
    if !run.keep(m) {
      return;
    }
    var row := MsgToRow(m, run.chatTitle, run.iso);
    if run.attempt.Some? && m.media.Some? {
      var f := DownloadMedia(m, run.attempt.value);
      p := p.(waits := p.waits + f.waits, log := p.log + f.log);
      if f.path.Err? {
        return p.(failure := Some(Raised(f.path.error)));
      }
      row := row.(mediaPath := Some(f.path.value));
    } else {
      assert p == p.(waits := p.waits + [], log := p.log + []);
    }
    p := DeliverRow(run, p, m, row, out, base);
  }

  /** `for m in it: ...`, leaving the loop at the first exception. */
  method ConsumeAll(run: TgRun, msgs: seq<TgMessage>, out: OutputFile) returns (p: Progress)
    modifies out
    ensures p == Consume(run, msgs)
    ensures out.entries == old(out.entries) + Entries(run.dest, p.written)
  {
    hide Step;
    ghost var base := out.entries;
    p := Start;
    assert Entries(run.dest, []) == [];
    var j := 0;
    while j < |msgs| && p.failure.None?
      invariant 0 <= j <= |msgs|
      invariant p == Consume(run, msgs[..j])
      invariant out.entries == base + Entries(run.dest, p.written)
    {
      ConsumeSnoc(run, msgs[..j], msgs[j]);
      assert msgs[..j + 1] == msgs[..j] + [msgs[j]];
      p := HandleMessage(run, p, msgs[j], out, base);
      j := j + 1;
    }
    if j < |msgs| {
      ConsumeStops(run, msgs[..j], msgs[j..]);
      assert msgs[..j] + msgs[j..] == msgs;
    } else {
      assert msgs[..j] == msgs;
    }
  }

  // ---------------------------------------------------------------------------
  // The export

  /** The arguments of `export_messages`; the date bounds are 00:00 of
      `min_date` and `max_date`, as instants. */
  datatype TelegramOptions = TelegramOptions(
    outPath: string,
    fmt: string,
    reverse: bool,
    resume: bool,
    limit: Option<int>,
    mediaDir: Option<string>,
    minDate: Option<int>,
    maxDate: Option<int>,
    onlyMedia: bool,
    onlyText: bool,
    keywords: seq<string>,
    users: seq<string>)

  /** The client: the chat's title, its history in each order, the date
      formatter and the media downloads. */
  datatype TelegramApi = TelegramApi(
    chatTitle: Value,
    history: bool -> seq<TgMessage>,
    iso: int -> string,
    attempt: (TgMessage, nat) -> Attempt)

  /** The Telegram CSV header: neither `ts` nor `media_path`. */
  const TelegramColumns := Columns(false, false)

  function FilterOf(opts: TelegramOptions): TgFilter {
    TgFilter(opts.minDate, opts.maxDate, opts.onlyMedia, opts.onlyText, opts.users, opts.keywords)
  }

  function RunOf(opts: TelegramOptions, api: TelegramApi, sink: Option<Row -> Option<string>>): TgRun {
    TgRun(
      m => Accepts(FilterOf(opts), m), api.chatTitle, api.iso,
      if Truthy(opts.mediaDir) && sink.None? then Some(api.attempt) else None,
      if sink.Some? then ToSink(sink.value) else ToFile(opts.fmt, TelegramColumns))
  }

  /** The checkpoint of a resumed JSONL export: the `id` of the file's last
      record as the scan of `read_last_id_jsonl` finds it (Checkpoint.LastKeyAsWritten). */
  function ResumeKey(opts: TelegramOptions, present: bool, file: seq<Byte>, decode: seq<Byte> -> LineParse<Value>): Option<Value> {
    ResumeFrom(opts.resume && opts.fmt == "jsonl", present, file, decode)
  }

  function ResumeLog(lastId: Option<Value>): seq<string> {
    if lastId.Some? && TruthyValue(lastId.value) then ["Resuming after message id " + Show(lastId.value)] else []
  }

  /** What an export did: it computes `min_id` from the checkpoint (which may
      raise), runs the loop over what the iterator yields, and returns the
      count; the log holds the resume line, the loop's lines and the final
      line of a run that did not raise. */
  predicate ExportedAs(opts: TelegramOptions, api: TelegramApi, run: TgRun, lastId: Option<Value>,
                       outcome: Result<nat, Failure>, waits: seq<nat>, log: seq<string>, written: seq<Row>) {
    match MinIdOf(lastId)
    case Err(e) => outcome == Err(Raised(e)) && waits == [] && log == ResumeLog(lastId) && written == []
    case Ok(minId) =>
      var p := Consume(run, Iterated(api.history(opts.reverse), minId, opts.limit));
      && waits == p.waits && written == p.written
      && (p.failure.Some? ==> outcome == Err(p.failure.value) && log == ResumeLog(lastId) + p.log)
      && (p.failure.None? ==>
            outcome == Ok(p.count) && log == ResumeLog(lastId) + p.log + [DoneLine(p.count, opts.outPath)])
  }

  /** `export_messages`. `present` and `file` are the output file's existence
      and bytes when the run starts; `out` is that file opened for append;
      `sink` replaces the file when given. */
  method Export(opts: TelegramOptions, api: TelegramApi, sink: Option<Row -> Option<string>>,
                present: bool, file: array<Byte>, decode: seq<Byte> -> LineParse<Value>, out: OutputFile)
    returns (outcome: Result<nat, Failure>, waits: seq<nat>, log: seq<string>, written: seq<Row>)
    modifies out
    ensures var run := RunOf(opts, api, sink);
      && ExportedAs(opts, api, run, ResumeKey(opts, present, file[..], decode), outcome, waits, log, written)
      && out.entries == old(out.entries) + HeaderFor(run.dest, old(out.entries)) + Entries(run.dest, written)
  {
    var lastId := ReadResume(opts.resume && opts.fmt == "jsonl", present, file, decode);
    log := ResumeLog(lastId);
    var run := RunOf(opts, api, sink);
    out.Open(run.dest);
    var minId := MinIdOf(lastId);
    if minId.Err? {
      assert Entries(run.dest, []) == [];
      return Err(Raised(minId.error)), [], log, [];
    }
    var msgs := Iterated(api.history(opts.reverse), minId.value, opts.limit);
    var p := ConsumeAll(run, msgs, out);
    waits, written := p.waits, p.written;
    if p.failure.Some? {
      return Err(p.failure.value), waits, log + p.log, written;
    }
    outcome := Ok(p.count);
    log := log + p.log + [DoneLine(p.count, opts.outPath)];
  }

  /** The limit bounds the messages fetched, not the ones accepted: an export
      that returns its count counted at most `limit` messages (none when
      `limit <= 0`), every one of them fetched and accepted. */
  lemma LimitCountsFetched(opts: TelegramOptions, api: TelegramApi, run: TgRun, minId: int)
    ensures var msgs := Iterated(api.history(opts.reverse), minId, opts.limit);
      var p := Consume(run, msgs);
      && p.count <= |Select(msgs, run.keep)| <= |msgs|
      && (opts.limit.Some? ==> p.count <= if opts.limit.value < 0 then 0 else opts.limit.value)
  {
    var msgs := Iterated(api.history(opts.reverse), minId, opts.limit);
    ConsumeWrites(run, msgs);
    IteratedBounds(api.history(opts.reverse), minId, opts.limit);
  }
}
