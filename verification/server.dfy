/** The local HTTP server: a registry of export tasks whose state a worker
    updates (running, then done or error, with a growing log), the checks an
    extract request passes before a task is started, the runners that drive
    an export and record its outcome, and the two channel listings. */
module Server {
  import opened Common
  import opened Stream
  import opened OutputFormat

  /** An HTTPException: its status code and detail. */
  datatype HttpError = HttpError(status: int, detail: string)

  // ---------------------------------------------------------------------------
  // Tasks

  datatype Status = Running | Done | Error

  function StatusName(s: Status): string {
    match s
    case Running => "running"
    case Done => "done"
    case Error => "error"
  }

  /** A task's result: `{"messages": count}`, with no count when the export
      ran in a subprocess. */
  datatype TaskResult = Messages(count: Option<int>)

  /** `f"[{ts}] {msg}"`. */
  function Entry(stamp: string, msg: string): string {
    "[" + stamp + "] " + msg
  }

  /** The entries `msgs` become when logged one after another from log
      position `from`; `clock(n)` is the time stamp of the n-th entry. */
  function Stamped(from: nat, msgs: seq<string>, clock: nat -> string): (r: seq<string>)
    ensures |r| == |msgs|
    ensures forall i :: 0 <= i < |msgs| ==> r[i] == Entry(clock(from + i), msgs[i])
    decreases |msgs|
  {
    if msgs == [] then []
    else Stamped(from, msgs[..|msgs| - 1], clock) + [Entry(clock(from + |msgs| - 1), msgs[|msgs| - 1])]
  }

  lemma StampedSnoc(from: nat, msgs: seq<string>, i: nat, clock: nat -> string)
    requires i < |msgs|
    ensures Stamped(from, msgs[..i + 1], clock) == Stamped(from, msgs[..i], clock) + [Entry(clock(from + i), msgs[i])]
  {
    assert msgs[..i + 1][..i] == msgs[..i];
  }

  /** `TaskState`: the status, log, result, error and times of one export. */
  class TaskState {
    var status: Status
    var logs: seq<string>
    var result: Option<TaskResult>
    var error: Option<string>
    const startedAt: int
    var finishedAt: Option<int>

    /** A finished task has a finishing time, and it carries a result when
        it is done and an error when it failed. */
    ghost predicate Settled()
      reads this
    {
      && status != Running
      && finishedAt.Some?
      && (status == Done ==> result.Some?)
      && (status == Error ==> error.Some?)
    }

    /** A new task is running, with an empty log and no result or error. */
    constructor (now: int)
      ensures status == Running && logs == [] && result == None && error == None
      ensures startedAt == now && finishedAt == None
    {
      status := Running;
      logs := [];
      result := None;
      error := None;
      startedAt := now;
      finishedAt := None;
    }

    /** `log(msg)`: one time-stamped entry more; nothing else changes. */
    method Log(clock: nat -> string, msg: string)
      modifies this
      ensures logs == old(logs) + [Entry(clock(|old(logs)|), msg)]
      ensures status == old(status) && result == old(result) && error == old(error)
      ensures finishedAt == old(finishedAt)
    {
      logs := logs + [Entry(clock(|logs|), msg)];
    }

    /** Logs each message in turn. */
    method LogAll(clock: nat -> string, msgs: seq<string>)
      modifies this
      ensures logs == old(logs) + Stamped(|old(logs)|, msgs, clock)
      ensures status == old(status) && result == old(result) && error == old(error)
      ensures finishedAt == old(finishedAt)
    {
      hide Stamped;
      ghost var from := |logs|;
      assert msgs[..0] == [];
      for i := 0 to |msgs|
        invariant |logs| == from + i
        invariant logs == old(logs) + Stamped(from, msgs[..i], clock)
        invariant status == old(status) && result == old(result) && error == old(error)
        invariant finishedAt == old(finishedAt)
      {
        StampedSnoc(from, msgs, i, clock);
        Log(clock, msgs[i]);
      }
      assert msgs[..|msgs|] == msgs;
    }
  }

  /** What a target did while it ran: the progress lines it reported, then
      its return value or the message of the exception it raised. */
  datatype Run<T> = Run(progress: seq<string>, outcome: Result<T, string>)

  /** `_run_task(task, target, kwargs)`: the target always reports progress
      through the task's log; its result makes the task done, its exception
      makes it an error; either way the finishing time is recorded. No
      endpoint calls `_run_task` (each extract runner settles its task
      itself), and its result is narrowed here to the `{"messages": n}` the
      runners store, where the source keeps whatever the target returns,
      None included. */
  method RunTask(task: TaskState, target: Run<TaskResult>, clock: nat -> string, now: int)
    modifies task
    ensures task.Settled()
    ensures task.logs == old(task.logs) + Stamped(|old(task.logs)|, target.progress, clock)
    ensures task.finishedAt == Some(now)
    ensures target.outcome.Ok? ==>
      task.status == Done && task.result == Some(target.outcome.value) && task.error == old(task.error)
    ensures target.outcome.Err? ==>
      task.status == Error && task.error == Some(target.outcome.error) && task.result == old(task.result)
  {
    task.LogAll(clock, target.progress);
    match target.outcome {
      case Ok(r) =>
        task.result := Some(r);
        task.status := Done;
      case Err(e) =>
        task.error := Some(e);
        task.status := Error;
    }
    task.finishedAt := Some(now);
  }

  /** The error a nonzero exit code becomes. */
  function ExitMessage(rc: int): string {
    "Exporter exited with code " + IntToString(rc)
  }

  /** A finished exporter process: its stderr lines and its return code. */
  datatype Process = Process(stderr: seq<string>, rc: int)

  function Stripped(lines: seq<string>): (r: seq<string>)
    ensures |r| == |lines|
    ensures forall i :: 0 <= i < |lines| ==> r[i] == Trim(lines[i])
  {
    seq(|lines|, i requires 0 <= i < |lines| => Trim(lines[i]))
  }

  /** The file-export runner: logs the start, then every stderr line
      stripped, then maps the return code; `launch` is Err when starting the
      process raised. */
  method RunSubprocess(task: TaskState, platform: string, launch: Result<Process, string>, clock: nat -> string, now: int)
    modifies task
    ensures task.Settled()
    ensures task.finishedAt == Some(now)
    ensures var start := "Starting " + platform + " export...";
      task.logs == old(task.logs) + Stamped(|old(task.logs)|, [start] + (if launch.Ok? then Stripped(launch.value.stderr) else []), clock)
    ensures launch.Err? ==> task.status == Error && task.error == Some(launch.error) && task.result == old(task.result)
    ensures launch.Ok? && launch.value.rc != 0 ==>
      task.status == Error && task.error == Some(ExitMessage(launch.value.rc)) && task.result == old(task.result)
    ensures launch.Ok? && launch.value.rc == 0 ==>
      task.status == Done && task.result == Some(Messages(None)) && task.error == old(task.error)
  {
    var start := "Starting " + platform + " export...";
    var lines := if launch.Ok? then Stripped(launch.value.stderr) else [];
    task.LogAll(clock, [start] + lines);
    if launch.Err? {
      task.error := Some(launch.error);
      task.status := Error;
    } else if launch.value.rc != 0 {
      task.error := Some(ExitMessage(launch.value.rc));
      task.status := Error;
    } else {
      task.result := Some(Messages(None));
      task.status := Done;
    }
    task.finishedAt := Some(now);
  }

  function FinalizeLine(e: string): string {
    "Notion finalize error: " + e
  }

  /** The in-process runner: the exporter's progress goes to the log; after
      a successful export the sink (if any) is finalized, and a finalize
      failure is only logged. `finalizeError` is what finalize raised. */
  method RunInProcess(task: TaskState, exported: Run<int>, hasSink: bool, finalizeError: Option<string>,
                      clock: nat -> string, now: int)
    modifies task
    ensures task.Settled()
    ensures task.finishedAt == Some(now)
    ensures var extra := if exported.outcome.Ok? && hasSink && finalizeError.Some? then [FinalizeLine(finalizeError.value)] else [];
      task.logs == old(task.logs) + Stamped(|old(task.logs)|, exported.progress + extra, clock)
    ensures exported.outcome.Ok? ==>
      task.status == Done && task.result == Some(Messages(Some(exported.outcome.value))) && task.error == old(task.error)
    ensures exported.outcome.Err? ==>
      task.status == Error && task.error == Some(exported.outcome.error) && task.result == old(task.result)
  {
    var extra := if exported.outcome.Ok? && hasSink && finalizeError.Some? then [FinalizeLine(finalizeError.value)] else [];
    task.LogAll(clock, exported.progress + extra);
    match exported.outcome {
      case Ok(count) =>
        task.result := Some(Messages(Some(count)));
        task.status := Done;
      case Err(e) =>
        task.error := Some(e);
        task.status := Error;
    }
    task.finishedAt := Some(now);
  }

  /** The most log entries a status query returns. */
  const LogTail := 500

  /** `logs[-500:]`: the newest 500 entries, in order. */
  function LastLogs(logs: seq<string>): (r: seq<string>)
    ensures |r| == if |logs| < LogTail then |logs| else LogTail
    ensures r == logs[|logs| - |r|..]
  {
    if |logs| <= LogTail then logs else logs[|logs| - LogTail..]
  }

  /** One more entry in a full log drops the oldest returned entry. */
  lemma LastLogsSlide(logs: seq<string>, entry: string)
    requires |logs| >= LogTail
    ensures LastLogs(logs + [entry]) == LastLogs(logs)[1..] + [entry]
  {
    var l := logs + [entry];
    assert l[|l| - LogTail..] == logs[|logs| - LogTail..][1..] + [entry];
  }

  /** What `get_task` returns. */
  datatype TaskView = TaskView(status: string, logs: seq<string>, result: Option<TaskResult>, error: Option<string>,
                               startedAt: int, finishedAt: Option<int>)

  /** The task table, keyed by task id. */
  class Registry {
    var tasks: map<string, TaskState>

    constructor ()
      ensures tasks == map[]
    {
      tasks := map[];
    }

    /** An extract request's new task, stored under its fresh id. */
    method Register(id: string, now: int) returns (task: TaskState)
      modifies this
      ensures fresh(task)
      ensures tasks == old(tasks)[id := task]
      ensures task.status == Running && task.logs == [] && task.result == None && task.error == None
      ensures task.startedAt == now && task.finishedAt == None
    {
      task := new TaskState(now);
      tasks := tasks[id := task];
    }

    /** `get_task(task_id)`: 404 for an unknown id, else the task's state
        with only the newest 500 log entries. */
    method GetTask(id: string) returns (r: Result<TaskView, HttpError>)
      ensures id !in tasks ==> r == Err(HttpError(404, "Task not found"))
      ensures id in tasks ==> r.Ok?
      ensures id in tasks ==> var t := tasks[id];
        && r.value.status == StatusName(t.status)
        && r.value.logs == LastLogs(t.logs)
        && r.value.result == t.result && r.value.error == t.error
        && r.value.startedAt == t.startedAt && r.value.finishedAt == t.finishedAt
      ensures r.Ok? ==> |r.value.logs| <= LogTail
    {
      if id !in tasks {
        return Err(HttpError(404, "Task not found"));
      }
      var t := tasks[id];
      r := Ok(TaskView(StatusName(t.status), LastLogs(t.logs), t.result, t.error, t.startedAt, t.finishedAt));
    }
  }

  // ---------------------------------------------------------------------------
  // Extract requests

  /** The destination fields every extract request carries. */
  datatype ExtractRequest = ExtractRequest(
    out: Option<string>,
    format: Option<string>,
    notionApiKey: Option<string>,
    notionDestType: Option<string>,
    notionParentId: Option<string>,
    notionMode: Option<string>)

  /** The Notion sink a request asks for. */
  datatype SinkSpec = SinkSpec(apiKey: string, destType: string, parentId: string, mode: string)

  /** Where the export goes: a Notion sink (with a placeholder file path and
      format), or a file in a known format. */
  datatype Plan = Plan(sink: Option<SinkSpec>, format: string, outPath: string)

  const MissingOut := "Missing 'out' path for filesystem export"
  const MissingFormat := "Provide 'format' or use .jsonl/.csv extension"

  predicate WantsNotion(req: ExtractRequest) {
    Truthy(req.notionApiKey) && Truthy(req.notionParentId) && Truthy(req.notionDestType)
  }

  /** The checks at the top of the three extract endpoints; `sinkPath` is the
      endpoint's placeholder file under the application directory. */
  function PlanExtract(req: ExtractRequest, sinkPath: string): (r: Result<Plan, HttpError>)
    ensures WantsNotion(req) ==> r.Ok? && r.value.sink.Some?
    ensures !WantsNotion(req) ==> r.Ok? ==> r.value.sink.None?
    ensures r.Err? ==> r.error.status == 400
  {
    if WantsNotion(req) then
      var mode := if Truthy(req.notionMode) then req.notionMode.value else "per_message";
      Ok(Plan(Some(SinkSpec(req.notionApiKey.value, req.notionDestType.value, req.notionParentId.value, mode)),
              if Truthy(req.format) then req.format.value else "jsonl",
              if Truthy(req.out) then req.out.value else sinkPath))
    else if !Truthy(req.out) then Err(HttpError(400, MissingOut))
    else if Truthy(req.format) then Ok(Plan(None, req.format.value, req.out.value))
    else match FormatFromExtension(req.out.value)
      case Some(f) => Ok(Plan(None, f, req.out.value))
      case None => Err(HttpError(400, MissingFormat))
  }

  /** With all three Notion fields the request always proceeds to the sink,
      the format defaulting to "jsonl" and the path to the placeholder. */
  lemma NotionRequestAccepted(req: ExtractRequest, sinkPath: string)
    requires WantsNotion(req)
    ensures var r := PlanExtract(req, sinkPath);
      && r.Ok?
      && r.value.sink == Some(SinkSpec(req.notionApiKey.value, req.notionDestType.value, req.notionParentId.value,
                                       OrElse(req.notionMode, Some("per_message")).value))
      && r.value.format == (if Truthy(req.format) then req.format.value else "jsonl")
      && r.value.outPath == (if Truthy(req.out) then req.out.value else sinkPath)
  {
  }

  /** A file export is refused exactly when it has no path, or has neither a
      format nor a ".jsonl"/".csv" extension; otherwise the format is the
      given one or the extension's. */
  lemma FileRequestChecks(req: ExtractRequest, sinkPath: string)
    requires !WantsNotion(req)
    ensures var r := PlanExtract(req, sinkPath);
      && (!Truthy(req.out) ==> r == Err(HttpError(400, MissingOut)))
      && (Truthy(req.out) ==>
            (r.Err? <==> !Truthy(req.format) && FormatFromExtension(req.out.value).None?))
      && (r.Err? ==> r.error.detail in {MissingOut, MissingFormat})
      && (r.Ok? ==> (r.value.outPath == req.out.value
                     && r.value.format == DetectFormat(req.out.value, req.format).value))
  {
  }

  /** For a file export the server and the exporter agree on the format:
      the server accepts exactly what `detect_format` accepts. */
  lemma ServerAgreesWithExporter(req: ExtractRequest, sinkPath: string)
    requires !WantsNotion(req) && Truthy(req.out)
    ensures PlanExtract(req, sinkPath).Ok? <==> DetectFormat(req.out.value, req.format).Ok?
  {
  }

  /** A ".csv" name, in any letter case, is a CSV export without a format. */
  lemma CsvByName(req: ExtractRequest, stem: string, e: string, sinkPath: string)
    requires !WantsNotion(req) && !Truthy(req.format)
    requires stem != [] && stem[|stem| - 1] != '/' && stem[|stem| - 1] != '.'
    requires forall j :: 0 <= j < |e| ==> e[j] != '/' && e[j] != '.'
    requires Lower(e) == "csv" && req.out == Some(stem + "." + e)
    ensures PlanExtract(req, sinkPath) == Ok(Plan(None, "csv", stem + "." + e))
  {
    DetectFormatByName(stem, e);
  }

  // ---------------------------------------------------------------------------
  // Channel listings

  /** A Slack channel as `conversations_list` describes it. */
  datatype SlackChannel = SlackChannel(id: Option<string>, name: Option<string>, isPrivate: bool)

  /** One page of `conversations_list` and its `next_cursor`. */
  datatype SlackPage = SlackPage(channels: seq<SlackChannel>, nextCursor: Option<string>)

  datatype SlackItem = SlackItem(id: Option<string>, name: string, isPrivate: bool)

  function ChannelName(name: Option<string>): string {
    if Truthy(name) then name.value else ""
  }

  /** `not q or q in name.lower()`. */
  predicate NameMatches(q: string, name: string) {
    q == "" || Contains(Lower(name), q)
  }

  function SlackItemOf(c: SlackChannel): SlackItem {
    SlackItem(c.id, ChannelName(c.name), c.isPrivate)
  }

  /** The channels the listing walks: each page's, up to and including the
      first page without a cursor. */
  function Listed(pages: seq<SlackPage>): seq<SlackChannel>
    decreases |pages|
  {
    if pages == [] then []
    else pages[0].channels + (if Truthy(pages[0].nextCursor) then Listed(pages[1..]) else [])
  }

  /** The items for the channels whose names match `q`, in listing order. */
  function SlackMatches(cs: seq<SlackChannel>, q: string): seq<SlackItem> {
    MapSeq(Select(cs, (c: SlackChannel) => NameMatches(q, ChannelName(c.name))), SlackItemOf)
  }

  /** The first `n` items, none when `n` is not positive. */
  function Take<T>(xs: seq<T>, n: int): (r: seq<T>)
    ensures |r| <= |xs| && r == xs[..|r|]
    ensures |r| == if n <= 0 then 0 else if n < |xs| then n else |xs|
  {
    if n <= 0 then [] else if n < |xs| then xs[..n] else xs
  }

  lemma SlackMatchesSnoc(cs: seq<SlackChannel>, c: SlackChannel, q: string)
    ensures SlackMatches(cs + [c], q) ==
      SlackMatches(cs, q) + (if NameMatches(q, ChannelName(c.name)) then [SlackItemOf(c)] else [])
  {
    var keep := (c: SlackChannel) => NameMatches(q, ChannelName(c.name));
    SelectSnoc(cs, c, keep);
    MapSeqSnoc(Select(cs, keep), c, SlackItemOf);
  }

  /** Matching distributes over the concatenation of listings. */
  lemma {:induction false} SlackMatchesAppend(a: seq<SlackChannel>, b: seq<SlackChannel>, q: string)
    ensures SlackMatches(a + b, q) == SlackMatches(a, q) + SlackMatches(b, q)
    decreases |b|
  {
    if b == [] {
      assert a + b == a;
    } else {
      var b' := b[..|b| - 1];
      var c := b[|b| - 1];
      assert a + b == (a + b') + [c];
      assert b == b' + [c];
      SlackMatchesAppend(a, b', q);
      SlackMatchesSnoc(a + b', c, q);
      SlackMatchesSnoc(b', c, q);
    }
  }

  /** Once `n` items have been collected from a prefix, the rest of the
      listing adds nothing to the first `n`. */
  lemma TakeFull(seen: seq<SlackChannel>, rest: seq<SlackChannel>, q: string, n: int)
    requires |SlackMatches(seen, q)| == n
    ensures Take(SlackMatches(seen + rest, q), n) == SlackMatches(seen, q)
  {
    SlackMatchesAppend(seen, rest, q);
  }

  /** `slack_channels`: pages through `conversations_list` collecting the
      channels whose names contain the lower-cased query, stopping after
      `limit` of them or at the first page without a cursor. `pages` are the
      successive responses; the last carries no cursor. */
  method SlackChannels(query: Option<string>, limit: int, pages: seq<SlackPage>) returns (items: seq<SlackItem>)
    requires |pages| > 0 && !Truthy(pages[|pages| - 1].nextCursor)
    ensures items == Take(SlackMatches(Listed(pages), Lower(if Truthy(query) then query.value else "")), limit)
  {
    hide Listed;
    hide SlackMatches;
    hide Take;
    var q := Lower(if Truthy(query) then query.value else "");
    items := [];
    ghost var seen: seq<SlackChannel> := [];
    SlackMatchesNil(q);
    ListedFrom(pages);
    var p := 0;
    while |items| < limit
      invariant 0 <= p < |pages|
      invariant limit <= 0 ==> items == [] && seen == []
      invariant limit > 0 ==> |items| < limit
      invariant items == SlackMatches(seen, q)
      invariant Listed(pages) == seen + Listed(pages[p..])
      decreases |pages| - p
    {
      var page := pages[p];
      ListedStep(pages, p);
      var full;
      items, full := ScanPage(q, limit, seen, items, page.channels);
      if full {
        PageFull(pages, p, seen, q, limit);
        return;
      }
      if !Truthy(page.nextCursor) {
        PageLast(pages, p, seen, q, limit);
        return;
      }
      seen := seen + page.channels;
      assert p != |pages| - 1;
      p := p + 1;
    }
  }

  /** The limit reached inside page `p`: later pages change nothing. */
  lemma PageFull(pages: seq<SlackPage>, p: nat, seen: seq<SlackChannel>, q: string, limit: int)
    requires p < |pages| && Listed(pages) == seen + Listed(pages[p..])
    requires 0 < limit && |Take(SlackMatches(seen + pages[p].channels, q), limit)| == limit
    ensures Take(SlackMatches(Listed(pages), q), limit) == Take(SlackMatches(seen + pages[p].channels, q), limit)
  {
    hide SlackMatches;
    hide Take;
    var later := if Truthy(pages[p].nextCursor) then Listed(pages[p + 1..]) else [];
    ListedStep(pages, p);
    assert Listed(pages) == seen + pages[p].channels + later;
    SlackMatchesAppend(seen + pages[p].channels, later, q);
    TakeLonger(SlackMatches(seen + pages[p].channels, q), SlackMatches(later, q), limit);
  }

  /** Page `p` is the last one and the limit was not reached. */
  lemma PageLast(pages: seq<SlackPage>, p: nat, seen: seq<SlackChannel>, q: string, limit: int)
    requires p < |pages| && Listed(pages) == seen + Listed(pages[p..]) && !Truthy(pages[p].nextCursor)
    requires |SlackMatches(seen + pages[p].channels, q)| < limit
    ensures Take(SlackMatches(Listed(pages), q), limit) == SlackMatches(seen + pages[p].channels, q)
  {
    hide SlackMatches;
    hide Take;
    ListedStep(pages, p);
    assert Listed(pages) == (seen + pages[p].channels) + [];
    TakeAll(seen + pages[p].channels, [], q, limit);
  }

  lemma SlackMatchesNil(q: string)
    ensures SlackMatches([], q) == []
  {
  }

  lemma ListedFrom(pages: seq<SlackPage>)
    ensures Listed(pages) == [] + Listed(pages[0..])
  {
    assert pages[0..] == pages;
  }

  lemma ListedStep(pages: seq<SlackPage>, p: nat)
    requires p < |pages|
    ensures Listed(pages[p..]) ==
      pages[p].channels + (if Truthy(pages[p].nextCursor) then Listed(pages[p + 1..]) else [])
  {
    assert pages[p..][1..] == pages[p + 1..];
  }

  /** The inner loop over one page's channels; `full` when the limit was
      reached inside it. */
  method ScanPage(q: string, limit: int, ghost seen: seq<SlackChannel>, items0: seq<SlackItem>, channels: seq<SlackChannel>)
    returns (items: seq<SlackItem>, full: bool)
    requires |items0| < limit && items0 == SlackMatches(seen, q)
    ensures !full ==> items == SlackMatches(seen + channels, q) && |items| < limit
    ensures full ==> |items| == limit && items == Take(SlackMatches(seen + channels, q), limit)
  {
    items := items0;
    assert seen + channels[..0] == seen;
    hide SlackMatches;
    hide Take;
    for j := 0 to |channels|
      invariant |items| < limit && items == SlackMatches(seen + channels[..j], q)
    {
      var c := channels[j];
      ScanStep(seen, channels, j, q);
      if NameMatches(q, ChannelName(c.name)) {
        items := items + [SlackItemOf(c)];
        if |items| >= limit {
          ScanFull(seen, channels, j, q, limit);
          return items, true;
        }
      }
    }
    assert channels[..|channels|] == channels;
    full := false;
  }

  /** The matches after one more channel of the page. */
  lemma ScanStep(seen: seq<SlackChannel>, channels: seq<SlackChannel>, j: nat, q: string)
    requires j < |channels|
    ensures SlackMatches(seen + channels[..j + 1], q) == SlackMatches(seen + channels[..j], q)
      + (if NameMatches(q, ChannelName(channels[j].name)) then [SlackItemOf(channels[j])] else [])
  {
    assert seen + channels[..j + 1] == (seen + channels[..j]) + [channels[j]];
    SlackMatchesSnoc(seen + channels[..j], channels[j], q);
  }

  /** The limit reached at the j-th channel of the page: what follows adds nothing. */
  lemma ScanFull(seen: seq<SlackChannel>, channels: seq<SlackChannel>, j: nat, q: string, limit: int)
    requires j < |channels| && |SlackMatches(seen + channels[..j + 1], q)| == limit
    ensures Take(SlackMatches(seen + channels, q), limit) == SlackMatches(seen + channels[..j + 1], q)
  {
    TakeFull(seen + channels[..j + 1], channels[j + 1..], q, limit);
    assert seen + channels == (seen + channels[..j + 1]) + channels[j + 1..];
  }

  /** Taking `n` from a sequence already that long ignores what follows. */
  lemma TakeLonger<T>(xs: seq<T>, ys: seq<T>, n: int)
    requires 0 < n <= |xs|
    ensures Take(xs + ys, n) == Take(xs, n)
  {
    assert (xs + ys)[..n] == xs[..n];
  }

  /** Whatever has been collected, while fewer than `n`, is all of the
      first `n` when nothing follows. */
  lemma TakeAll(seen: seq<SlackChannel>, rest: seq<SlackChannel>, q: string, n: int)
    requires |SlackMatches(seen, q)| <= n
    requires rest == [] || |SlackMatches(seen, q)| == n
    ensures Take(SlackMatches(seen + rest, q), n) == SlackMatches(seen, q)
  {
    SlackMatchesAppend(seen, rest, q);
    if rest == [] {
      assert seen + rest == seen;
      assert SlackMatches(rest, q) == [];
    }
  }

  /** The listing never returns more than `limit` channels, and every one
      matches the query. */
  lemma SlackChannelsBounds(q: string, limit: int, cs: seq<SlackChannel>)
    ensures |Take(SlackMatches(cs, q), limit)| <= if limit < 0 then 0 else limit
    ensures forall item :: item in Take(SlackMatches(cs, q), limit) ==> NameMatches(q, item.name)
  {
    var keep := (c: SlackChannel) => NameMatches(q, ChannelName(c.name));
    SelectMapMembers(cs, keep, SlackItemOf);
    forall item | item in Take(SlackMatches(cs, q), limit)
      ensures NameMatches(q, item.name)
    {
      assert item in SlackMatches(cs, q);
    }
  }

  /** A Discord guild channel: its id, type and name. */
  datatype DiscordChannel = DiscordChannel(id: Option<string>, kind: Option<int>, name: Option<string>)

  datatype DiscordItem = DiscordItem(id: Option<string>, name: string)

  /** Text channels (type 0) whose names contain the query. */
  predicate Listable(q: string, c: DiscordChannel) {
    c.kind == Some(0) && NameMatches(q, ChannelName(c.name))
  }

  function DiscordItemOf(c: DiscordChannel): DiscordItem {
    DiscordItem(c.id, ChannelName(c.name))
  }

  const Forbidden := "Forbidden: bot likely missing permissions or not in guild"

  /** The guild's channel listing: its status, body text and channels. */
  datatype GuildReply = GuildReply(status: int, text: string, channels: seq<DiscordChannel>)

  /** `discord_channels`: 403 and other failures become errors; otherwise the
      text channels whose names contain the lower-cased query, in order. */
  method DiscordChannels(query: Option<string>, reply: GuildReply) returns (r: Result<seq<DiscordItem>, HttpError>)
    ensures reply.status == 403 ==> r == Err(HttpError(403, Forbidden))
    ensures reply.status != 403 && reply.status != 200 ==>
      r == Err(HttpError(400, "Discord API error: " + IntToString(reply.status) + " " + reply.text))
    ensures reply.status == 200 ==>
      var q := Lower(if Truthy(query) then query.value else "");
      r == Ok(MapSeq(Select(reply.channels, (c: DiscordChannel) => Listable(q, c)), DiscordItemOf))
  {
    if reply.status == 403 {
      return Err(HttpError(403, Forbidden));
    }
    if reply.status != 200 {
      return Err(HttpError(400, "Discord API error: " + IntToString(reply.status) + " " + reply.text));
    }
    var q := Lower(if Truthy(query) then query.value else "");
    var items := [];
    ListableNil(q, reply.channels);
    for i := 0 to |reply.channels|
      invariant items == MapSeq(Select(reply.channels[..i], (c: DiscordChannel) => Listable(q, c)), DiscordItemOf)
    {
      ListableStep(q, reply.channels, i);
      if Listable(q, reply.channels[i]) {
        items := items + [DiscordItemOf(reply.channels[i])];
      }
    }
    assert reply.channels[..|reply.channels|] == reply.channels;
    r := Ok(items);
  }

  lemma ListableNil(q: string, cs: seq<DiscordChannel>)
    ensures MapSeq(Select(cs[..0], (c: DiscordChannel) => Listable(q, c)), DiscordItemOf) == []
  {
  }

  /** The listing of one more channel. */
  lemma ListableStep(q: string, cs: seq<DiscordChannel>, i: nat)
    requires i < |cs|
    ensures var keep := (c: DiscordChannel) => Listable(q, c);
      MapSeq(Select(cs[..i + 1], keep), DiscordItemOf)
        == MapSeq(Select(cs[..i], keep), DiscordItemOf) + (if Listable(q, cs[i]) then [DiscordItemOf(cs[i])] else [])
  {
    var keep := (c: DiscordChannel) => Listable(q, c);
    assert cs[..i + 1] == cs[..i] + [cs[i]];
    SelectSnoc(cs[..i], cs[i], keep);
    if Listable(q, cs[i]) {
      MapSeqSnoc(Select(cs[..i], keep), cs[i], DiscordItemOf);
    }
  }

  /** The Discord listing holds exactly the text channels whose names
      contain the query. */
  lemma DiscordChannelsMembers(q: string, cs: seq<DiscordChannel>)
    ensures forall c :: c in cs && Listable(q, c) ==>
      DiscordItemOf(c) in MapSeq(Select(cs, (c: DiscordChannel) => Listable(q, c)), DiscordItemOf)
    ensures forall item :: item in MapSeq(Select(cs, (c: DiscordChannel) => Listable(q, c)), DiscordItemOf) ==>
      exists c :: c in cs && c.kind == Some(0) && NameMatches(q, item.name) && item == DiscordItemOf(c)
  {
    SelectMapMembers(cs, (c: DiscordChannel) => Listable(q, c), DiscordItemOf);
  }
}
