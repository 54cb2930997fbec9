/** The Notion relay: a client whose every request is retried on rate limits
    and server errors, the block builder that turns a row into page content,
    and the sink that either creates one page per row or groups rows into
    one page per day, written out in chunks when the export finishes. */
module Notion {
  import opened Common
  import opened Rows

  // ---------------------------------------------------------------------------
  // Requests

  /** One HTTP response: its status, `Retry-After` header and body text. */
  datatype Reply = Reply(status: int, retryAfter: Option<string>, content: string)

  /** The message of the NotionError a failed request raises. */
  function ApiError(status: int, text: string): string {
    "Notion API error " + IntToString(status) + ": " + text
  }

  /** What `_request` did: its result (the body, None for an empty body or
      when every attempt was rate limited, or the message of the exception it
      raised), the sleeps it took, and how many requests it sent. */
  datatype Outcome = Outcome(result: Result<Option<string>, string>, waits: seq<nat>, sent: nat)

  /** The attempts of `_request` from `attempt` on; `reply(i)` answers the
      i-th request. */
  function RequestFrom(reply: nat -> Reply, attempt: nat): (o: Outcome)
    ensures attempt < 5 ==> 1 <= o.sent <= 5 - attempt
    ensures attempt >= 5 ==> o == Outcome(Ok(None), [], 0)
    ensures |o.waits| <= o.sent
    ensures forall i :: 0 <= i < |o.waits| ==> o.waits[i] >= 1
    decreases 5 - attempt
  {
    if attempt >= 5 then Outcome(Ok(None), [], 0)
    else
      var r := reply(attempt);
      if r.status == 429 then
        match RetryWait(r.retryAfter)
        case Err(e) => Outcome(Err(e), [], 1)
        case Ok(w) =>
          var rest := RequestFrom(reply, attempt + 1);
          Outcome(rest.result, [w] + rest.waits, 1 + rest.sent)
      else if 200 <= r.status < 300 then
        Outcome(Ok(if r.content != "" then Some(r.content) else None), [], 1)
      else if 500 <= r.status < 600 && attempt < 4 then
        var rest := RequestFrom(reply, attempt + 1);
        Outcome(rest.result, [1 + attempt] + rest.waits, 1 + rest.sent)
      else Outcome(Err(ApiError(r.status, r.content)), [], 1)
  }

  /** The outcome `o` of later attempts, after sleeps `waits` and `sent`
      earlier requests. */
  function Prepend(waits: seq<nat>, sent: nat, o: Outcome): Outcome {
    Outcome(o.result, waits + o.waits, sent + o.sent)
  }

  /** One attempt of `_request`, case by case. */
  lemma RequestStep(reply: nat -> Reply, attempt: nat)
    requires attempt < 5
    ensures var r := reply(attempt);
      var rest := RequestFrom(reply, attempt + 1);
      var o := RequestFrom(reply, attempt);
      && (r.status == 429 && RetryWait(r.retryAfter).Err? ==> o == Outcome(Err(RetryWait(r.retryAfter).error), [], 1))
      && (r.status == 429 && RetryWait(r.retryAfter).Ok? ==> o == Prepend([RetryWait(r.retryAfter).value], 1, rest))
      && (r.status != 429 && 200 <= r.status < 300 ==> o == Outcome(Ok(if r.content != "" then Some(r.content) else None), [], 1))
      && (r.status != 429 && !(200 <= r.status < 300) && 500 <= r.status < 600 && attempt < 4 ==>
            o == Prepend([1 + attempt], 1, rest))
      && (r.status != 429 && !(200 <= r.status < 300) && !(500 <= r.status < 600 && attempt < 4) ==>
            o == Outcome(Err(ApiError(r.status, r.content)), [], 1))
  {
  }

  /** `NotionClient._request`: at most five attempts; a 429 sleeps
      `max(1, Retry-After)` and a 5xx `1 + attempt` seconds before the next,
      a 2xx returns, anything else raises. */
  method Request(reply: nat -> Reply) returns (result: Result<Option<string>, string>, waits: seq<nat>, sent: nat)
    ensures Outcome(result, waits, sent) == RequestFrom(reply, 0)
  {
    waits, sent := [], 0;
    var attempt := 0;
    while attempt < 5
      invariant 0 <= attempt <= 5 && sent == attempt
      invariant RequestFrom(reply, 0) == Prepend(waits, attempt, RequestFrom(reply, attempt))
    {
      RequestStep(reply, attempt);
      hide RequestFrom;
      var r := reply(attempt);
      sent := sent + 1;
      if r.status == 429 {
        var wait := RetryWait(r.retryAfter);
        if wait.Err? {
          return Err(wait.error), waits, sent;
        }
        assert waits + ([wait.value] + RequestFrom(reply, attempt + 1).waits)
          == (waits + [wait.value]) + RequestFrom(reply, attempt + 1).waits;
        waits := waits + [wait.value];
        attempt := attempt + 1;
        continue;
      }
      if 200 <= r.status < 300 {
        result := Ok(if r.content != "" then Some(r.content) else None);
        return;
      }
      if 500 <= r.status < 600 && attempt < 4 {
        assert waits + ([1 + attempt] + RequestFrom(reply, attempt + 1).waits)
          == (waits + [1 + attempt]) + RequestFrom(reply, attempt + 1).waits;
        waits := waits + [1 + attempt];
        attempt := attempt + 1;
        continue;
      }
      return Err(ApiError(r.status, r.content)), waits, sent;
    }
    result := Ok(None);
  }

  predicate RateLimited(r: Reply) {
    r.status == 429 && RetryWait(r.retryAfter).Ok?
  }

  /** When every attempt from `attempt` on is rate limited, the request
      returns None without raising, having sent every remaining attempt. */
  lemma {:induction false} RateLimitedFrom(reply: nat -> Reply, attempt: nat)
    requires attempt <= 5
    requires forall i :: attempt <= i < 5 ==> RateLimited(reply(i))
    ensures RequestFrom(reply, attempt).result == Ok(None)
    ensures RequestFrom(reply, attempt).sent == 5 - attempt
    decreases 5 - attempt
  {
    if attempt < 5 {
      RateLimitedFrom(reply, attempt + 1);
    }
  }

  /** Five rate-limited answers: `_request` gives up and returns None. */
  lemma AllRateLimited(reply: nat -> Reply)
    requires forall i :: 0 <= i < 5 ==> RateLimited(reply(i))
    ensures RequestFrom(reply, 0).result == Ok(None) && RequestFrom(reply, 0).sent == 5
  {
    RateLimitedFrom(reply, 0);
  }

  predicate ServerError(r: Reply) {
    500 <= r.status < 600
  }

  /** Server errors from `attempt` on are retried after 1 + attempt seconds
      until the fifth attempt, whose error is raised. */
  lemma {:induction false} ServerErrorsFrom(reply: nat -> Reply, attempt: nat)
    requires attempt < 5
    requires forall i :: attempt <= i < 5 ==> ServerError(reply(i))
    ensures RequestFrom(reply, attempt).result == Err(ApiError(reply(4).status, reply(4).content))
    ensures RequestFrom(reply, attempt).sent == 5 - attempt
    ensures |RequestFrom(reply, attempt).waits| == 4 - attempt
    ensures forall i :: 0 <= i < 4 - attempt ==> RequestFrom(reply, attempt).waits[i] == 1 + attempt + i
    decreases 5 - attempt
  {
    if attempt < 4 {
      ServerErrorsFrom(reply, attempt + 1);
    }
  }

  /** Five server errors: sleeps of 1, 2, 3 and 4 seconds, then the fifth
      error is raised. */
  lemma AllServerErrors(reply: nat -> Reply)
    requires forall i :: 0 <= i < 5 ==> ServerError(reply(i))
    ensures RequestFrom(reply, 0).result == Err(ApiError(reply(4).status, reply(4).content))
    ensures RequestFrom(reply, 0).waits == [1, 2, 3, 4]
  {
    ServerErrorsFrom(reply, 0);
  }

  /** A status that is neither 429, 2xx nor 5xx is raised at once, and a 2xx
      returns its body at once. */
  lemma NoRetry(reply: nat -> Reply, attempt: nat)
    requires attempt < 5
    ensures var r := reply(attempt);
      r.status != 429 && !(200 <= r.status < 300) && !ServerError(r) ==>
        RequestFrom(reply, attempt) == Outcome(Err(ApiError(r.status, r.content)), [], 1)
    ensures var r := reply(attempt);
      200 <= r.status < 300 ==>
        RequestFrom(reply, attempt).sent == 1
        && RequestFrom(reply, attempt).result == Ok(if r.content == "" then None else Some(r.content))
  {
  }

  // ---------------------------------------------------------------------------
  // Databases, pages and blocks

  /** A database property: its name and its `type`. */
  datatype Property = Property(name: string, kind: Option<string>)

  predicate IsTitle(p: Property) {
    p.kind == Some("title")
  }

  function FirstTitle(props: seq<Property>): (k: int)
    ensures k < 0 <==> forall i :: 0 <= i < |props| ==> !IsTitle(props[i])
    ensures k >= 0 ==> k < |props| && IsTitle(props[k]) && forall i :: 0 <= i < k ==> !IsTitle(props[i])
    decreases |props|
  {
    if props == [] then -1
    else if IsTitle(props[0]) then 0
    else
      var k := FirstTitle(props[1..]);
      if k < 0 then -1 else k + 1
  }

  /** `find_title_property_name`: the first property of type "title", in the
      database's order, else "Name". */
  function TitlePropertyName(props: seq<Property>): (name: string)
    ensures (forall i :: 0 <= i < |props| ==> !IsTitle(props[i])) ==> name == "Name"
    ensures (exists i :: 0 <= i < |props| && IsTitle(props[i])) ==>
      exists i :: 0 <= i < |props| && IsTitle(props[i]) && props[i].name == name
        && forall j :: 0 <= j < i ==> !IsTitle(props[j])
  {
    var k := FirstTitle(props);
    if k < 0 then "Name" else props[k].name
  }

  /** A block of page content. */
  datatype Block = Paragraph(content: string) | Divider

  /** The most characters a title or a paragraph carries. */
  const MaxText := 2000

  /** One request the client sends. */
  datatype Call =
    | GetDatabase(databaseId: string)
    | CreateInDatabase(databaseId: string, titleProp: string, title: string, children: seq<Block>)
    | CreateChild(parentId: string, title: string, children: seq<Block>)
    | AppendChildren(pageId: Option<string>, children: seq<Block>)

  /** `create_page_in_database`: the title is cut to 2000 characters. */
  function PageInDatabase(databaseId: string, titleProp: string, title: string, children: seq<Block>): (c: Call)
    ensures c.CreateInDatabase? && c.databaseId == databaseId && c.titleProp == titleProp && c.children == children
    ensures |c.title| <= MaxText && |c.title| <= |title| && c.title == title[..|c.title|]
    ensures |title| <= MaxText ==> c.title == title
    ensures |title| > MaxText ==> |c.title| == MaxText
  {
    CreateInDatabase(databaseId, titleProp, Truncate(title, MaxText), children)
  }

  /** `create_child_page`: the title is cut to 2000 characters. */
  function ChildPage(parentId: string, title: string, children: seq<Block>): (c: Call)
    ensures c.CreateChild? && c.parentId == parentId && c.children == children
    ensures |c.title| <= MaxText && |c.title| <= |title| && c.title == title[..|c.title|]
    ensures |title| <= MaxText ==> c.title == title
    ensures |title| > MaxText ==> |c.title| == MaxText
  {
    CreateChild(parentId, Truncate(title, MaxText), children)
  }

  /** `add_paragraph`: nothing for empty text, else one paragraph of at most
      2000 characters. */
  function AddParagraph(text: string): (bs: seq<Block>)
    ensures text == "" <==> bs == []
    ensures forall b :: b in bs ==> ShortParagraph(b)
    ensures bs != [] ==> bs == [Paragraph(Truncate(text, MaxText))]
  {
    if text == "" then [] else [Paragraph(Truncate(text, MaxText))]
  }

  const Bullet := " \U{2022} "

  /** `f"{chat_title} • {id} • {date}"`. */
  function TitleLine(row: Row): (s: string)
    ensures s != ""
  {
    Show(row.chatTitle) + Bullet + Show(row.id) + Bullet + Show(row.date)
  }

  function SenderLine(row: Row): (s: string)
    ensures s != ""
  {
    "Sender: " + Show(OrValue(OrValue(row.senderDisplay, row.senderUsername), row.senderId))
  }

  function MediaLine(row: Row): string {
    "Media: " + Show(row.mediaType) + " " + Show(OrValue(row.mediaFileName, VStr("")))
  }

  predicate HasReply(row: Row) {
    TruthyValue(row.replyToId)
  }

  predicate HasMediaPath(row: Row) {
    row.media && row.mediaPath.Some? && TruthyValue(row.mediaPath.value)
  }

  predicate HasText(row: Row) {
    TruthyValue(row.text)
  }

  function Count(b: bool): nat {
    if b then 1 else 0
  }

  /** A non-empty paragraph of at most 2000 characters. */
  predicate ShortParagraph(b: Block) {
    b.Paragraph? && 0 < |b.content| <= MaxText
  }

  /** `make_blocks_from_row`: the title line, the sender line, then the reply,
      media and media path lines when they apply, then the text. */
  function MakeBlocks(row: Row): (blocks: seq<Block>)
    ensures |blocks| == 2 + Count(HasReply(row)) + Count(row.media) + Count(HasMediaPath(row)) + Count(HasText(row))
    ensures 2 <= |blocks| <= 6
    ensures forall b :: b in blocks ==> ShortParagraph(b)
    ensures blocks[0] == Paragraph(Truncate(TitleLine(row), MaxText))
    ensures blocks[1] == Paragraph(Truncate(SenderLine(row), MaxText))
    ensures HasText(row) ==> blocks[|blocks| - 1] == Paragraph(Truncate(Show(row.text), MaxText))
  {
    var head := AddParagraph(TitleLine(row)) + AddParagraph(SenderLine(row));
    var reply := ParagraphIf(HasReply(row), "Reply to: " + Show(row.replyToId));
    var media := ParagraphIf(row.media, MediaLine(row));
    var path := ParagraphIf(HasMediaPath(row), "Media path: " + Show(row.mediaPath.GetOr(VNone)));
    assert HasText(row) ==> Show(row.text) != "";
    var text := ParagraphIf(HasText(row), Show(row.text));
    head + reply + media + path + text
  }

  /** A paragraph of `text` when `cond` holds and the text is not empty. */
  function ParagraphIf(cond: bool, text: string): (bs: seq<Block>)
    ensures |bs| == Count(cond && text != "")
    ensures forall b :: b in bs ==> ShortParagraph(b)
    ensures bs != [] ==> bs[0] == Paragraph(Truncate(text, MaxText))
  {
    if cond then AddParagraph(text) else []
  }

  // ---------------------------------------------------------------------------
  // Finalizing grouped pages

  /** How the service answers a call: a JSON object (with its `id`, if any),
      no body (`_request` returned None), or an exception. */
  datatype Answer = Returned(pageId: Option<string>) | ReturnedNothing | Failed(error: string)

  /** The calls a piece of work issued, the lines it logged, and the
      exception that ended it, if one did. */
  datatype Issued = Issued(calls: seq<Call>, log: seq<string>, error: Option<string>)

  const Nothing := Issued([], [], None)

  /** `a`, then `b` unless `a` raised. */
  function Then(a: Issued, b: Issued): Issued {
    if a.error.Some? then a else Issued(a.calls + b.calls, a.log + b.log, b.error)
  }

  lemma ThenNothing(a: Issued)
    ensures Then(Nothing, a) == a
  {
  }

  lemma ThenUnit(a: Issued)
    ensures Then(a, Nothing) == a
  {
  }

  lemma ThenOk(a: Issued, b: Issued)
    requires a.error.None?
    ensures Then(a, b) == Issued(a.calls + b.calls, a.log + b.log, b.error)
  {
  }

  lemma ThenErr(a: Issued, b: Issued)
    requires a.error.Some?
    ensures Then(a, b) == a
  {
  }

  lemma ThenAssoc(a: Issued, b: Issued, c: Issued)
    ensures Then(Then(a, b), c) == Then(a, Then(b, c))
  {
  }

  /** `blocks[i:i+80]` for i = 0, 80, 160, ... */
  function Chunks(blocks: seq<Block>): seq<seq<Block>>
    decreases |blocks|
  {
    if blocks == [] then []
    else if |blocks| <= 80 then [blocks]
    else [blocks[..80]] + Chunks(blocks[80..])
  }

  function Flatten(chunks: seq<seq<Block>>): seq<Block>
    decreases |chunks|
  {
    if chunks == [] then [] else chunks[0] + Flatten(chunks[1..])
  }

  /** There are ceil(n/80) chunks, each of 1 to 80 blocks, and together they
      are the blocks, in order. */
  lemma {:induction false} ChunksShape(blocks: seq<Block>)
    ensures |Chunks(blocks)| == (|blocks| + 79) / 80
    ensures forall i :: 0 <= i < |Chunks(blocks)| ==> 0 < |Chunks(blocks)[i]| <= 80
    ensures Flatten(Chunks(blocks)) == blocks
    decreases |blocks|
  {
    if |blocks| > 80 {
      ChunksShape(blocks[80..]);
      assert blocks == blocks[..80] + blocks[80..];
    } else if blocks != [] {
      assert Flatten([blocks]) == blocks + [];
    }
  }

  /** `append_children(page_id, chunk)` for each chunk, stopping at the first
      that raises. */
  function AppendAll(pageId: Option<string>, chunks: seq<seq<Block>>, answer: Call -> Answer): (r: Issued)
    ensures r.log == [] && |r.calls| <= |chunks|
    decreases |chunks|
  {
    if chunks == [] then Nothing
    else
      var c := AppendChildren(pageId, chunks[0]);
      if answer(c).Failed? then Issued([c], [], Some(answer(c).error))
      else Then(Issued([c], [], None), AppendAll(pageId, chunks[1..], answer))
  }

  /** The chunk that starts at `i`, and the chunks after it. */
  lemma ChunkAt(blocks: seq<Block>, i: nat)
    requires i < |blocks|
    ensures var end := if i + 80 < |blocks| then i + 80 else |blocks|;
      Chunks(blocks[i..]) == [blocks[i..end]] + Chunks(blocks[end..])
  {
    var end := if i + 80 < |blocks| then i + 80 else |blocks|;
    if |blocks[i..]| > 80 {
      assert blocks[i..][..80] == blocks[i..end];
      assert blocks[i..][80..] == blocks[end..];
    } else {
      assert blocks[i..] == blocks[i..end];
      assert blocks[end..] == [];
    }
  }

  lemma ChunksNil(blocks: seq<Block>)
    requires blocks == []
    ensures Chunks(blocks) == []
  {
  }

  lemma AppendAllNil(pageId: Option<string>, answer: Call -> Answer)
    ensures AppendAll(pageId, [], answer) == Nothing
  {
  }

  /** One chunk of AppendAll. */
  lemma AppendAllStep(pageId: Option<string>, chunk: seq<Block>, rest: seq<seq<Block>>, answer: Call -> Answer)
    ensures var c := AppendChildren(pageId, chunk);
      AppendAll(pageId, [chunk] + rest, answer)
        == if answer(c).Failed? then Issued([c], [], Some(answer(c).error))
           else Then(Issued([c], [], None), AppendAll(pageId, rest, answer))
  {
    assert ([chunk] + rest)[1..] == rest;
  }

  /** The AttributeError of `pg.get("id")` when `_request` returned None. */
  const NoneGetError := "'NoneType' object has no attribute 'get'"

  function DayTitle(chatTitle: Option<string>, day: string): string {
    (if Truthy(chatTitle) then chatTitle.value else "") + Bullet + day
  }

  function DayLine(day: string, n: nat): string {
    "Notion: wrote day page " + day + " with " + NatToString(n) + " blocks"
  }

  /** One day of `finalize`: an empty child page, then its blocks appended in
      chunks, then the progress line. */
  function DayRun(parentId: string, chatTitle: Option<string>, day: string, blocks: seq<Block>, answer: Call -> Answer): Issued {
    var create := ChildPage(parentId, DayTitle(chatTitle, day), []);
    match answer(create)
    case Failed(e) => Issued([create], [], Some(e))
    case ReturnedNothing => Issued([create], [], Some(NoneGetError))
    case Returned(pageId) =>
      Then(Issued([create], [], None), Then(AppendAll(pageId, Chunks(blocks), answer), Issued([], [DayLine(day, |blocks|)], None)))
  }

  lemma DayRunCases(parentId: string, chatTitle: Option<string>, day: string, blocks: seq<Block>, answer: Call -> Answer)
    ensures var create := ChildPage(parentId, DayTitle(chatTitle, day), []);
      var run := DayRun(parentId, chatTitle, day, blocks, answer);
      && (answer(create).Failed? ==> run == Issued([create], [], Some(answer(create).error)))
      && (answer(create).ReturnedNothing? ==> run == Issued([create], [], Some(NoneGetError)))
      && (answer(create).Returned? ==>
            run == Then(Issued([create], [], None),
                        Then(AppendAll(answer(create).pageId, Chunks(blocks), answer), Issued([], [DayLine(day, |blocks|)], None))))
  {
  }

  /** `finalize` over these days, in order. */
  function DaysRun(parentId: string, chatTitle: Option<string>, days: seq<string>, group: map<string, seq<Block>>,
                   answer: Call -> Answer): Issued
    requires forall d :: d in days ==> d in group
    decreases |days|
  {
    if days == [] then Nothing
    else Then(DayRun(parentId, chatTitle, days[0], group[days[0]], answer), DaysRun(parentId, chatTitle, days[1..], group, answer))
  }

  lemma DaysRunNil(parentId: string, chatTitle: Option<string>, days: seq<string>,
                   group: map<string, seq<Block>>, answer: Call -> Answer)
    requires days == []
    ensures DaysRun(parentId, chatTitle, days, group, answer) == Nothing
  {
  }

  lemma DaysRunStep(parentId: string, chatTitle: Option<string>, days: seq<string>, j: nat,
                    group: map<string, seq<Block>>, answer: Call -> Answer)
    requires j < |days| && forall d :: d in days ==> d in group
    ensures DaysRun(parentId, chatTitle, days[j..], group, answer)
      == Then(DayRun(parentId, chatTitle, days[j], group[days[j]], answer), DaysRun(parentId, chatTitle, days[j + 1..], group, answer))
  {
    assert days[j..][1..] == days[j + 1..];
  }

  /** When nothing raises, the chunks are appended one call each, in order. */
  lemma {:induction false} AppendAllCalls(pageId: Option<string>, chunks: seq<seq<Block>>, answer: Call -> Answer)
    requires forall i :: 0 <= i < |chunks| ==> !answer(AppendChildren(pageId, chunks[i])).Failed?
    ensures AppendAll(pageId, chunks, answer).error.None?
    ensures AppendAll(pageId, chunks, answer).log == []
    ensures |AppendAll(pageId, chunks, answer).calls| == |chunks|
    ensures forall i :: 0 <= i < |chunks| ==> AppendAll(pageId, chunks, answer).calls[i] == AppendChildren(pageId, chunks[i])
    decreases |chunks|
  {
    if chunks != [] {
      AppendAllCalls(pageId, chunks[1..], answer);
    }
  }

  /** A day whose page is created and whose appends all succeed issues one
      creation and ceil(n/80) appends of consecutive chunks of at most 80
      blocks, which together are the day's blocks. */
  lemma DayCalls(parentId: string, chatTitle: Option<string>, day: string, blocks: seq<Block>, answer: Call -> Answer,
                 pageId: Option<string>)
    requires answer(ChildPage(parentId, DayTitle(chatTitle, day), [])) == Returned(pageId)
    requires forall c :: c in Chunks(blocks) ==> !answer(AppendChildren(pageId, c)).Failed?
    ensures var run := DayRun(parentId, chatTitle, day, blocks, answer);
      && run.error.None?
      && run.log == [DayLine(day, |blocks|)]
      && |Chunks(blocks)| == (|blocks| + 79) / 80
      && |run.calls| == 1 + |Chunks(blocks)|
      && run.calls[0] == ChildPage(parentId, DayTitle(chatTitle, day), [])
      && (forall i :: 1 <= i < |run.calls| ==> run.calls[i] == AppendChildren(pageId, Chunks(blocks)[i - 1]))
      && (forall i :: 1 <= i < |run.calls| ==> 0 < |run.calls[i].children| <= 80)
      && Flatten(Chunks(blocks)) == blocks
  {
    var chunks := Chunks(blocks);
    forall i | 0 <= i < |chunks|
      ensures !answer(AppendChildren(pageId, chunks[i])).Failed?
    {
      assert chunks[i] in chunks;
    }
    AppendAllCalls(pageId, chunks, answer);
    ChunksShape(blocks);
  }

  // ---------------------------------------------------------------------------
  // The sink

  predicate IsDatabase(destType: string) {
    StartsWith(Lower(destType), "data")
  }

  predicate IsPage(destType: string) {
    StartsWith(Lower(destType), "page")
  }

  /** Rows are grouped by day only in `group_by_day` mode under a page. */
  predicate Grouping(mode: string, destType: string) {
    mode == "group_by_day" && IsPage(destType)
  }

  /** `(row.get('date') or '')[:10]`. */
  function DayOf(row: Row): (d: string)
    ensures |d| <= 10
  {
    Truncate(if TruthyValue(row.date) then Show(row.date) else "", 10)
  }

  function QueuedLine(day: string, row: Row): string {
    "Queued for " + day + ": message " + Show(row.id)
  }

  function WroteLine(row: Row): string {
    "Notion: wrote message " + Show(row.id)
  }

  /** The page created for one row outside grouping: in the database with
      its title property, or as a child of the page. */
  function PageCall(destType: string, parentId: string, titleProp: Option<string>, row: Row): (c: Call)
    ensures IsDatabase(destType) && titleProp.Some? ==> c.CreateInDatabase?
    ensures !IsDatabase(destType) ==> c.CreateChild?
    ensures (c.CreateInDatabase? || c.CreateChild?) && c.children == MakeBlocks(row)
  {
    if IsDatabase(destType) && titleProp.Some? then PageInDatabase(parentId, titleProp.value, TitleLine(row), MakeBlocks(row))
    else ChildPage(parentId, TitleLine(row), MakeBlocks(row))
  }

  function ErrorOf(a: Answer): Option<string> {
    if a.Failed? then Some(a.error) else None
  }

  /** `NotionSink`: its destination, the day groups in the order their days
      first appeared, and (as a record of its effects) the calls it sent and
      the lines it logged. */
  class NotionSink {
    const destType: string
    const parentId: string
    const mode: string
    const titleProp: Option<string>
    var days: seq<string>
    var group: map<string, seq<Block>>
    var calls: seq<Call>
    var log: seq<string>

    /** Each day is grouped once, in first-seen order; only a grouping sink
        has groups; a database destination knows its title property. */
    ghost predicate Valid()
      reads this
    {
      && (forall d :: d in group <==> d in days)
      && (forall i, j :: 0 <= i < j < |days| ==> days[i] != days[j])
      && (group != map[] ==> Grouping(mode, destType))
      && (IsDatabase(destType) <==> titleProp.Some?)
    }

    /** `NotionSink(...)`: for a database, reads it (`props` are its
        properties) to learn the title property. */
    constructor (destType: string, parentId: string, mode: string, props: seq<Property>)
      ensures Valid()
      ensures this.destType == destType && this.parentId == parentId && this.mode == mode
      ensures days == [] && group == map[] && log == []
      ensures IsDatabase(destType) ==> titleProp == Some(TitlePropertyName(props)) && calls == [GetDatabase(parentId)]
      ensures !IsDatabase(destType) ==> titleProp == None && calls == []
    {
      this.destType := destType;
      this.parentId := parentId;
      this.mode := mode;
      days, group, log := [], map[], [];
      if IsDatabase(destType) {
        titleProp := Some(TitlePropertyName(props));
        calls := [GetDatabase(parentId)];
      } else {
        titleProp := None;
        calls := [];
      }
    }

    /** `sink(row, ...)`: grouping queues the row's blocks and a divider under
        its day and calls nothing; otherwise one page is created for the row.
        Returns the exception the call raised, if any. */
    method Write(row: Row, answer: Call -> Answer) returns (error: Option<string>)
      requires Valid()
      modifies this
      ensures Valid()
      ensures Grouping(mode, destType) ==>
        var d := DayOf(row);
        && error.None? && calls == old(calls)
        && days == old(days) + (if d in old(group) then [] else [d])
        && group == old(group)[d := (if d in old(group) then old(group)[d] else []) + (MakeBlocks(row) + [Divider])]
        && log == old(log) + [QueuedLine(d, row)]
    ensures !Grouping(mode, destType) ==>
        var c := PageCall(destType, parentId, titleProp, row);
        && days == old(days) && group == old(group)
        && calls == old(calls) + [c]
        && error == ErrorOf(answer(c))
        && log == old(log) + (if error.None? then [WroteLine(row)] else [])
    {
      if Grouping(mode, destType) {
        var d := DayOf(row);
        var blocks := MakeBlocks(row) + [Divider];
        if d in group {
          group := group[d := group[d] + blocks];
        } else {
          assert [] + blocks == blocks;
          group := group[d := blocks];
          days := days + [d];
        }
        log := log + [QueuedLine(d, row)];
        return None;
      }
      var c := PageCall(destType, parentId, titleProp, row);
      calls := calls + [c];
      error := ErrorOf(answer(c));
      if error.None? {
        log := log + [WroteLine(row)];
      }
    }

    /** The chunk loop of one day: `for i in range(0, len(blocks), 80)`. */
    method AppendChunks(pageId: Option<string>, blocks: seq<Block>, answer: Call -> Answer) returns (error: Option<string>)
      modifies this
      ensures days == old(days) && group == old(group) && log == old(log)
      ensures var run := AppendAll(pageId, Chunks(blocks), answer);
        calls == old(calls) + run.calls && error == run.error
    {
      var sent: seq<Call> := [];
      var i := 0;
      error := None;
      ThenNothing(AppendAll(pageId, Chunks(blocks), answer));
      assert blocks[0..] == blocks;
      hide Chunks;
      hide AppendAll;
      hide Then;
      while i < |blocks| && error.None?
        modifies {}
        invariant 0 <= i <= |blocks|
        invariant error.None? ==>
          Then(Issued(sent, [], None), AppendAll(pageId, Chunks(blocks[i..]), answer))
            == AppendAll(pageId, Chunks(blocks), answer)
        invariant error.Some? ==> Issued(sent, [], error) == AppendAll(pageId, Chunks(blocks), answer)
        decreases |blocks| - i, if error.None? then 1 else 0
      {
        var end := if i + 80 < |blocks| then i + 80 else |blocks|;
        var chunk := blocks[i..end];
        ChunkAt(blocks, i);
        var c := AppendChildren(pageId, chunk);
        AppendAllStep(pageId, chunk, Chunks(blocks[end..]), answer);
        if answer(c).Failed? {
          ThenOk(Issued(sent, [], None), Issued([c], [], Some(answer(c).error)));
          error := Some(answer(c).error);
        } else {
          ThenAssoc(Issued(sent, [], None), Issued([c], [], None), AppendAll(pageId, Chunks(blocks[end..]), answer));
          ThenOk(Issued(sent, [], None), Issued([c], [], None));
          i := end;
        }
        sent := sent + [c];
      }
      if error.None? {
        assert blocks[i..] == [];
        ChunksNil(blocks[i..]);
        AppendAllNil(pageId, answer);
        ThenOk(Issued(sent, [], None), Nothing);
      }
      calls := calls + sent;
    }

    /** One day of `finalize`. */
    method FinalizeDay(chatTitle: Option<string>, day: string, blocks: seq<Block>, answer: Call -> Answer)
      returns (error: Option<string>)
      modifies this
      ensures days == old(days) && group == old(group)
      ensures var run := DayRun(parentId, chatTitle, day, blocks, answer);
        calls == old(calls) + run.calls && log == old(log) + run.log && error == run.error
    {
      DayRunCases(parentId, chatTitle, day, blocks, answer);
      hide DayRun;
      hide Then;
      hide AppendAll;
      hide Chunks;
      var create := ChildPage(parentId, DayTitle(chatTitle, day), []);
      calls := calls + [create];
      var pg := answer(create);
      if pg.Failed? {
        return Some(pg.error);
      }
      if pg.ReturnedNothing? {
        return Some(NoneGetError);
      }
      ghost var appended := AppendAll(pg.pageId, Chunks(blocks), answer);
      ghost var tail := Issued([], [DayLine(day, |blocks|)], None);
      ThenOk(Issued([create], [], None), Then(appended, tail));
      error := AppendChunks(pg.pageId, blocks, answer);
      if error.None? {
        ThenOk(appended, tail);
        log := log + [DayLine(day, |blocks|)];
      } else {
        ThenErr(appended, tail);
      }
    }

    /** `finalize(chat_title)`: nothing unless grouping by day with groups;
        then each day in turn, stopping at the first exception. */
    method Finalize(chatTitle: Option<string>, answer: Call -> Answer) returns (error: Option<string>)
      requires Valid()
      modifies this
      ensures Valid() && days == old(days) && group == old(group)
      ensures !(mode == "group_by_day" && old(group) != map[]) ==>
        calls == old(calls) && log == old(log) && error.None?
      ensures mode == "group_by_day" && old(group) != map[] ==>
        var run := DaysRun(parentId, chatTitle, days, group, answer);
        calls == old(calls) + run.calls && log == old(log) + run.log && error == run.error
    {
      if mode != "group_by_day" || group == map[] {
        return None;
      }
      error := FinalizeDays(chatTitle, answer);
    }

    /** The loop of `finalize` over the days, in first-seen order. */
    method FinalizeDays(chatTitle: Option<string>, answer: Call -> Answer) returns (error: Option<string>)
      requires forall d :: d in days ==> d in group
      modifies this
      ensures days == old(days) && group == old(group)
      ensures var run := DaysRun(parentId, chatTitle, days, group, answer);
        calls == old(calls) + run.calls && log == old(log) + run.log && error == run.error
    {
      hide DayRun;
      hide DaysRun;
      hide Then;
      ghost var done := Nothing;
      ThenNothing(DaysRun(parentId, chatTitle, days, group, answer));
      var j := 0;
      while j < |days|
        invariant 0 <= j <= |days|
        invariant days == old(days) && group == old(group)
        invariant done.error.None?
        invariant calls == old(calls) + done.calls && log == old(log) + done.log
        invariant Then(done, DaysRun(parentId, chatTitle, days[j..], group, answer))
          == DaysRun(parentId, chatTitle, days, group, answer)
      {
        var day := days[j];
        ghost var dayRun := DayRun(parentId, chatTitle, day, group[day], answer);
        ghost var rest := DaysRun(parentId, chatTitle, days[j + 1..], group, answer);
        DaysRunStep(parentId, chatTitle, days, j, group, answer);
        ThenAssoc(done, dayRun, rest);
        ThenOk(done, dayRun);
        error := FinalizeDay(chatTitle, day, group[day], answer);
        assert calls == old(calls) + (done.calls + dayRun.calls);
        assert log == old(log) + (done.log + dayRun.log);
        done := Then(done, dayRun);
        if error.Some? {
          ThenErr(done, rest);
          return;
        }
        j := j + 1;
      }
      assert days[j..] == [];
      DaysRunNil(parentId, chatTitle, days[j..], group, answer);
      ThenUnit(done);
      error := None;
    }
  }

  /** A database destination never groups, whatever the mode: its sink
      creates a page per row and its `finalize` does nothing. */
  lemma DatabaseNeverGroups(destType: string, mode: string)
    requires IsDatabase(destType)
    ensures !Grouping(mode, destType)
  {
    var l := Lower(destType);
    assert l[..4] == "data";
  }
}
