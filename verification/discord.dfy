/** The Discord exporter (`export_discord.py`): reading the channel id out of
    an id or a channel URL, turning a message into a row, the filter chain,
    and the export loop that walks the channel backwards with `before`,
    retrying rate-limited calls, and streams rows in fetch order or buffers
    and sorts them. */
module Discord {
  import opened Common
  import opened Rows
  import opened Stream
  import opened Checkpoint
  import opened Ordering
  import opened FileSink
  import opened Pipeline

  // ---------------------------------------------------------------------------
  // Messages and rows

  /** An entry of a message's `attachments` list; entries that are not
      objects are counted as media but contribute no type or name. */
  datatype Attachment = AttachmentInfo(contentType: Option<string>, filename: Option<string>, url: Option<string>) | NotAnObject

  /** The message's `author`; an author that is not an object reads as `{}`. */
  datatype Author = Author(id: Option<string>, username: Option<string>, globalName: Option<string>)

  /** The fields of a channel message the exporter reads. */
  datatype DiscordMessage = DiscordMessage(
    id: Option<string>,
    timestamp: Option<string>,
    content: Option<string>,
    author: Author,
    attachments: seq<Attachment>,
    editedTimestamp: Option<string>,
    pinned: bool)

  function IsObject(a: Attachment): bool {
    a.AttachmentInfo?
  }

  /** `att.get("content_type") or att.get("filename", "")`. */
  function AttachmentType(a: Attachment): string {
    if a.AttachmentInfo? then OrElse(a.contentType, Some(a.filename.GetOr(""))).value else ""
  }

  function AttachmentName(a: Attachment): string {
    if a.AttachmentInfo? then a.filename.GetOr("") else ""
  }

  /** `msg_to_row`. `iso` is `iso()`, which normalises a parseable timestamp
      and returns any other input unchanged; `channelName` is None when the
      channel lookup failed. */
  function MsgToRow(m: DiscordMessage, channelId: string, channelName: Option<string>, iso: string -> string): (r: Row)
    ensures r.media <==> m.attachments != []
    ensures r.mediaType == VNone <==>
              |Select(m.attachments, IsObject)| == 0
              || (|Select(m.attachments, IsObject)| == 1 && AttachmentType(Select(m.attachments, IsObject)[0]) == "")
    ensures r.mediaFileName == VNone <==>
              |Select(m.attachments, IsObject)| == 0
              || (|Select(m.attachments, IsObject)| == 1 && AttachmentName(Select(m.attachments, IsObject)[0]) == "")
    ensures r.id == OptStr(m.id) && r.chatTitle == OptStr(channelName)
    ensures Truthy(m.author.globalName) ==> r.senderDisplay == VStr(m.author.globalName.value)
    ensures !Truthy(m.author.globalName) ==> r.senderDisplay == OptStr(m.author.username)
    ensures r.editDate != VNone <==> Truthy(m.editedTimestamp)
    ensures r.isPinned == m.pinned
    ensures r.ts.None? && r.mediaPath.None?
  {
    var objects := Select(m.attachments, IsObject);
    Row(
      id := OptStr(m.id),
      ts := None,
      date := VStr(iso(m.timestamp.GetOr(""))),
      chatId := VStr(channelId),
      chatTitle := OptStr(channelName),
      senderId := OptStr(m.author.id),
      senderUsername := OptStr(m.author.username),
      senderDisplay := OptStr(OrElse(m.author.globalName, m.author.username)),
      text := VStr(m.content.GetOr("")),
      replyToId := VNone,
      views := VNone,
      forwards := VNone,
      editDate := if Truthy(m.editedTimestamp) then VStr(iso(m.editedTimestamp.value)) else VNone,
      viaBotId := VNone,
      isPinned := m.pinned,
      media := m.attachments != [],
      mediaType := JoinOrNone(",", MapSeq(objects, AttachmentType)),
      mediaFileName := JoinOrNone(";", MapSeq(objects, AttachmentName)),
      mediaPath := None)
  }

  // ---------------------------------------------------------------------------
  // Channel

  const ChannelsMarker := "/channels/"

  /** `parse_channel_id`: the trimmed input, or for a URL the path segment
      after the guild in `.../channels/<guild>/<channel>`; a URL without
      that segment is kept whole (the IndexError is swallowed). */
  function ParseChannelId(input: string): (r: string)
    ensures !(StartsWith(Trim(input), "http") && Contains(Trim(input), ChannelsMarker)) ==> r == Trim(input)
    ensures r == Trim(input) || !Contains(r, "/")
  {
    var s := Trim(input);
    if StartsWith(s, "http") && Contains(s, ChannelsMarker) then
      var parts := Split(Split(s, ChannelsMarker)[1], "/");
      SplitParts(Split(s, ChannelsMarker)[1], "/");
      if |parts| >= 2 then parts[1] else s
    else s
  }

  /** The only '/' of `guild + "/" + channel` is the one between them. */
  lemma OneSlash(guild: string, channel: string)
    requires '/' !in guild && '/' !in channel
    ensures forall p :: 0 <= p < |guild + "/" + channel| && (guild + "/" + channel)[p] == '/' ==> p == |guild|
  {
    var rest := guild + "/" + channel;
    forall p | 0 <= p < |rest| && p != |guild|
      ensures rest[p] != '/'
    {
      if p < |guild| {
        assert rest[p] == guild[p];
      } else {
        assert rest[p] == channel[p - |guild| - 1];
      }
    }
  }

  /** A string free of '/' holds no "/channels/" around one '/'. */
  lemma NoMarker(guild: string, channel: string)
    requires '/' !in guild && '/' !in channel
    ensures !Contains(guild + "/" + channel, ChannelsMarker)
  {
    var rest := guild + "/" + channel;
    OneSlash(guild, channel);
    if Contains(rest, ChannelsMarker) {
      var i :| 0 <= i <= |rest| - |ChannelsMarker| && OccursAt(rest, ChannelsMarker, i);
      MarkerSlashes(rest, i);
      assert false;
    }
  }

  /** "/channels/" opens and closes with a '/'. */
  lemma MarkerSlashes(x: string, i: int)
    requires OccursAt(x, ChannelsMarker, i)
    ensures x[i] == '/' && x[i + 9] == '/'
  {
    assert x[i..i + 10][0] == x[i] && x[i..i + 10][9] == x[i + 9];
  }

  /** When the host part holds no "/channels/" of its own, even running into
      the marker, the marker after it is the first one. */
  lemma MarkerAfterHost(host: string, rest: string)
    requires !Contains(host + "/channels", ChannelsMarker)
    ensures Find(host + ChannelsMarker + rest, ChannelsMarker) == |host|
  {
    var s := host + ChannelsMarker + rest;
    var head := host + "/channels";
    assert s[..|head|] == head;
    assert OccursAt(s, ChannelsMarker, |host|) by {
      assert s[|host|..|host| + 10] == ChannelsMarker;
    }
    forall j | 0 <= j < |host|
      ensures !OccursAt(s, ChannelsMarker, j)
    {
      if OccursAt(s, ChannelsMarker, j) {
        assert head[j..j + 10] == s[j..j + 10];
        assert OccursAt(head, ChannelsMarker, j);
      }
    }
    FindFirst(s, ChannelsMarker, |host|);
  }

  /** Splitting at a first occurrence. */
  lemma SplitAtFirst(s: string, sep: string, k: nat)
    requires sep != "" && OccursAt(s, sep, k)
    requires forall j :: 0 <= j < k ==> !OccursAt(s, sep, j)
    ensures Split(s, sep) == [s[..k]] + Split(s[k + |sep|..], sep)
  {
    hide Find;
    hide OccursAt;
    hide Contains;
    FindFirst(s, sep, k);
  }

  /** A URL opening with a non-blank "http" host and closing with a
      non-blank character is already trimmed. */
  lemma UrlShape(host: string, rest: string)
    requires StartsWith(host, "http")
    requires rest != [] && !IsSpace(rest[|rest| - 1])
    ensures Trim(host + ChannelsMarker + rest) == host + ChannelsMarker + rest
    ensures StartsWith(host + ChannelsMarker + rest, "http")
    ensures (host + ChannelsMarker + rest)[|host| + |ChannelsMarker|..] == rest
  {
    var s := host + ChannelsMarker + rest;
    assert s[0] == host[..4][0] == 'h';
    assert s[|s| - 1] == rest[|rest| - 1];
    hide Trim;
    TrimmedAlready(s);
    assert s[..4] == host[..4];
  }

  /** A string with non-blank ends is its own `strip()`. */
  lemma TrimmedAlready(s: string)
    requires s != [] && !IsSpace(s[0]) && !IsSpace(s[|s| - 1])
    ensures Trim(s) == s
  {
    assert TrimStart(s) == s;
  }

  /** The path after the marker splits into the guild and the channel. */
  lemma PathParts(guild: string, channel: string)
    requires '/' !in guild && '/' !in channel
    ensures Split(guild + "/" + channel, "/") == [guild, channel]
  {
    var rest := guild + "/" + channel;
    FirstSlash(guild, channel);
    assert rest[..|guild|] == guild;
    assert rest[|guild| + 1..] == channel;
    NoSlashSplit(channel);
    hide Split;
    hide Find;
    hide Contains;
    hide OccursAt;
    SplitAtFirst(rest, "/", |guild|);
  }

  /** The first '/' of `guild + "/" + channel` is the one after the guild. */
  lemma FirstSlash(guild: string, channel: string)
    requires '/' !in guild
    ensures OccursAt(guild + "/" + channel, "/", |guild|)
    ensures forall j :: 0 <= j < |guild| ==> !OccursAt(guild + "/" + channel, "/", j)
  {
    var rest := guild + "/" + channel;
    assert rest[|guild|..|guild| + 1] == "/";
    forall j | 0 <= j < |guild|
      ensures !OccursAt(rest, "/", j)
    {
      assert rest[j..j + 1][0] == rest[j] == guild[j];
    }
  }

  /** A string without '/' is a single part. */
  lemma NoSlashSplit(s: string)
    requires '/' !in s
    ensures Split(s, "/") == [s]
  {
    forall i | 0 <= i <= |s| - 1
      ensures !OccursAt(s, "/", i)
    {
      assert s[i..i + 1][0] == s[i];
    }
  }

  /** A channel URL `<host>/channels/<guild>/<channel>` yields the channel's
      id, for any host such as `https://discord.com` that does not itself
      hold the marker. */
  lemma ChannelFromUrl(host: string, guild: string, channel: string)
    requires StartsWith(host, "http") && !Contains(host + "/channels", ChannelsMarker)
    requires '/' !in guild && '/' !in channel
    requires channel != [] && !IsSpace(channel[|channel| - 1])
    ensures ParseChannelId(host + ChannelsMarker + guild + "/" + channel) == channel
  {
    var rest := guild + "/" + channel;
    var s := host + ChannelsMarker + rest;
    assert host + ChannelsMarker + guild + "/" + channel == s;
    assert rest[|rest| - 1] == channel[|channel| - 1];
    UrlShape(host, rest);
    NoMarker(guild, channel);
    UrlSplit(host, rest);
    PathParts(guild, channel);
    hide Find;
    hide Split;
    hide Trim;
    hide Contains;
    ParseChannelIdOf(s, host, rest, guild, channel);
  }

  /** The marker after the host is the only one: the URL splits around it. */
  lemma UrlSplit(host: string, rest: string)
    requires !Contains(host + "/channels", ChannelsMarker) && !Contains(rest, ChannelsMarker)
    ensures Split(host + ChannelsMarker + rest, ChannelsMarker) == [host, rest]
  {
    var s := host + ChannelsMarker + rest;
    MarkerAfterHost(host, rest);
    SplitAtFirst(s, ChannelsMarker, |host|);
    assert s[..|host|] == host;
    assert s[|host| + |ChannelsMarker|..] == rest;
  }

  /** ParseChannelId in terms of the two splits it makes. */
  lemma ParseChannelIdOf(s: string, host: string, rest: string, guild: string, channel: string)
    requires Split(rest, "/") == [guild, channel]
    requires Split(s, ChannelsMarker) == [host, rest]
    requires Trim(s) == s && StartsWith(s, "http") && Contains(s, ChannelsMarker)
    ensures ParseChannelId(s) == channel
  {
    hide Split;
    hide Trim;
    hide Contains;
    hide StartsWith;
  }

  // ---------------------------------------------------------------------------
  // Dates

  /** The date filter: a message whose timestamp parses is dropped when its
      instant is before `min_date` or after `max_date` (both 00:00 of the
      day); one whose timestamp does not parse always passes. Instants are
      microseconds since the epoch. */
  predicate DateOk(minDate: Option<int>, maxDate: Option<int>, stamp: Option<int>) {
    stamp.None?
    || ((minDate.None? || stamp.value >= minDate.value)
        && (maxDate.None? || stamp.value <= maxDate.value))
  }

  /** Python's TypeError message for comparing a naive with an aware datetime. */
  const NaiveAwareError := "can't compare offset-naive and offset-aware datetimes"

  /** The date test as the code runs it: `parse_date` builds naive datetimes,
      while a parsed message timestamp carries the "+00:00" offset, so once a
      bound is set, comparing it with a parsed timestamp raises TypeError. A
      timestamp that does not parse skips both comparisons. */
  function DateCheckAsWritten(minDate: Option<int>, maxDate: Option<int>, stamp: Option<int>): Result<bool, string> {
    if minDate.Some? && stamp.Some? then Err(NaiveAwareError)
    else if maxDate.Some? && stamp.Some? then Err(NaiveAwareError)
    else Ok(true)
  }

  /** The date test as written raises exactly when a bound is set and the
      timestamp parses; otherwise it keeps the message. */
  lemma DateCheckRaises(minDate: Option<int>, maxDate: Option<int>, stamp: Option<int>)
    ensures DateCheckAsWritten(minDate, maxDate, stamp).Err? <==> stamp.Some? && (minDate.Some? || maxDate.Some?)
    ensures DateCheckAsWritten(minDate, maxDate, stamp).Ok? ==> DateCheckAsWritten(minDate, maxDate, stamp).value
  {
  }

  /** A message one microsecond after the lower bound, which the filter is
      meant to keep, makes the date test as written raise. */
  lemma BoundedDateRaises()
    ensures DateCheckAsWritten(Some(0), None, Some(1)) == Err(NaiveAwareError)
    ensures DateOk(Some(0), None, Some(1))
  {
  }

  /** The intended date filter agrees with the code wherever the code does not
      raise, and where it raises it drops exactly the messages outside the
      bounds. */
  lemma DateOkIntended(minDate: Option<int>, maxDate: Option<int>, stamp: Option<int>)
    ensures DateCheckAsWritten(minDate, maxDate, stamp).Ok? ==>
      DateOk(minDate, maxDate, stamp) == DateCheckAsWritten(minDate, maxDate, stamp).value
    ensures stamp.Some? && minDate.Some? && stamp.value < minDate.value ==> !DateOk(minDate, maxDate, stamp)
    ensures stamp.Some? && maxDate.Some? && stamp.value > maxDate.value ==> !DateOk(minDate, maxDate, stamp)
    ensures stamp.Some? && (minDate.None? || minDate.value <= stamp.value) && (maxDate.None? || stamp.value <= maxDate.value)
      ==> DateOk(minDate, maxDate, stamp)
  {
  }

  // ---------------------------------------------------------------------------
  // Filters

  /** `[x.lower() for x in (xs or []) if x]`. */
  function FilterList(xs: seq<string>): seq<string> {
    MapSeq(Select(xs, (x: string) => x != ""), Lower)
  }

  /** Every non-empty entry is in the list, lower-cased, and nothing else;
      no entry is empty. */
  lemma FilterListMembers(xs: seq<string>)
    ensures forall x :: x in xs && x != "" ==> Lower(x) in FilterList(xs)
    ensures "" !in FilterList(xs)
    ensures forall y :: y in FilterList(xs) ==> exists x :: x in xs && x != "" && y == Lower(x)
  {
    SelectMapMembers(xs, (x: string) => x != "", Lower);
  }

  /** The message filters. `stampOf` is `fromisoformat` after "Z" becomes
      "+00:00" (None when it raises); the date bounds are 00:00 of
      `min_date` and `max_date`, in microseconds. */
  datatype DiscordFilter = DiscordFilter(
    minDate: Option<int>, maxDate: Option<int>, stampOf: string -> Option<int>,
    onlyMedia: bool, onlyText: bool, users: seq<string>, keywords: seq<string>)

  predicate DateOfOk(f: DiscordFilter, m: DiscordMessage) {
    DateOk(f.minDate, f.maxDate, f.stampOf(m.timestamp.GetOr("")))
  }

  /** `only_media` drops messages without attachments, `only_text` those with. */
  predicate MediaOk(f: DiscordFilter, m: DiscordMessage) {
    !(f.onlyMedia && m.attachments == []) && !(f.onlyText && m.attachments != [])
  }

  /** With a user list, the lower-cased author id or username must be in the
      prepared list. */
  predicate UserOk(f: DiscordFilter, m: DiscordMessage) {
    var users := FilterList(f.users);
    users == []
    || Lower(m.author.id.GetOr("")) in users
    || Lower(m.author.username.GetOr("")) in users
  }

  /** With a keyword list, some prepared keyword must occur in the lower-cased
      content. */
  predicate KeywordOk(f: DiscordFilter, m: DiscordMessage) {
    var kw := FilterList(f.keywords);
    kw == [] || exists i :: 0 <= i < |kw| && Contains(Lower(m.content.GetOr("")), kw[i])
  }

  predicate Accepts(f: DiscordFilter, m: DiscordMessage) {
    DateOfOk(f, m) && MediaOk(f, m) && UserOk(f, m) && KeywordOk(f, m)
  }

  function Keep(f: DiscordFilter): DiscordMessage -> bool {
    m => Accepts(f, m)
  }

  // ---------------------------------------------------------------------------
  // Responses

  /** One call of `GET /channels/{id}/messages`: the exception `requests`
      raised, or the answer with its status, `Retry-After` header, body text
      and (for a 200) the decoded message list. */
  datatype Response =
    | Answer(status: int, retryAfter: Option<string>, text: string, messages: seq<DiscordMessage>)
    | Unreachable(error: string)

  const ForbiddenError := "Forbidden: bot likely missing Read Message History or access to channel"
  const UnauthorizedError := "Unauthorized: invalid bot token"

  /** What the loop makes of one response: sleep and retry, a batch of
      messages, or a RuntimeError (or ValueError) that ends the export. */
  datatype Step = Retry(seconds: nat) | Batch(msgs: seq<DiscordMessage>) | Fatal(msg: string)

  function StepOf(r: Response): (s: Step)
    ensures s.Retry? <==> r.Answer? && r.status == 429 && RetryWait(r.retryAfter).Ok?
    ensures s.Retry? ==> s.seconds >= 1
    ensures s.Batch? <==> r.Answer? && r.status == 200
    ensures s.Batch? ==> s.msgs == r.messages
    ensures r.Answer? && r.status == 403 ==> s == Fatal(ForbiddenError)
    ensures r.Answer? && r.status == 401 ==> s == Fatal(UnauthorizedError)
    ensures r.Answer? && r.status !in {200, 401, 403, 429} ==>
      s.Fatal? && StartsWith(s.msg, "Discord API error: ")
  {
    match r
    case Unreachable(e) => Fatal("Discord request failed: " + e)
    case Answer(status, retryAfter, text, messages) =>
      if status == 429 then
        (match RetryWait(retryAfter) case Ok(w) => Retry(w) case Err(e) => Fatal(e))
      else if status == 403 then Fatal(ForbiddenError)
      else if status == 401 then Fatal(UnauthorizedError)
      else if status != 200 then Fatal("Discord API error: " + IntToString(status) + " " + text)
      else Batch(messages)
  }

  /** The ValueError of `min()` over nothing. */
  const EmptyMinError := "min() arg is an empty sequence"

  /** `min(int(s) for s in ids)`: the first id that does not convert raises. */
  function MinId(ids: seq<string>): (r: Result<int, string>)
    ensures r.Ok? <==> ids != [] && forall i :: 0 <= i < |ids| ==> ParseInt(ids[i]).Some?
    ensures r.Ok? ==> forall i :: 0 <= i < |ids| ==> r.value <= ParseInt(ids[i]).value
    ensures r.Ok? ==> exists i :: 0 <= i < |ids| && ParseInt(ids[i]) == Some(r.value)
    ensures r.Err? && ids == [] ==> r.error == EmptyMinError
    ensures r.Err? && ids != [] ==>
              exists i :: 0 <= i < |ids| && ParseInt(ids[i]).None? && r.error == InvalidLiteral(ids[i])
                          && forall j :: 0 <= j < i ==> ParseInt(ids[j]).Some?
    decreases |ids|
  {
    if ids == [] then Err(EmptyMinError)
    else
      match ParseInt(ids[0])
      case None => Err(InvalidLiteral(ids[0]))
      case Some(v) =>
        if |ids| == 1 then Ok(v)
        else
          match MinId(ids[1..])
          case Err(e) =>
            MinIdErrLift(ids, e);
            Err(e)
          case Ok(w) =>
            MinIdOkLift(ids, v, w);
            Ok(if v <= w then v else w)
  }

  /** The first invalid literal after the head is the first of the whole list. */
  lemma MinIdErrLift(ids: seq<string>, e: string)
    requires |ids| > 1 && ParseInt(ids[0]).Some?
    requires exists i :: 0 <= i < |ids| - 1 && ParseInt(ids[1..][i]).None? && e == InvalidLiteral(ids[1..][i])
                         && forall j :: 0 <= j < i ==> ParseInt(ids[1..][j]).Some?
    ensures exists i :: 0 <= i < |ids| && ParseInt(ids[i]).None? && e == InvalidLiteral(ids[i])
                        && forall j :: 0 <= j < i ==> ParseInt(ids[j]).Some?
    ensures !forall i :: 0 <= i < |ids| ==> ParseInt(ids[i]).Some?
  {
    var i :| 0 <= i < |ids| - 1 && ParseInt(ids[1..][i]).None? && e == InvalidLiteral(ids[1..][i])
      && forall j :: 0 <= j < i ==> ParseInt(ids[1..][j]).Some?;
    assert ids[1..][i] == ids[i + 1];
    forall j | 0 <= j < i + 1
      ensures ParseInt(ids[j]).Some?
    {
      if j > 0 {
        assert ids[j] == ids[1..][j - 1];
      }
    }
  }

  /** The smaller of the head and the tail's minimum is the list's minimum. */
  lemma MinIdOkLift(ids: seq<string>, v: int, w: int)
    requires |ids| > 1 && ParseInt(ids[0]) == Some(v)
    requires forall i :: 0 <= i < |ids| - 1 ==> ParseInt(ids[1..][i]).Some? && w <= ParseInt(ids[1..][i]).value
    requires exists i :: 0 <= i < |ids| - 1 && ParseInt(ids[1..][i]) == Some(w)
    ensures forall i :: 0 <= i < |ids| ==> ParseInt(ids[i]).Some? && (if v <= w then v else w) <= ParseInt(ids[i]).value
    ensures exists i :: 0 <= i < |ids| && ParseInt(ids[i]) == Some(if v <= w then v else w)
  {
    forall i | 1 <= i < |ids|
      ensures ids[i] == ids[1..][i - 1]
    {
    }
    if w < v {
      var k :| 0 <= k < |ids| - 1 && ParseInt(ids[1..][k]) == Some(w);
      assert ParseInt(ids[k + 1]) == Some(w);
    }
  }

  /** The truthy ids of a page, in order. */
  function PageIds(msgs: seq<DiscordMessage>): (ids: seq<string>)
    ensures forall s :: s in ids ==> s != "" && exists i :: 0 <= i < |msgs| && msgs[i].id == Some(s)
    ensures forall i :: 0 <= i < |msgs| && Truthy(msgs[i].id) ==> msgs[i].id.value in ids
    decreases |msgs|
  {
    if msgs == [] then []
    else
      var rest := PageIds(msgs[1..]);
      assert forall i :: 1 <= i < |msgs| ==> msgs[i] == msgs[1..][i - 1];
      if Truthy(msgs[0].id) then [msgs[0].id.value] + rest else rest
  }

  /** `min(int(m.get("id")) for m in msgs if m.get("id"))`. */
  function SmallestId(msgs: seq<DiscordMessage>): Result<int, string> {
    MinId(PageIds(msgs))
  }

  /** When it succeeds, the smallest id is the id of a message of the page and
      no truthy id of the page converts to less. */
  lemma SmallestIdOfPage(msgs: seq<DiscordMessage>)
    ensures SmallestId(msgs).Ok? ==>
      (exists i :: 0 <= i < |msgs| && msgs[i].id.Some? && ParseInt(msgs[i].id.value) == Some(SmallestId(msgs).value))
      && forall i :: 0 <= i < |msgs| && Truthy(msgs[i].id) ==>
           ParseInt(msgs[i].id.value).Some? && SmallestId(msgs).value <= ParseInt(msgs[i].id.value).value
    ensures (forall i :: 0 <= i < |msgs| ==> !Truthy(msgs[i].id)) ==> SmallestId(msgs) == Err(EmptyMinError)
  {
    var ids := PageIds(msgs);
    if SmallestId(msgs).Ok? {
      var v := SmallestId(msgs).value;
      var k :| 0 <= k < |ids| && ParseInt(ids[k]) == Some(v);
      assert ids[k] in ids;
      forall i | 0 <= i < |msgs| && Truthy(msgs[i].id)
        ensures ParseInt(msgs[i].id.value).Some? && v <= ParseInt(msgs[i].id.value).value
      {
        var j :| 0 <= j < |ids| && ids[j] == msgs[i].id.value;
      }
    }
    if forall i :: 0 <= i < |msgs| ==> !Truthy(msgs[i].id) {
      if ids != [] {
        assert ids[0] in ids;
      }
    }
  }

  // ---------------------------------------------------------------------------
  // The export

  /** The query of one messages call: `limit` is always 100; `after` is the
      resume checkpoint, `before` the smallest id of the previous page. */
  datatype Params = Params(after: Option<Value>, before: Option<string>)

  /** `params = {"limit": 100}`, with `after` when the checkpoint is truthy. */
  function FirstParams(lastId: Option<Value>): (p: Params)
    ensures p.before.None?
    ensures p.after.Some? <==> lastId.Some? && TruthyValue(lastId.value)
    ensures p.after.Some? ==> p.after == lastId
  {
    Params(if lastId.Some? && TruthyValue(lastId.value) then lastId else None, None)
  }

  /** The channel as the exporter sees it. `responses` answers the messages
      calls in order (a call past its end gets an empty page); `iso` is
      `iso()`; `stampOf` is `fromisoformat`; `download` is
      `download_attachments`. */
  datatype DiscordApi = DiscordApi(
    infoName: Option<string>,
    responses: seq<Response>,
    iso: string -> string,
    stampOf: string -> Option<int>,
    download: DiscordMessage -> seq<string>)

  /** The arguments of `export_discord_messages`; the date bounds are 00:00
      of `min_date` and `max_date`, in microseconds. */
  datatype DiscordOptions = DiscordOptions(
    fmt: string,
    reverse: bool,
    resume: bool,
    limit: Option<int>,
    mediaDir: Option<string>,
    minDate: Option<int>,
    maxDate: Option<int>,
    onlyMedia: bool,
    onlyText: bool,
    keywords: seq<string>,
    users: seq<string>,
    outPath: string)

  function FilterOf(opts: DiscordOptions, api: DiscordApi): DiscordFilter {
    DiscordFilter(opts.minDate, opts.maxDate, api.stampOf, opts.onlyMedia, opts.onlyText, opts.users, opts.keywords)
  }

  /** The checkpoint a resumed JSONL export reads: the `id` of the file's last
      record as the scan of `read_last_id_jsonl` finds it (Checkpoint.LastKeyAsWritten). */
  function ResumeKey(opts: DiscordOptions, present: bool, file: seq<Byte>, decode: seq<Byte> -> LineParse<Value>): Option<Value> {
    ResumeFrom(opts.resume && opts.fmt == "jsonl", present, file, decode)
  }

  /** `on_progress(f"Resuming after id {last_id}")` for a truthy checkpoint. */
  function ResumeLog(lastId: Option<Value>): seq<string> {
    if lastId.Some? && TruthyValue(lastId.value) then ["Resuming after id " + Show(lastId.value)] else []
  }

  /** The CSV header of the Discord exporter: `media_path`, no `ts`. */
  const DiscordColumns := Columns(false, true)

  /** Where the rows go: the sink when one is given, else the output file. */
  function DestOf(opts: DiscordOptions, sink: Option<Row -> Option<string>>): Dest {
    if sink.Some? then ToSink(sink.value) else ToFile(opts.fmt, DiscordColumns)
  }

  /** Without a sink nothing without a `ts` key is ever refused, and Discord
      rows have none. */
  lemma FileTakesAll(opts: DiscordOptions, rows: seq<Row>)
    requires forall i :: 0 <= i < |rows| ==> rows[i].ts.None?
    ensures DeliveryError(Fails(DestOf(opts, None)), rows).None?
  {
    DeliverableAt(Fails(DestOf(opts, None)), rows, |rows|);
  }

  /** What the row of an accepted message depends on besides the message:
      attachments are downloaded only with a media directory and no sink. */
  datatype RowContext = RowContext(
    channelId: string, channelName: Option<string>, iso: string -> string,
    download: Option<DiscordMessage -> seq<string>>)

  function ContextOf(opts: DiscordOptions, api: DiscordApi, sink: Option<Row -> Option<string>>, channelId: string): RowContext {
    RowContext(channelId, api.infoName, api.iso, if Truthy(opts.mediaDir) && sink.None? then Some(api.download) else None)
  }

  /** The row written for an accepted message, with `media_path` when its
      attachments were downloaded. */
  function ExportRow(ctx: RowContext, m: DiscordMessage): (r: Row)
    ensures r.ts.None?
    ensures r.mediaPath.Some? <==> ctx.download.Some? && m.attachments != []
  {
    var row := MsgToRow(m, ctx.channelId, ctx.channelName, ctx.iso);
    if ctx.download.Some? && m.attachments != [] then
      var paths := ctx.download.value(m);
      row.(mediaPath := Some(if paths != [] then VStr(Join(";", paths)) else VNone))
    else row
  }

  function RowFn(ctx: RowContext): DiscordMessage -> Row {
    m => ExportRow(ctx, m)
  }

  /** The answer to the i-th messages call. */
  function ResponseAt(responses: seq<Response>, i: nat): Response {
    if i < |responses| then responses[i] else Answer(200, None, "", [])
  }

  /** The messages a response hands to the filters. */
  function BatchOf(r: Response): seq<DiscordMessage> {
    if StepOf(r).Batch? then StepOf(r).msgs else []
  }

  /** The sleep a response causes. */
  function WaitOf(r: Response): seq<nat> {
    if StepOf(r).Retry? then [StepOf(r).seconds] else []
  }

  /** All messages of the first k responses, in fetch order. */
  function Fetched(responses: seq<Response>, k: nat): seq<DiscordMessage> {
    if k == 0 then [] else Fetched(responses, k - 1) + BatchOf(ResponseAt(responses, k - 1))
  }

  /** The sleeps of the first k responses, in order. */
  function Waits(responses: seq<Response>, k: nat): seq<nat> {
    if k == 0 then [] else Waits(responses, k - 1) + WaitOf(ResponseAt(responses, k - 1))
  }

  /** The query of the i-th call: a retry repeats the previous one; after a
      page, `before` is its smallest id and `after` is gone. */
  function ParamsAt(responses: seq<Response>, first: Params, i: nat): Params {
    if i == 0 then first
    else
      var step := StepOf(ResponseAt(responses, i - 1));
      if step.Batch? && SmallestId(step.msgs).Ok? then Params(None, Some(IntToString(SmallestId(step.msgs).value)))
      else ParamsAt(responses, first, i - 1)
  }

  /** The queries of the first k calls. */
  function Requests(responses: seq<Response>, first: Params, k: nat): (rs: seq<Params>)
    ensures |rs| == k
  {
    if k == 0 then [] else Requests(responses, first, k - 1) + [ParamsAt(responses, first, k - 1)]
  }

  /** One run of the pagination loop: the limit and mode it reads, the filter
      chain, the row builder, the destination, and the responses. */
  datatype Run = Run(
    limit: Option<int>, reverse: bool, keep: DiscordMessage -> bool, rowOf: DiscordMessage -> Row,
    dest: Dest, responses: seq<Response>)

  function RunOf(opts: DiscordOptions, api: DiscordApi, ctx: RowContext, dest: Dest): Run {
    Run(opts.limit, opts.reverse, Keep(FilterOf(opts, api)), RowFn(ctx), dest, api.responses)
  }

  /** The messages accepted from the first k responses. */
  function Accepted(run: Run, k: nat): seq<DiscordMessage> {
    Kept(Fetched(run.responses, k), run.keep, run.limit)
  }

  function RowsUpTo(run: Run, k: nat): seq<Row> {
    MapSeq(Accepted(run, k), run.rowOf)
  }

  /** After the i-th response the loop calls again: it was a rate limit with a
      readable wait, or a non-empty page after which the limit is not reached
      and the smallest id converts. */
  predicate Continues(run: Run, i: nat) {
    match StepOf(ResponseAt(run.responses, i))
    case Retry(_) => true
    case Fatal(_) => false
    case Batch(msgs) =>
      msgs != [] && !LimitReached(run.limit, |Accepted(run, i + 1)|) && SmallestId(msgs).Ok?
  }

  /** The export goes on after the i-th response: the loop continues and,
      when rows are written as they come, the destination took all of them. */
  predicate GoesOn(run: Run, i: nat) {
    Continues(run, i) && (run.reverse || DeliveryError(Fails(run.dest), RowsUpTo(run, i + 1)).None?)
  }

  /** How a loop that stopped after k responses ended: the call's exception or
      status error, the first row the destination refused, or the ValueError
      of computing the next `before`. */
  function EndOf(run: Run, k: nat): Option<Failure>
    requires k >= 1
  {
    var step := StepOf(ResponseAt(run.responses, k - 1));
    if step.Fatal? then Some(Raised(step.msg))
    else if !run.reverse && DeliveryError(Fails(run.dest), RowsUpTo(run, k)).Some? then
      Some(Refused(DeliveryError(Fails(run.dest), RowsUpTo(run, k)).value))
    else if step.Batch? && step.msgs != [] && !LimitReached(run.limit, |Accepted(run, k)|)
      && SmallestId(step.msgs).Err? then
      Some(Raised(SmallestId(step.msgs).error))
    else None
  }

  /** The rows of the first n responses: all written and taken, or all buffered. */
  predicate InState(run: Run, n: nat, written: seq<Row>, collected: seq<Row>) {
    var rows := RowsUpTo(run, n);
    (!run.reverse ==> written == rows && collected == [] && Deliverable(Fails(run.dest), rows) == |rows|)
    && (run.reverse ==> written == [] && collected == rows)
  }

  /** The rows after the last response: written up to the first refused one,
      or all buffered. */
  predicate Final(run: Run, k: nat, written: seq<Row>, collected: seq<Row>) {
    var rows := RowsUpTo(run, k);
    (!run.reverse ==> written == rows[..Deliverable(Fails(run.dest), rows)] && collected == [])
    && (run.reverse ==> written == [] && collected == rows)
  }

  /** After a page the next query asks for what is before its smallest id. */
  lemma ParamsAfterBatch(responses: seq<Response>, first: Params, n: nat, msgs: seq<DiscordMessage>)
    requires StepOf(ResponseAt(responses, n)) == Batch(msgs)
    ensures SmallestId(msgs).Ok? ==>
      ParamsAt(responses, first, n + 1) == Params(None, Some(IntToString(SmallestId(msgs).value)))
  {
  }

  /** The page part of the loop body: the messages go through the limit and
      the filters; unless a row is refused or the limit is reached, the next
      query asks for what is before the page's smallest id. */
  method ReadBatch(run: Run, ghost first: Params, n: nat, msgs: seq<DiscordMessage>, out: OutputFile, ghost base: seq<Entry>,
                   written0: seq<Row>, collected0: seq<Row>, count0: nat)
    returns (written: seq<Row>, collected: seq<Row>, count: nat, params: Params, stop: bool, failure: Option<Failure>)
    requires StepOf(ResponseAt(run.responses, n)) == Batch(msgs) && msgs != []
    requires count0 == |Accepted(run, n)|
    requires InState(run, n, written0, collected0)
    requires out.entries == base + Entries(run.dest, written0)
    modifies out
    ensures out.entries == base + Entries(run.dest, written)
    ensures stop <==> !GoesOn(run, n)
    ensures !stop ==>
      count == |Accepted(run, n + 1)| && InState(run, n + 1, written, collected)
      && params == ParamsAt(run.responses, first, n + 1)
    ensures stop ==>
      failure == EndOf(run, n + 1) && Final(run, n + 1, written, collected)
      && (failure.None? ==> count == |Accepted(run, n + 1)|)
  {
    hide SmallestId;
    hide MinId;
    hide PageIds;
    hide ParamsAt;
    ParamsAfterBatch(run.responses, first, n, msgs);
    written, collected, count := written0, collected0, count0;
    params := Params(None, None);
    ghost var before := Fetched(run.responses, n);
    assert Fetched(run.responses, n + 1) == before + msgs;
    if run.reverse {
      collected, count := CollectPage(run.limit, run.keep, run.rowOf, before, msgs, collected, count);
    } else {
      var e;
      written, count, e := EmitPage(run.limit, run.keep, run.rowOf, run.dest, before, msgs, out, base, written, count);
      if e.Some? {
        return written, collected, count, params, true, Some(Refused(e.value));
      }
    }
    if LimitReached(run.limit, count) {
      return written, collected, count, params, true, None;
    }
    var smallest := SmallestId(msgs);
    if smallest.Err? {
      return written, collected, count, params, true, Some(Raised(smallest.error));
    }
    params := Params(None, Some(IntToString(smallest.value)));
    stop, failure := false, None;
  }

  /** Past the scripted responses an empty page ends the loop. */
  lemma GoesOnInRange(run: Run, i: nat)
    ensures GoesOn(run, i) ==> i < |run.responses|
  {
  }

  /** A response without a batch leaves what was accepted unchanged. */
  lemma NoBatch(run: Run, n: nat)
    requires BatchOf(ResponseAt(run.responses, n)) == []
    ensures Fetched(run.responses, n + 1) == Fetched(run.responses, n)
    ensures Accepted(run, n + 1) == Accepted(run, n) && RowsUpTo(run, n + 1) == RowsUpTo(run, n)
  {
    assert Fetched(run.responses, n + 1) == Fetched(run.responses, n) + [];
  }

  /** One response of the loop body: an exception or an error status ends the
      export, a rate limit sleeps and repeats the query, an empty page ends
      the loop, and a page goes to ReadBatch. */
  method ReadResponse(run: Run, ghost first: Params, n: nat, params0: Params, out: OutputFile, ghost base: seq<Entry>,
                      written0: seq<Row>, collected0: seq<Row>, count0: nat)
    returns (written: seq<Row>, collected: seq<Row>, count: nat, params: Params, wait: seq<nat>,
             stop: bool, failure: Option<Failure>)
    requires params0 == ParamsAt(run.responses, first, n)
    requires count0 == |Accepted(run, n)|
    requires InState(run, n, written0, collected0)
    requires out.entries == base + Entries(run.dest, written0)
    modifies out
    ensures out.entries == base + Entries(run.dest, written)
    ensures wait == WaitOf(ResponseAt(run.responses, n))
    ensures stop <==> !GoesOn(run, n)
    ensures !stop ==>
      count == |Accepted(run, n + 1)| && InState(run, n + 1, written, collected)
      && params == ParamsAt(run.responses, first, n + 1)
    ensures stop ==>
      failure == EndOf(run, n + 1) && Final(run, n + 1, written, collected)
      && (failure.None? ==> count == |Accepted(run, n + 1)|)
  {
    hide Accepted;
    hide RowsUpTo;
    hide Fetched;
    hide ParamsAt;
    written, collected, count, params, wait := written0, collected0, count0, params0, [];
    var response := ResponseAt(run.responses, n);
    var step := StepOf(response);
    if !step.Batch? || step.msgs == [] {
      NoBatch(run, n);
    }
    match step
    case Fatal(msg) =>
      return written, collected, count, params, wait, true, Some(Raised(msg));
    case Retry(seconds) =>
      RetryRepeats(run, first, n);
      return written, collected, count, params, [seconds], false, None;
    case Batch(msgs) =>
      if msgs == [] {
        return written, collected, count, params, wait, true, None;
      }
      written, collected, count, params, stop, failure := ReadBatch(run, first, n, msgs, out, base, written, collected, count);
  }

  /** The loop's state after n responses that all let it go on: the queries
      sent, the sleeps taken, what was accepted, and the next query. */
  predicate Running(run: Run, first: Params, n: nat, requests: seq<Params>, waits: seq<nat>,
                    written: seq<Row>, collected: seq<Row>, count: nat, params: Params) {
    && n <= |run.responses|
    && requests == Requests(run.responses, first, n)
    && waits == Waits(run.responses, n)
    && (forall i :: 0 <= i < n ==> GoesOn(run, i))
    && count == |Accepted(run, n)| && InState(run, n, written, collected)
    && params == ParamsAt(run.responses, first, n)
  }

  lemma RunningAtStart(run: Run, first: Params)
    ensures Running(run, first, 0, [], [], [], [], 0, first)
  {
    assert Accepted(run, 0) == [];
  }

  /** The loop stopped after k responses: the queries sent, the sleeps taken,
      why it stopped, and the rows written or buffered by then. */
  predicate Stopped(run: Run, first: Params, k: nat, requests: seq<Params>, waits: seq<nat>,
                    written: seq<Row>, collected: seq<Row>, count: nat, failure: Option<Failure>) {
    && 1 <= k <= |run.responses| + 1
    && requests == Requests(run.responses, first, k)
    && waits == Waits(run.responses, k)
    && (forall i :: 0 <= i < k - 1 ==> GoesOn(run, i))
    && !GoesOn(run, k - 1)
    && failure == EndOf(run, k)
    && Final(run, k, written, collected)
    && (failure.None? ==> count == |Accepted(run, k)|)
  }

  /** The body of `while True`: `requests.get(.../messages, params=params)`,
      then the response. */
  method FetchBatch(run: Run, ghost first: Params, n: nat, out: OutputFile, ghost base: seq<Entry>,
                    requests0: seq<Params>, waits0: seq<nat>, written0: seq<Row>, collected0: seq<Row>, count0: nat,
                    params0: Params)
    returns (requests: seq<Params>, waits: seq<nat>, written: seq<Row>, collected: seq<Row>, count: nat,
             params: Params, stop: bool, failure: Option<Failure>)
    requires Running(run, first, n, requests0, waits0, written0, collected0, count0, params0)
    requires out.entries == base + Entries(run.dest, written0)
    modifies out
    ensures out.entries == base + Entries(run.dest, written)
    ensures !stop ==> Running(run, first, n + 1, requests, waits, written, collected, count, params)
    ensures stop ==> Stopped(run, first, n + 1, requests, waits, written, collected, count, failure)
  {
    hide Accepted;
    hide RowsUpTo;
    hide EndOf;
    hide InState;
    hide Final;
    hide GoesOn;
    hide ParamsAt;
    hide StepOf;
    hide WaitOf;
    hide Fetched;
    GoesOnInRange(run, n);
    requests := requests0 + [params0];
    assert requests == Requests(run.responses, first, n + 1);
    var wait;
    written, collected, count, params, wait, stop, failure := ReadResponse(run, first, n, params0, out, base, written0, collected0, count0);
    waits := waits0 + wait;
  }

  /** The pagination loop: `while True: r = requests.get(...)`, until an empty
      page, the limit, or an exception. */
  method Paginate(run: Run, first: Params, out: OutputFile)
    returns (k: nat, requests: seq<Params>, waits: seq<nat>, written: seq<Row>, collected: seq<Row>, count: nat,
             failure: Option<Failure>)
    modifies out
    ensures Stopped(run, first, k, requests, waits, written, collected, count, failure)
    ensures out.entries == old(out.entries) + Entries(run.dest, written)
  {
    hide Accepted;
    hide RowsUpTo;
    hide EndOf;
    hide InState;
    hide Final;
    hide Requests;
    hide Waits;
    hide GoesOn;
    hide ParamsAt;
    hide Entries;
    ghost var base := out.entries;
    k, requests, waits, written, collected, count := 0, [], [], [], [], 0;
    var params := first;
    RunningAtStart(run, first);
    assert Entries(run.dest, []) == [];
    while true
      invariant Running(run, first, k, requests, waits, written, collected, count, params)
      invariant out.entries == base + Entries(run.dest, written)
      decreases |run.responses| - k
    {
      var stop;
      requests, waits, written, collected, count, params, stop, failure :=
        FetchBatch(run, first, k, out, base, requests, waits, written, collected, count, params);
      k := k + 1;
      if stop {
        return;
      }
    }
  }

  /** The field the buffered rows are sorted by. */
  function IdField(r: Row): Option<string> {
    match r.id
    case VStr(s) => Some(s)
    case _ => None
  }

  function OutcomeOf(err: Option<WriteFault>, n: nat): Result<nat, Failure> {
    if err.Some? then Err(Refused(err.value)) else Ok(n)
  }

  /** What an export did: the queries it sent and the sleeps it took until the
      loop stopped, and what it returned and wrote. With rows written as they
      come, the outcome is the exception, the first refused row, or the count;
      in reverse mode the rows are sorted by id first, and an unorderable
      buffer or a refused row ends the export. */
  predicate ExportedAs(run: Run, first: Params, outcome: Result<nat, Failure>, requests: seq<Params>,
                       waits: seq<nat>, written: seq<Row>) {
    var k := |requests|;
    && 1 <= k <= |run.responses| + 1
    && requests == Requests(run.responses, first, k)
    && waits == Waits(run.responses, k)
    && (forall i :: 0 <= i < k - 1 ==> GoesOn(run, i))
    && !GoesOn(run, k - 1)
    && var rows := RowsUpTo(run, k);
    && (EndOf(run, k).Some? ==>
          outcome == Err(EndOf(run, k).value)
          && written == (if run.reverse then [] else rows[..Deliverable(Fails(run.dest), rows)]))
    && (EndOf(run, k).None? && !run.reverse ==> outcome == Ok(|rows|) && written == rows)
    && (EndOf(run, k).None? && run.reverse ==>
          (match AscendingRows(rows, IdField, ParseInt)
           case None => outcome == Err(Unorderable) && written == []
           case Some(sorted) =>
             written == sorted[..Deliverable(Fails(run.dest), sorted)]
             && outcome == OutcomeOf(DeliveryError(Fails(run.dest), sorted), |rows|)))
  }

  /** Every accepted message was fetched and passes the filter chain, and a
      positive limit bounds how many there are. */
  lemma AcceptedPass(run: Run, k: nat)
    ensures forall m :: m in Accepted(run, k) ==> m in Fetched(run.responses, k) && run.keep(m)
    ensures run.limit.Some? && run.limit.value > 0 ==> |Accepted(run, k)| <= run.limit.value
  {
    KeptPass(Fetched(run.responses, k), run.keep, run.limit);
  }

  /** Rows are produced in fetch order. */
  lemma AcceptedGrows(run: Run, k: nat)
    ensures |Accepted(run, k)| <= |Accepted(run, k + 1)|
    ensures Accepted(run, k) == Accepted(run, k + 1)[..|Accepted(run, k)|]
  {
    assert Fetched(run.responses, k + 1) == Fetched(run.responses, k) + BatchOf(ResponseAt(run.responses, k));
    KeptGrows(Fetched(run.responses, k), BatchOf(ResponseAt(run.responses, k)), run.keep, run.limit);
  }

  /** A rate-limited call hands over no messages and is repeated unchanged,
      after a sleep of at least a second. */
  lemma RetryRepeats(run: Run, first: Params, i: nat)
    requires StepOf(ResponseAt(run.responses, i)).Retry?
    ensures Fetched(run.responses, i + 1) == Fetched(run.responses, i)
    ensures Accepted(run, i + 1) == Accepted(run, i)
    ensures ParamsAt(run.responses, first, i + 1) == ParamsAt(run.responses, first, i)
    ensures Continues(run, i)
    ensures Waits(run.responses, i + 1) == Waits(run.responses, i) + [StepOf(ResponseAt(run.responses, i)).seconds]
  {
    assert Fetched(run.responses, i + 1) == Fetched(run.responses, i) + [];
  }

  /** Every sleep lasts at least a second. */
  lemma {:induction false} WaitsPositive(responses: seq<Response>, k: nat)
    ensures forall i :: 0 <= i < |Waits(responses, k)| ==> Waits(responses, k)[i] >= 1
  {
    if k > 0 {
      WaitsPositive(responses, k - 1);
    }
  }

  /** The resume checkpoint bounds only the calls before the first page: any
      query with `after` is the first query, and once a page was read every
      query asks for what is `before` an id. */
  lemma {:induction false} AfterOnlyFirst(responses: seq<Response>, first: Params, i: nat)
    requires first.before.None?
    ensures ParamsAt(responses, first, i).after.Some? ==> ParamsAt(responses, first, i) == first
    ensures ParamsAt(responses, first, i) == first || ParamsAt(responses, first, i).after.None?
    ensures ParamsAt(responses, first, i).before.Some? <==> ParamsAt(responses, first, i).after.None? && ParamsAt(responses, first, i) != first
  {
    if i > 0 {
      AfterOnlyFirst(responses, first, i - 1);
    }
  }

  /** A reverse-mode export that returns its count wrote every accepted row,
      sorted by numeric id when every id converts and by id string otherwise. */
  lemma ReverseOutput(run: Run, first: Params, outcome: Result<nat, Failure>, requests: seq<Params>,
                      waits: seq<nat>, written: seq<Row>)
    requires ExportedAs(run, first, outcome, requests, waits, written)
    requires run.reverse && outcome.Ok?
    ensures var rows := RowsUpTo(run, |requests|);
      && outcome == Ok(|rows|)
      && multiset(written) == multiset(rows)
      && (AllNumeric(rows, IdField, ParseInt) ==> SortedBy(written, (x: Row) => NumericKey(IdField, ParseInt, x)))
      && (!AllNumeric(rows, IdField, ParseInt) ==> SortedBy(written, (x: Row) => StringKey(IdField, x)))
  {
    var rows := RowsUpTo(run, |requests|);
    var sorted := AscendingRows(rows, IdField, ParseInt);
    assert sorted.Some?;
    assert DeliveryError(Fails(run.dest), sorted.value).None?;
    assert written == sorted.value;
  }

  lemma AllWritten(run: Run, k: nat, written: seq<Row>, collected: seq<Row>)
    requires k >= 1 && !run.reverse && EndOf(run, k).None?
    requires Final(run, k, written, collected)
    ensures written == RowsUpTo(run, k)
  {
  }

  lemma RowCount(run: Run, k: nat)
    ensures |RowsUpTo(run, k)| == |Accepted(run, k)|
  {
  }

  /** The pagination loop and the flush after it. */
  method Drain(run: Run, first: Params, out: OutputFile)
    returns (outcome: Result<nat, Failure>, requests: seq<Params>, waits: seq<nat>, written: seq<Row>)
    modifies out
    ensures ExportedAs(run, first, outcome, requests, waits, written)
    ensures out.entries == old(out.entries) + Entries(run.dest, written)
  {
    hide Accepted;
    hide RowsUpTo;
    hide InState;
    hide EndOf;
    hide GoesOn;
    hide Requests;
    hide Waits;
    hide AscendingRows;
    hide Deliverable;
    hide DeliveryError;
    hide Entries;
    var k, collected, count, failure;
    k, requests, waits, written, collected, count, failure := Paginate(run, first, out);
    if failure.Some? {
      return Err(failure.value), requests, waits, written;
    }
    RowCount(run, k);
    if !run.reverse {
      AllWritten(run, k, written, collected);
      return Ok(count), requests, waits, written;
    }
    var sorted := AscendingRows(collected, IdField, ParseInt);
    if sorted.None? {
      return Err(Unorderable), requests, waits, written;
    }
    ghost var before := written;
    var e;
    written, e := DeliverAll(run.dest, sorted.value, out);
    assert before == [];
    outcome := OutcomeOf(e, count);
  }

  /** `export_discord_messages`. `present` and `file` are the output file's
      existence and bytes when the run starts (read by the resume scan);
      `out` is that file opened for append; `sink` replaces the file when
      given. Returns the outcome (the count, or why the export raised), the
      queries sent, the sleeps taken, and the rows handed to the destination,
      in order. */
  method Export(opts: DiscordOptions, api: DiscordApi, sink: Option<Row -> Option<string>>, channelInput: string,
                present: bool, file: array<Byte>, decode: seq<Byte> -> LineParse<Value>, out: OutputFile)
    returns (outcome: Result<nat, Failure>, requests: seq<Params>, waits: seq<nat>, written: seq<Row>, log: seq<string>)
    modifies out
    ensures var dest := DestOf(opts, sink);
      var ctx := ContextOf(opts, api, sink, ParseChannelId(channelInput));
      && ExportedAs(RunOf(opts, api, ctx, dest), FirstParams(ResumeKey(opts, present, file[..], decode)),
                    outcome, requests, waits, written)
      && out.entries == old(out.entries) + HeaderFor(dest, old(out.entries)) + Entries(dest, written)
    ensures log == ProgressLog(ResumeLog(ResumeKey(opts, present, file[..], decode)), outcome, opts.outPath)
  {
    var channelId := ParseChannelId(channelInput);
    var dest := DestOf(opts, sink);
    out.Open(dest);
    ghost var afterOpen := out.entries;
    var lastId := ReadResume(opts.resume && opts.fmt == "jsonl", present, file, decode);
    assert lastId == ResumeKey(opts, present, file[..], decode);
    var ctx := ContextOf(opts, api, sink, channelId);
    var run := RunOf(opts, api, ctx, dest);
    assert run.dest == dest;
    hide *;
    outcome, requests, waits, written := Drain(run, FirstParams(lastId), out);
    log := ProgressLog(ResumeLog(lastId), outcome, opts.outPath);
  }
}
