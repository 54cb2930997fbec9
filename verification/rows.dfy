/** The normalised record every exporter writes: one fixed-key row per message.
    Values are the few JSON scalars the rows hold. */
module Rows {
  import opened Common

  datatype Value = VNone | VStr(s: string) | VInt(i: int) | VBool(b: bool)

  /** Python truthiness of a row value. */
  predicate TruthyValue(v: Value) {
    match v
    case VNone => false
    case VStr(s) => s != ""
    case VInt(i) => i != 0
    case VBool(b) => b
  }

  /** `str(v)`, as an f-string renders it. */
  function Show(v: Value): string {
    match v
    case VNone => "None"
    case VStr(s) => s
    case VInt(i) => IntToString(i)
    case VBool(b) => if b then "True" else "False"
  }

  function OptStr(o: Option<string>): (v: Value)
    ensures o.None? <==> v == VNone
  {
    match o
    case None => VNone
    case Some(s) => VStr(s)
  }

  function OptInt(o: Option<int>): (v: Value)
    ensures o.None? <==> v == VNone
  {
    match o
    case None => VNone
    case Some(i) => VInt(i)
  }

  /** Python's `a or b` on row values. */
  function OrValue(a: Value, b: Value): Value {
    if TruthyValue(a) then a else b
  }

  /** A row dictionary. `ts` is present only in Slack rows; `mediaPath` only
      when the exporter tried to download the message's media. */
  datatype Row = Row(
    id: Value,
    ts: Option<Value>,
    date: Value,
    chatId: Value,
    chatTitle: Value,
    senderId: Value,
    senderUsername: Value,
    senderDisplay: Value,
    text: Value,
    replyToId: Value,
    views: Value,
    forwards: Value,
    editDate: Value,
    viaBotId: Value,
    isPinned: bool,
    media: bool,
    mediaType: Value,
    mediaFileName: Value,
    mediaPath: Option<Value>)

  /** The keys a row dictionary can have. */
  datatype Field =
    | Id | Ts | Date | ChatId | ChatTitle | SenderId | SenderUsername | SenderDisplay | Text
    | ReplyToId | Views | Forwards | EditDate | ViaBotId | IsPinned | Media | MediaType
    | MediaFileName | MediaPath

  /** The key as it appears in the output (a JSON key, a CSV column). */
  function FieldName(f: Field): string {
    match f
    case Id => "id"
    case Ts => "ts"
    case Date => "date"
    case ChatId => "chat_id"
    case ChatTitle => "chat_title"
    case SenderId => "sender_id"
    case SenderUsername => "sender_username"
    case SenderDisplay => "sender_display"
    case Text => "text"
    case ReplyToId => "reply_to_id"
    case Views => "views"
    case Forwards => "forwards"
    case EditDate => "edit_date"
    case ViaBotId => "via_bot_id"
    case IsPinned => "is_pinned"
    case Media => "media"
    case MediaType => "media_type"
    case MediaFileName => "media_file_name"
    case MediaPath => "media_path"
  }

  /** The keys every row has after `id` (and `ts`). */
  const BaseKeys: seq<Field> := [Date, ChatId, ChatTitle, SenderId, SenderUsername, SenderDisplay, Text,
    ReplyToId, Views, Forwards, EditDate, ViaBotId, IsPinned, Media, MediaType, MediaFileName]

  /** The keys of the row dictionary, in insertion order. */
  function Keys(row: Row): (ks: seq<Field>)
    ensures Id in ks && MediaFileName in ks
    ensures MediaPath in ks <==> row.mediaPath.Some?
    ensures Ts in ks <==> row.ts.Some?
  {
    [Id] + (if row.ts.Some? then [Ts] else []) + BaseKeys + (if row.mediaPath.Some? then [MediaPath] else [])
  }

  /** A CSV header: the seventeen keys every row has, with the optional `ts`
      (after `id`) and `media_path` (last) columns. */
  datatype Columns = Columns(ts: bool, mediaPath: bool)

  /** The header's field names, in column order. */
  function ColumnList(c: Columns): (fs: seq<Field>)
    ensures Ts in fs <==> c.ts
    ensures MediaPath in fs <==> c.mediaPath
  {
    [Id] + (if c.ts then [Ts] else []) + BaseKeys + (if c.mediaPath then [MediaPath] else [])
  }

  /** `sep.join(parts) or None`. */
  function JoinOrNone(sep: string, parts: seq<string>): (v: Value)
    requires sep != ""
    ensures v == VNone <==> parts == [] || (|parts| == 1 && parts[0] == "")
  {
    JoinEmpty(sep, parts);
    var j := Join(sep, parts);
    if j == "" then VNone else VStr(j)
  }
}
