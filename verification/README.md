# Chat exporter model

A Dafny model of the core of `slack_telegram_scraper` (ChatTools Exporter), a
tool that copies the history of a Slack channel, a Discord channel or a
Telegram chat into a JSON-lines file, a CSV file or Notion pages.

What is modelled:

- **Row normalisation** (`rows.dfy`, `Slack.MsgToRow`, `Discord.MsgToRow`,
  `Telegram.MsgToRow`). Each platform's message becomes the same flat row. It has
  `id`, `date`, `chat_id`, `chat_title`, the sender fields, `text`, the reply,
  view, forward, edit and bot fields, `is_pinned`, `media`, `media_type` and
  `media_file_name`. Slack rows add `ts`, and rows whose media were downloaded
  add `media_path`. Keys are kept in the dictionary's insertion order, and JSON
  `null` is the row value `VNone`.
- **The three export loops.** Each is a method over a finite script of API
  answers (Slack pages, Discord responses, the Telegram iterator's messages).
  It returns the outcome (the count, or the exception that ends the export),
  the requests it made, the sleeps it took and the rows it handed to the
  destination, in order. The filter chain is shared in shape by all three
  (`Stream`, `Pipeline`):
  - date bounds;
  - `only_media` and `only_text`;
  - user entries, matched by id or by lower-cased name;
  - keywords, matched case-insensitively;
  - the `limit` counter.
- **Resume.** `read_last_ts_jsonl` / `read_last_id_jsonl` scan a JSON-lines
  file backwards in 4096-byte blocks over an `array` of bytes (`Checkpoint`).
- **Destinations.** `FileSink.OutputFile` is the append-only output file.
  Opening a CSV file writes the header only when the file is empty, and
  `csv.DictWriter` refuses a row with a key outside the header.
  `Notion.NotionSink` is the Notion writer: a page per row, or rows queued by
  day and written by `finalize`. The Notion request retry loop is
  `Notion.Request`.
- **The HTTP server's task registry** (`Server`): task state, its log and the
  newest-500 view, the two runners (CLI subprocess and in-process with a
  sink), the request checks of the extract endpoints, and the Slack and
  Discord channel listings.

Behaviours the code has, modelled as written:

- **The upper date bound is `max_date` at 00:00.** Slack passes it as
  `latest` with `inclusive=False`. Telegram drops messages after that
  instant. Messages sent later on the `max_date` day are therefore not
  exported.
- **Discord cannot apply a date bound.** Its bounds are naive datetimes
  and a parsed message timestamp is aware. With `min_date` or `max_date`
  set, the export raises a TypeError at the first message whose timestamp
  parses (`Discord.DateCheckRaises`, see Findings). The Discord export loop
  uses the intended comparison (`Discord.DateOk`).
- **Discord sends `after` only once.** It sends the resume checkpoint as
  `after` on the first query only. Every later query asks for what is
  `before` the smallest id of the last page (`Discord.AfterOnlyFirst`).
- **Telegram's limit counts fetched messages.** It is passed to the iterator,
  so it bounds the messages fetched, not the ones accepted
  (`Telegram.LimitCountsFetched`).
- **Telegram resumes two ids on.** It resumes with `min_id = last_id + 1`.
  Because `min_id` is exclusive, the message with id `last_id + 1` is never
  fetched (`Telegram.ResumeSkipsNext`, see Findings).
- **The Telegram CSV header has no `media_path` column.** A CSV export that
  downloads media therefore raises at the first row with media
  (`Telegram.CsvRefusesMedia`).
- **Telegram sink mode fails at the 500th message.** The loop flushes a file
  it never opened on every 500th counted message. That ends the export with an
  `AttributeError` right after the sink took that message
  (`Telegram.SinkModeStopsAt500`, see Findings). Fewer messages complete normally
  (`Telegram.SinkModeCompletes`).
- **A user entry of just "@" is stripped to "".** It then lets through every
  Telegram message without a sender, and every message whose sender has no
  username (`Telegram.LoneAtMatchesSenderless`).
- **A Notion database destination never groups by day**
  (`Notion.DatabaseNeverGroups`).

The backward checkpoint scan loses a last record longer than 4095 bytes (see
Findings). The exporters resume from the scan as written
(`Checkpoint.ReadResume`). It finds a last record shorter than a block
(`Checkpoint.ShortLastRecordKept`). After a longer one it finds no checkpoint,
and the export starts over. `Checkpoint.ReadLastCompleteKey` is the corrected
scan, proved against the whole-file reference `Checkpoint.LastCompleteKey`.

## Model

| member | source | states |
|---|---|---|
| Common.OrElse | src/chattools_exporter/notion_writer.py:101 | `a or b`: `a` when it is truthy, else `b` |
| Common.Lower | src/chattools_exporter/export_slack.py:278 | same length as the input, each character mapped by itself: ASCII capitals to small letters, every other character kept |
| Common.LStrip | src/chattools_exporter/export_telegram.py:175 | a suffix of the input, everything removed before it is the character, and the result does not start with it |
| Common.Truncate | src/chattools_exporter/notion_writer.py:69 | `s[:n]`: a prefix of `s`, of length `n` when `s` is longer |
| Common.ParseInt | src/chattools_exporter/export_discord.py:290 | `int(s)`: a value exactly for an optional sign followed by at least one decimal digit, negative only after '-' |
| Common.ParseIntToString | src/chattools_exporter/export_discord.py:290-291 | `int(str(n)) == n` for every integer |
| Common.Find | src/chattools_exporter/export_discord.py:144 | the first index where the separator occurs, or -1 when it occurs nowhere |
| Common.Split | src/chattools_exporter/export_discord.py:144 | `s.split(sep)`: at least one part, and exactly one when the separator does not occur |
| Common.SplitParts | src/chattools_exporter/export_discord.py:144 | no part of a split contains the separator |
| Common.JoinSplit | src/chattools_exporter/export_discord.py:144 | joining the parts of a split with the same separator gives the string back |
| Common.RetryWait | src/chattools_exporter/export_discord.py:223-226 | the rate-limit sleep is at least one second, one second without a header, and the ValueError exactly when the header is not an integer |
| Common.RetryWaitSeconds | src/chattools_exporter/notion_writer.py:24-28 | a header of n >= 1 seconds sleeps exactly n seconds |
| Rows.Keys | src/chattools_exporter/export_slack.py:128-154 | the row's keys always hold `id` and `media_file_name`, `ts` exactly when the row has one, `media_path` exactly when set |
| Rows.JoinOrNone | src/chattools_exporter/export_discord.py:94-95 | `sep.join(parts) or None` is None exactly for no parts or a single empty part |
| Stream.SelectMembers | src/chattools_exporter/export_slack.py:269-285 | the filter chain keeps exactly the messages that pass it, in order, and keeps all when all pass |
| Stream.SelectAppend | src/chattools_exporter/export_slack.py:265 | filtering page after page equals filtering their concatenation |
| Stream.TakeLimit | src/chattools_exporter/export_slack.py:266-267 | the `limit and count >= limit` test keeps a prefix of the accepted items: all when the limit is unset or 0, at most `limit` otherwise |
| Stream.TakeLimitStable | src/chattools_exporter/export_slack.py:305-306 | once the limit is reached, later messages add nothing |
| Stream.KeptNext | src/chattools_exporter/export_discord.py:238-286 | an accepted message below the limit is the next row of the whole stream, whatever follows |
| Stream.MapSeqAt | src/chattools_exporter/export_discord.py:203-204 | the i-th image is the image of the i-th item |
| Stream.SelectMapMembers | src/chattools_exporter/export_telegram.py:174-175 | a filtered list comprehension holds the image of every item that passes, and only such images |
| OutputFormat.Ext | src/chattools_exporter/export_slack.py:37 | `os.path.splitext(path)[1]`: empty, or a suffix of the path that starts with its only '.' and holds no '/' |
| OutputFormat.DetectFormat | src/chattools_exporter/export_slack.py:34-42 | an explicit format wins; otherwise "jsonl", "csv" or the ValueError |
| OutputFormat.ExtOfName | src/chattools_exporter/export_slack.py:37 | a name ending in ".<e>" after a non-dot character has extension ".<e>" |
| OutputFormat.DetectFormatByName | src/chattools_exporter/export_telegram.py:34-42 | extension detection is case-insensitive: the two endings give their format, every other ending the ValueError |
| OutputFormat.NoDotNoFormat | src/chattools_exporter/export_discord.py:34-42 | a name without a dot in its last component needs an explicit format |
| Checkpoint.LastParsedIndex | src/chattools_exporter/export_slack.py:71-78 | the index of the last non-blank line that parses, and no later line is non-blank and parses |
| Checkpoint.LastParsedIndexAppend | src/chattools_exporter/export_slack.py:71-78 | lines appended after others take precedence when one of them parses |
| Checkpoint.SearchBackward | src/chattools_exporter/export_slack.py:71-78 | the reversed loop over lines finds the last parseable non-blank line and its key |
| Checkpoint.WindowFrom | src/chattools_exporter/export_slack.py:62-69 | where the block loop stops: a block boundary counted from the end, at the start of the file or holding a line break in the window |
| Checkpoint.WindowShape | src/chattools_exporter/export_discord.py:62-69 | the window ends in a "\n" or starts the file, and the window one block shorter holds no "\n" |
| Checkpoint.ReadLastKey | src/chattools_exporter/export_telegram.py:45-70 | the scan as written: None for a missing or empty file, else the key of the last parseable line of the window |
| Checkpoint.LongLastRecordLost | src/chattools_exporter/export_slack.py:57-82 | a last record longer than 4095 bytes is seen only as its last 4095 bytes |
| Checkpoint.LongRecordCounterexample | src/chattools_exporter/export_discord.py:53-78 | a 4097-byte record that parses whole gives no checkpoint under the scan as written |
| Checkpoint.LastCompleteKey | src/chattools_exporter/export_telegram.py:45-70 | the key of the last complete non-blank line of the file that parses |
| Checkpoint.LastCompleteKeyOfRecord | src/chattools_exporter/export_slack.py:57-82 | after appending a parseable record line, the checkpoint is that record's key, whatever came before |
| Checkpoint.ReadLastCompleteKey | src/chattools_exporter/export_slack.py:57-82 | the same bounded backward block scan returns LastCompleteKey of the whole file |
| Checkpoint.ReadResume | src/chattools_exporter/export_slack.py:207-209 | (the same step at export_discord.py:206-208 and export_telegram.py:168-170) without `--resume` on a JSONL export, or with no output file, there is no checkpoint; otherwise it is what the scan as written (`read_last_*_jsonl`) returns |
| Checkpoint.ShortLastRecordKept | src/chattools_exporter/export_slack.py:57-82 | the scan as written returns the last record's key whenever that record is shorter than 4096 bytes and parses |
| Checkpoint.WholeFileFromCut | src/chattools_exporter/export_discord.py:70-78 | a parseable line found after a cut at a line start is the answer for the whole file |
| Ordering.KeyLeTotal | src/chattools_exporter/export_slack.py:313-316 | the sort order compares any two keys |
| Ordering.KeyLeTrans | src/chattools_exporter/export_slack.py:313-316 | the sort order is transitive |
| Ordering.InsertSorted | src/chattools_exporter/export_slack.py:313-316 | inserting into a sorted list keeps it sorted |
| Ordering.InsertStable | src/chattools_exporter/export_discord.py:294-297 | inserting an element puts it before every element that shares its key, and keeps those in their order |
| Ordering.SortByCorrect | src/chattools_exporter/export_discord.py:294-297 | `list.sort(key=...)` gives a list sorted by the key that is a permutation of its input, and is stable: for every key, the elements with that key keep their input order |
| Ordering.AscendingRows | src/chattools_exporter/export_slack.py:311-316 | a permutation sorted by numeric key when every key converts, else by the key string; the TypeError exactly when that fallback meets a missing key among two or more rows |
| FileSink.ExtraKeysAreUnlisted | src/chattools_exporter/export_slack.py:236-241 | the keys `DictWriter` refuses are exactly the row's keys outside the header (the model lists them in the row's order; the source's set has no fixed order) |
| FileSink.BaseKeysListed | src/chattools_exporter/export_discord.py:192-197 | every key except `ts` and `media_path` is a column of every header |
| FileSink.WriteError | src/chattools_exporter/export_slack.py:297-303 | a row is refused only by the sink's exception or by keys outside the CSV header; JSON lines never refuse |
| FileSink.Entries | src/chattools_exporter/export_slack.py:300-303 | one file line per written row, nothing for a sink |
| FileSink.HeaderFor | src/chattools_exporter/export_slack.py:241-243 | a header only for CSV into an empty file |
| FileSink.DeliverableAt | src/chattools_exporter/export_slack.py:317-324 | the rows taken are those before the first refused row |
| FileSink.FirstRefused | src/chattools_exporter/export_discord.py:276-285 | a refused row after rows that were all taken is the refusal that stops the delivery |
| FileSink.RunKeepsHeaderFirst | src/chattools_exporter/export_slack.py:231-243 | appending an export keeps a file with at most one header, as its first line |
| FileSink.OutputFile.Open | src/chattools_exporter/export_slack.py:231-243 | opening appends the header exactly when the file is empty and CSV is used |
| FileSink.OutputFile.Emit | src/chattools_exporter/export_slack.py:297-303 | a taken row appends its line; a refused row leaves the file unchanged and reports the error |
| Pipeline.KeptPass | src/chattools_exporter/export_slack.py:265-285 | every accepted message is a fetched one that passes the filters, at most `limit` of them |
| Pipeline.KeptGrows | src/chattools_exporter/export_slack.py:265-304 | messages are accepted in fetch order: what a prefix accepts comes first among what the whole accepts |
| Pipeline.PageDone | src/chattools_exporter/export_slack.py:265-306 | after a page's loop ended, what was accepted is what the page allows under the limit |
| Pipeline.CollectPage | src/chattools_exporter/export_discord.py:238-286 | reverse mode: the rows of the messages accepted from the page are appended to `collected`, in order |
| Pipeline.Offer | src/chattools_exporter/export_discord.py:242-286 | one message below the limit: the count and rows become those of the stream with it, unless its row is refused, which leaves the rows unchanged and reports the refusal |
| Pipeline.EmitPage | src/chattools_exporter/export_slack.py:265-304 | write-as-you-go: the page's accepted rows are written up to the first refused one, and the file grows by their lines |
| Pipeline.DeliverAll | src/chattools_exporter/export_slack.py:317-324 | the buffered rows are handed over in order until the first refusal, and the file grows by exactly those lines |
| Slack.MsgToRow | src/chattools_exporter/export_slack.py:128-154 | `media` exactly when the message has files; the type and name fields are None exactly when their joins are empty; `id` is `client_msg_id`, else `ts`; `sender_id` is `user`, else `bot_id`; `ts` always set |
| Slack.LookupName | src/chattools_exporter/export_slack.py:90-94 | the trimmed input without one leading '#' |
| Slack.FirstNamed | src/chattools_exporter/export_slack.py:97-104 | the index of the first listing entry with the name, none before it, or -1 |
| Slack.GetChannelId | src/chattools_exporter/export_slack.py:89-117 | an input starting with "C" or "G" is returned trimmed; otherwise a non-empty id of an entry with that name, or "Channel not found" |
| Slack.ChannelLookup | src/chattools_exporter/export_slack.py:95-117 | a name resolves exactly when its first entry in the listing has a non-empty id |
| Slack.ResumeOldest | src/chattools_exporter/export_slack.py:207-217 | with a truthy checkpoint that converts, `oldest` is the larger of the two bounds; otherwise it is unchanged |
| Slack.FileTakesAll | src/chattools_exporter/export_slack.py:231-243 | without a sink every Slack row fits the header, so nothing is refused |
| Slack.ExportRow | src/chattools_exporter/export_slack.py:287-292 | the row of an accepted message always carries `ts` |
| Slack.ReadPage | src/chattools_exporter/export_slack.py:259-309 | one answer: an exception or empty page ends the loop, otherwise the page's accepted rows are written or buffered and the next cursor is taken |
| Slack.FetchPage | src/chattools_exporter/export_slack.py:249-309 | one history call with the previous cursor and the same bounds, then the page |
| Slack.Paginate | src/chattools_exporter/export_slack.py:248-309 | the loop stops at an empty page, the limit, a missing cursor or an exception, having made exactly the calls it needed |
| Slack.AcceptedPass | src/chattools_exporter/export_slack.py:265-285 | every accepted message was fetched and passes the filters; a positive limit bounds their number |
| Slack.AcceptedGrows | src/chattools_exporter/export_slack.py:265-304 | rows are produced in fetch order across pages |
| Slack.ReverseOutput | src/chattools_exporter/export_slack.py:311-324 | a reverse export that returns its count wrote every accepted row, sorted by numeric ts when all convert and by ts string otherwise |
| Slack.AllWritten | src/chattools_exporter/export_slack.py:294-304 | a write-as-you-go export that stopped without an error wrote every accepted row |
| Slack.RowCount | src/chattools_exporter/export_slack.py:304 | one row per accepted message |
| Slack.Drain | src/chattools_exporter/export_slack.py:245-330 | the loop and the flush after it behave as ExportedAs describes, and the file grows by the written rows' lines |
| Slack.Export | src/chattools_exporter/export_slack.py:179-330 | an unknown channel raises before any call; otherwise the export resumes from the checkpoint, opens the destination and runs as ExportedAs describes; its progress log is "Resuming after ts …" when the checkpoint is truthy, then "Done. Exported n messages to path" when the export returns a count |
| Discord.MsgToRow | src/chattools_exporter/export_discord.py:89-115 | `media` exactly when there are attachments; the sender display is `global_name` or `username`; `edit_date` only for a truthy edit stamp |
| Discord.ParseChannelId | src/chattools_exporter/export_discord.py:140-150 | the trimmed input unless it is an http URL holding "/channels/"; any other result holds no '/' |
| Discord.ChannelFromUrl | src/chattools_exporter/export_discord.py:140-150 | `<host>/channels/<guild>/<channel>` yields `<channel>` for any host without the marker |
| Discord.DateCheckRaises | src/chattools_exporter/export_discord.py:243-250 | with the naive bounds of `parse_date`, the date test raises exactly when a bound is set and the timestamp parses, and otherwise keeps the message |
| Discord.BoundedDateRaises | src/chattools_exporter/export_discord.py:243-250 | a message just after `min_date`, which the filter should keep, raises the TypeError |
| Discord.DateOkIntended | src/chattools_exporter/export_discord.py:243-250 | the intended date filter agrees with the code wherever the code does not raise, and keeps exactly the parsed timestamps within both bounds |
| Discord.FilterListMembers | src/chattools_exporter/export_discord.py:203-204 | the keyword and user lists hold every non-empty entry lower-cased, and nothing else |
| Discord.MinId | src/chattools_exporter/export_discord.py:290 | `min(int(s) ...)`: the least id, or the ValueError of the first id that does not convert |
| Discord.SmallestIdOfPage | src/chattools_exporter/export_discord.py:290 | the smallest id belongs to a message of the page, and no truthy id of the page converts to less |
| Discord.FirstParams | src/chattools_exporter/export_discord.py:212-216 | the first query has limit 100 and `after` exactly when the checkpoint is truthy |
| Discord.ReadBatch | src/chattools_exporter/export_discord.py:238-291 | a page goes through the limit and filters; unless stopped, the next query asks for what is before its smallest id |
| Discord.ReadResponse | src/chattools_exporter/export_discord.py:219-236 | an exception or an error status (403, 401, other) ends the export, a 429 sleeps and repeats, an empty page ends the loop |
| Discord.FetchBatch | src/chattools_exporter/export_discord.py:218-291 | one call with the current query, then its response |
| Discord.Paginate | src/chattools_exporter/export_discord.py:218-291 | the loop stops at an empty page, the limit or an exception, with the queries and sleeps of every response |
| Discord.AcceptedPass | src/chattools_exporter/export_discord.py:238-268 | every accepted message was fetched and passes the filters; a positive limit bounds their number |
| Discord.AcceptedGrows | src/chattools_exporter/export_discord.py:238-286 | rows are produced in fetch order across responses |
| Discord.RetryRepeats | src/chattools_exporter/export_discord.py:223-226 | a rate-limited call hands over no messages, records its sleep, and the same query is sent again |
| Discord.WaitsPositive | src/chattools_exporter/export_discord.py:223-226 | every sleep lasts at least a second |
| Discord.AfterOnlyFirst | src/chattools_exporter/export_discord.py:214-216 | only the first query can carry `after`; after a page every query carries `before` |
| Discord.ReverseOutput | src/chattools_exporter/export_discord.py:293-305 | a reverse export that returns its count wrote every accepted row, sorted by numeric id when all convert and by id string otherwise |
| Discord.AllWritten | src/chattools_exporter/export_discord.py:276-286 | a write-as-you-go export that stopped without an error wrote every accepted row |
| Discord.RowCount | src/chattools_exporter/export_discord.py:286 | one row per accepted message |
| Discord.FileTakesAll | src/chattools_exporter/export_discord.py:185-199 | without a sink no Discord row is refused: none has a `ts` key |
| Discord.Drain | src/chattools_exporter/export_discord.py:212-311 | the loop and the flush after it behave as ExportedAs describes, and the file grows by the written rows' lines |
| Discord.Export | src/chattools_exporter/export_discord.py:153-311 | the export opens the destination, resumes from the checkpoint and runs as ExportedAs describes; its progress log is "Resuming after id …" when the checkpoint is truthy, then "Done. Exported n messages to path" when the export returns a count |
| Telegram.SenderDisplay | src/chattools_exporter/export_telegram.py:79-135 | the joined first and last names, else the username, else the id |
| Telegram.MsgToRow | src/chattools_exporter/export_telegram.py:79-135 | `id`, `date`, `text` and `is_pinned` from the message; `media` exactly when it has media, with the media type per kind and a file name only for a named document; the sender fields None exactly without a sender |
| Telegram.KeywordListMembers | src/chattools_exporter/export_telegram.py:174 | every non-blank keyword is in the list stripped and lower-cased, and nothing else; no entry is empty |
| Telegram.UserListMembers | src/chattools_exporter/export_telegram.py:175 | every non-blank user entry is in the list stripped and without leading '@'s, and nothing else |
| Telegram.LoneAtMatchesSenderless | src/chattools_exporter/export_telegram.py:175 | an entry of "@" becomes "", and then every message without a sender, and every message whose sender has no username, passes the user filter |
| Telegram.IteratedBounds | src/chattools_exporter/export_telegram.py:200-205 | the iterator yields only history newer than `min_id`, at most `limit`, and all of it without a limit |
| Telegram.MinIdOf | src/chattools_exporter/export_telegram.py:204 | 0 for a falsy checkpoint, `last_id + 1` for an integer one, the TypeError exactly for a non-empty string |
| Telegram.ResumeSkipsNext | src/chattools_exporter/export_telegram.py:204 | after resuming from `last_id`, every fetched id is above `last_id + 1` |
| Telegram.ResumeFetchesAllNewer | src/chattools_exporter/export_telegram.py:204 | with `min_id = last_id` instead, the iterator yields exactly the messages of the history whose id is above `last_id` |
| Telegram.FetchMedia | src/chattools_exporter/export_telegram.py:234-249 | a flood wait sleeps its seconds and retries once, and the retry's failure escapes; any other first failure sets `media_path` to None; a saved path is the value |
| Telegram.DownloadMedia | src/chattools_exporter/export_telegram.py:234-249 | the download returns what FetchMedia describes |
| Telegram.ConsumeStops | src/chattools_exporter/export_telegram.py:199-272 | once the loop has raised, later messages change nothing |
| Telegram.ConsumeWrites | src/chattools_exporter/export_telegram.py:206-267 | the count is the number of rows handed over, which are the accepted messages' rows in order (all of them unless the loop raised) |
| Telegram.SinkStep | src/chattools_exporter/export_telegram.py:251-267 | in sink mode an accepted message always counts, and raises exactly when it is a 500th one |
| Telegram.SinkModeCompletes | src/chattools_exporter/export_telegram.py:251-267 | in sink mode fewer than 500 accepted messages complete normally, all counted |
| Telegram.SinkModeStopsAt500 | src/chattools_exporter/export_telegram.py:263-267 | in sink mode the 500th accepted message ends the loop with the AttributeError, having counted 500 |
| Telegram.TickIntendedNeverFails | src/chattools_exporter/export_telegram.py:263-267 | with the flush guarded by an open file, the 500-message step never raises and only adds the progress line; it is the step as written for a file destination, and the step as written raises in sink mode |
| Telegram.CsvRefusesMedia | src/chattools_exporter/export_telegram.py:189-196 | a CSV export that downloads media ends normally only when no accepted message has media |
| Telegram.DeliverRow | src/chattools_exporter/export_telegram.py:251-267 | hand-over, count and periodic flush as Deliver describes; the file grows by the written rows' lines |
| Telegram.HandleMessage | src/chattools_exporter/export_telegram.py:206-267 | one iteration as Step describes |
| Telegram.ConsumeAll | src/chattools_exporter/export_telegram.py:206-272 | the whole loop as Consume describes; the file grows by the written rows' lines |
| Telegram.Export | src/chattools_exporter/export_telegram.py:142-276 | the export computes `min_id`, opens the destination, runs the loop over what the iterator yields and logs as ExportedAs describes |
| Telegram.LimitCountsFetched | src/chattools_exporter/export_telegram.py:200-205 | an export that returns its count counted at most `limit` messages, each of them fetched and accepted |
| Notion.RequestFrom | src/chattools_exporter/notion_writer.py:21-37 | one to five requests, no more sleeps than requests, each sleep at least a second |
| Notion.Request | src/chattools_exporter/notion_writer.py:21-37 | the retry loop returns the result, sleeps and request count that RequestFrom gives from the first attempt |
| Notion.RateLimitedFrom | src/chattools_exporter/notion_writer.py:24-28 | when every answer is a 429 the request returns None without raising, having sent every remaining attempt |
| Notion.AllRateLimited | src/chattools_exporter/notion_writer.py:22-28 | five rate limits: `_request` gives up and returns None |
| Notion.ServerErrorsFrom | src/chattools_exporter/notion_writer.py:33-37 | 5xx answers are retried after `1 + attempt` seconds until the fifth, whose error is raised |
| Notion.AllServerErrors | src/chattools_exporter/notion_writer.py:33-37 | five 5xx answers: sleeps of 1, 2, 3 and 4 seconds, then the error |
| Notion.NoRetry | src/chattools_exporter/notion_writer.py:29-37 | a 2xx returns at once; a status that is neither 429, 2xx nor 5xx raises at once |
| Notion.TitlePropertyName | src/chattools_exporter/notion_writer.py:57-63 | the first property of type "title", with none before it, else "Name" |
| Notion.PageInDatabase | src/chattools_exporter/notion_writer.py:65-73 | the title is a prefix of the given one, cut to 2000 characters |
| Notion.ChildPage | src/chattools_exporter/notion_writer.py:75-83 | the title is a prefix of the given one, cut to 2000 characters |
| Notion.AddParagraph | src/chattools_exporter/notion_writer.py:88-97 | nothing exactly for empty text, else one paragraph of the text cut to 2000 characters |
| Notion.MakeBlocks | src/chattools_exporter/notion_writer.py:86-117 | title and sender lines first, one block per applicable optional line, the text last; 2 to 6 blocks, each 1 to 2000 characters |
| Notion.ChunksShape | src/chattools_exporter/notion_writer.py:177-179 | ceil(n/80) chunks of 1 to 80 blocks whose concatenation is the blocks |
| Notion.AppendAll | src/chattools_exporter/notion_writer.py:178-180 | at most one append call per chunk, stopping at the first that raises |
| Notion.AppendAllCalls | src/chattools_exporter/notion_writer.py:178-180 | when nothing raises, the chunks are appended one call each, in order |
| Notion.DayCalls | src/chattools_exporter/notion_writer.py:171-182 | a day that succeeds issues one page creation and ceil(n/80) appends of consecutive chunks that together are the day's blocks |
| Notion.NotionSink.constructor | src/chattools_exporter/notion_writer.py:133-143 | empty groups; for a database one `get_database` call and its title property, otherwise no call and no title property |
| Notion.NotionSink.Write | src/chattools_exporter/notion_writer.py:145-165 | grouping appends the row's blocks and a divider under its day and calls nothing; otherwise exactly one page call for the row |
| Notion.NotionSink.AppendChunks | src/chattools_exporter/notion_writer.py:176-180 | the chunk loop issues the calls AppendAll describes |
| Notion.NotionSink.FinalizeDay | src/chattools_exporter/notion_writer.py:171-182 | one day: the child page, its chunked appends and the progress line, as DayRun describes |
| Notion.NotionSink.Finalize | src/chattools_exporter/notion_writer.py:167-182 | nothing unless grouping by day with groups; then the days in first-seen order, stopping at the first exception |
| Notion.DatabaseNeverGroups | src/chattools_exporter/notion_writer.py:141-168 | a database destination never groups by day, whatever the mode |
| Server.TaskState.constructor | src/chattools_exporter/server.py:183-190 | a new task is running, with an empty log and no result, error or finishing time |
| Server.TaskState.Log | src/chattools_exporter/server.py:192-194 | one time-stamped entry is appended and nothing else changes |
| Server.TaskState.LogAll | src/chattools_exporter/server.py:264-265 | each progress message is appended in turn, time-stamped by its log position |
| Server.RunTask | src/chattools_exporter/server.py:262-278 | the task ends done with the result or in error with the message, its log extended by the progress lines, its finishing time set |
| Server.Stripped | src/chattools_exporter/server.py:362-370 | each stderr line stripped, one for one |
| Server.RunSubprocess | src/chattools_exporter/server.py:358-383 | start line and stripped stderr lines logged; exit code 0 is done with no count, nonzero the exit error, a launch failure its message |
| Server.RunInProcess | src/chattools_exporter/server.py:392-426 | a successful export is done with its count, and a finalize failure is only logged; a failed export is an error |
| Server.LastLogs | src/chattools_exporter/server.py:288 | `logs[-500:]`: the newest min(n, 500) entries, in order |
| Server.LastLogsSlide | src/chattools_exporter/server.py:288 | one more entry in a full log drops the oldest returned entry |
| Server.Registry.constructor | src/chattools_exporter/server.py:197 | no tasks |
| Server.Registry.Register | src/chattools_exporter/server.py:322-325 | a fresh running task stored under its id; other tasks unchanged |
| Server.Registry.GetTask | src/chattools_exporter/server.py:281-293 | 404 "Task not found" for an unknown id, else the task's fields with its newest 500 log entries |
| Server.PlanExtract | src/chattools_exporter/server.py:296-320 | the extract request checks: sink when all three Notion fields are set, else 400 without a path or a usable format |
| Server.NotionRequestAccepted | src/chattools_exporter/server.py:496-502 | with all three Notion fields the request proceeds, the format defaulting to "jsonl" and the path to the placeholder |
| Server.FileRequestChecks | src/chattools_exporter/server.py:503-513 | a file export is refused exactly without a path or without a format and a ".jsonl"/".csv" extension |
| Server.ServerAgreesWithExporter | src/chattools_exporter/server.py:628-638 | the server accepts exactly the file exports `detect_format` accepts, with the same format |
| Server.CsvByName | src/chattools_exporter/server.py:631-636 | a ".csv" name in any letter case is a CSV export without a format |
| Server.SlackMatchesAppend | src/chattools_exporter/server.py:571-574 | matching over two listings is the matches of the first, then those of the second |
| Server.TakeFull | src/chattools_exporter/server.py:576-579 | once `n` items are collected, the rest of the listing changes nothing |
| Server.SlackChannels | src/chattools_exporter/server.py:561-583 | the first `limit` channels whose names contain the lower-cased query, in listing order |
| Server.SlackChannelsBounds | src/chattools_exporter/server.py:561-583 | at most `limit` channels, each matching the query |
| Server.DiscordChannels | src/chattools_exporter/server.py:597-614 | 403 and other statuses become the two errors; otherwise the text channels matching the query, in order |
| Server.DiscordChannelsMembers | src/chattools_exporter/server.py:605-614 | the listing holds exactly the text channels whose names contain the query |

## Left out

- Network, file system and process I/O are not modelled directly. API answers are finite scripts of responses. The output file is `FileSink.OutputFile`, a sequence of lines. Subprocess output is the list of its stderr lines.
- Sleeps are returned as a trace of seconds, not performed.
- Wall-clock time and time stamps are parameters: `now`, and `clock` as a function of the log position.
- `parse_date` is an input: a date bound is already the instant of 00:00 of that day.
- The Slack numeric ts (`float(ts)`) and ISO conversions are oracles. So are Discord's `fromisoformat` and Telegram's `isoformat()`.
- `json.loads` of a line is an oracle decoder.
- JSON `null` and a missing key are both `VNone`.
- `int()` accepts only an optional sign and digits. Python also accepts surrounding whitespace and underscores between digits.
- Telegram.Iterated: assumes Telethon's `iter_messages` yields the history newer than `min_id`, in the requested order, cut at `limit`. Telethon is not part of this model.
- Discord.DateOk: the Discord export loop compares both bounds as instants. The code as written raises a TypeError when a bound is set and a timestamp parses. That behaviour is `Discord.DateCheckAsWritten` (see Findings), and the loop does not raise it.
- Common.Lower: maps only the ASCII capitals. Python's `str.lower()` also lowers non-ASCII letters such as "É", so keyword, user and channel-name matches that differ only in non-ASCII case match in the source but not in the model.
- FileSink.ExtraKeysAreUnlisted: the model lists a row's extra keys in the row's order. `csv.DictWriter` computes them as a set, so with two extra keys (`ts` and `media_path`) the order in its ValueError text is not fixed. No exporter produces two: the Slack header lists both keys, and Discord and Telegram rows never carry `ts`.
- Server.RunTask: `_run_task` is not called by any endpoint. Its result is narrowed to the `{"messages": n}` the runners store, where the source keeps whatever the target returns, None included.
- Checkpoint.ReadLastKey: the decoder either fails to parse a line or gives the field's value. When the last parseable line holds a truthy non-object such as `1`, `"x"` or `[1]`, `(last or {}).get(...)` raises an AttributeError. The model does not capture that, and the exporters only write objects.
- The exporters treat a sink as a function from row to optional exception. The `NotionSink` state is not threaded through an export; its own methods model it.
- Notion.NotionSink.constructor: takes the database's properties as an argument. A failing `get_database`, or one that returns None, is not modelled.
- Errors from `resp.json()` on a malformed body are not modelled.
- A missing `on_progress` is modelled as a log that is discarded.
- `ensure_dir`, and the file downloads of Slack and Discord, are a function from a message to its saved paths.
- Notion.DayOf: cuts a string date. A non-string `date` would make `[:10]` raise; every exporter writes a string.
- `test_connection`, `get_page`, `search` and the Notion search endpoint are not part of this model.
- The configuration and login endpoints and `tg_login_helper.py` are not part of this model.
- The command-line flags built for the subprocess are not part of this model. The subprocess is its stderr lines and exit code.
- The asyncio event loop of the in-process runner is left out.
- The thread that runs a task is left out. Tasks are never updated concurrently here.
- `finished_at` and `started_at` are integers, not floats.
- Slack.GetChannelId: a `SlackApiError` from `conversations_list`, and the `missing_scope` retry with public channels only, are not modelled. The listing is one directory of entries.
- Server.SlackChannels: requires the last page of the listing to carry no cursor, since otherwise the source keeps asking. The `cap` counter is the length of the collected items.
- Slack `conversations_info` failing is modelled by an absent channel name.

## Findings

| source | as written | input that shows it | evidently intended | confidence | as-written member | corrected member |
|---|---|---|---|---|---|---|
| src/chattools_exporter/export_slack.py:57-82, src/chattools_exporter/export_discord.py:53-78, src/chattools_exporter/export_telegram.py:45-70 | the backward scan stops at the first 4096-byte block holding a "\n"; a file ends in "\n", so a last record longer than 4095 bytes is split as only its tail, which does not parse | a file holding one 4097-byte JSON record line: the window is its last 4096 bytes, the fragment fails to parse, the checkpoint is None and the resumed export starts over | the key of the last complete record, whatever its length | not executed | Checkpoint.ReadLastKey, Checkpoint.LongRecordCounterexample | Checkpoint.ReadLastCompleteKey, Checkpoint.LastCompleteKeyOfRecord |
| src/chattools_exporter/export_discord.py:243-250 | `parse_date` builds naive datetimes and the message timestamp is parsed with "+00:00", so `m_dt < min_dt` and `m_dt > max_dt` compare naive with aware datetimes, which raises TypeError | a Discord export with `min_date` set, whose first fetched message has a parseable timestamp: the export raises instead of filtering | keep the messages between the bounds, as the Telegram exporter does by dropping the offset | not executed | Discord.DateCheckAsWritten, Discord.BoundedDateRaises | Discord.DateOk, Discord.DateOkIntended |
| src/chattools_exporter/export_telegram.py:263-264 | every 500th counted message calls `out_f.flush()`, but in sink mode `out_f` is None, so the call raises AttributeError | a sink-mode Telegram export that accepts 500 messages: the 500th is handed to the sink, then the export raises | flush only when a file is open (`if out_f: out_f.flush()`), and go on | not executed | Telegram.SinkStep, Telegram.SinkModeStopsAt500 | Telegram.TickIntended, Telegram.TickIntendedNeverFails |
| src/chattools_exporter/export_telegram.py:204 | a resume passes `min_id=(last_id + 1)`, and `min_id` is exclusive, so the message with id `last_id + 1` is skipped | a resume after `last_id` 5 from a history holding message 6: message 6 is never fetched | pass `min_id=last_id`, so every message newer than the checkpoint is fetched | not executed | Telegram.MinIdOf, Telegram.ResumeSkipsNext | Telegram.ResumeFetchesAllNewer |
