# Session-log importer, modelled in Dafny

This project models the core of `scripts/import_session_logs.py`. That script reads a
line-delimited log of an assistant session and picks out the user and assistant turns.
It scores each turn with a fixed importance policy (`classify_importance`). It sends
the worthwhile turns to an episodic-memory store, one record per turn, and counts what
it imported and what it skipped.

The model has five modules:

- `Text` (text.dfy) holds the string operations the script relies on:
  - Python's `sub in s` (`Contains`);
  - `str.lower` (`Lower`);
  - `sep.join` (`Join`) and a splitter (`Split`) that undoes it.
- `Importance` (importance.dfy) holds `classify_importance`:
  - the three marker lists (`Markers`), copied from the source;
  - the marker passes (`AnyIn`, `AnyInEither`);
  - the policy (`ClassifyWith`, and `Classify` with the source's own lists).
  Scores are integers in hundredths: the source's 0.85 is 85 and its discard threshold
  0.1 is 10. Every score is one of five constants and never the result of arithmetic, so
  this is exact.
- `SessionLog` (session_log.dfy) holds the shape of one decoded line (`Entry`, `Message`,
  `Content`, `Block`) and the per-turn text steps:
  - the block-flattening loop (`FlattenBlocks`, specified by `Flatten`);
  - truncation (`Truncate`);
  - the speaker label (`MemoryBody`);
  - the choice of event time (`EventTimeOf`).
- `Importer` (importer.dfy) holds the line loop of `import_logs`:
  - `PrepareLine` is the loop body up to the write. It is proved against the decision
    function `Triage`.
  - `ImportLogs` is the loop itself. It is proved against `Outcomes`, `Calls` and
    `Tally`.
  Two oracles stand for what the model cannot see:
  - `parses: string -> bool` says whether `datetime.fromisoformat` accepts a string;
  - `accepts: nat -> bool` says whether the k-th call to the store succeeds, counting
    from 0.
  A record (`Record`) keeps the raw `timestamp` value. In a real run its event time is
  computed first (`EventTimeOf`), inside the same `try` as the store call. When that
  raises, the line is counted as skipped and the store is not called. Otherwise the
  store receives a `Call`. `sent` is the list of these calls, in call order (`Calls`).
  A dry run computes no event time and calls nothing.
- `Wrappers` (wrappers.dfy) holds `Option`. Its `GetOr` models Python's `dict.get` with a
  default.

`Triage`, `Outcomes` and the lemmas about them take the marker lists as a parameter.
`PrepareLine` and `ImportLogs` always use the source's own lists (`Markers`), so the
importer is modelled with exactly the source's constants. The lemmas then hold for any
lists that have the properties they name. `ThreeLineScenario` applies them to `Markers`.

Behaviour of the code worth noting:
- A line that fails to decode, or whose `type` is neither "user" nor "assistant", is
  dropped without being counted. It is not counted as skipped (lines 93-94, 99-100).
- The speaker label and the default score come from `message.role`, not from the entry
  `type`. Any role other than "user" gets the assistant label (lines 103, 127-130).
- A ten-character turn passes the length filter but is still discarded when it carries a
  skip marker.
- Nothing is deduplicated.
- A dry run never evaluates the event time, so a line whose timestamp makes line 159
  raise (a string holding 'T' that `fromisoformat` rejects, such as "Tuesday"; a list
  or object holding "T"; a number, boolean or null) is imported by a dry run and
  skipped by every real run.

## Model

| member | source | states |
|---|---|---|
| Text.Contains | scripts/import_session_logs.py:60 | Python's `sub in s`; `Text.ContainsLowered`, `Text.ContainsWithin` and `Text.ContainsInSuffix` state its properties |
| Text.Join | scripts/import_session_logs.py:112 | `"\n".join(texts)`; `Text.SplitJoin` and `Text.JoinSplit` show that `Text.Split` undoes it |
| Wrappers.Option.GetOr | scripts/import_session_logs.py:96 | `dict.get` with a default: the value when present, otherwise the default |
| Text.Lower | scripts/import_session_logs.py:33 | `content.lower()` keeps the length and lowers each character on its own |
| Text.LowerIdempotent | scripts/import_session_logs.py:33 | lowering twice is lowering once |
| Text.ContainsLowered | scripts/import_session_logs.py:59-61 | a lower-case word found in the text is also found in the lowered text |
| Text.ContainsInSuffix | scripts/import_session_logs.py:119 | a word found in any suffix of the text is found in the text |
| Text.SplitJoin | scripts/import_session_logs.py:112 | splitting a `"\n".join` on the separator gives back the parts, when no part holds the separator |
| Text.JoinSplit | scripts/import_session_logs.py:112 | joining a split gives back the string |
| Importance.AnyIn | scripts/import_session_logs.py:64-71 | one marker pass over the lowered text; its meaning is stated by `Importance.AnyInMeaning` |
| Importance.AnyInEither | scripts/import_session_logs.py:59-61 | the skip pass over the lowered and the original text; its meaning is stated by `Importance.AnyInEitherMeaning` |
| Importance.ClassifyWith | scripts/import_session_logs.py:28-77 | the policy over given marker lists; its meaning is stated by `Importance.ClassifyMeaning` |
| Importance.Classify | scripts/import_session_logs.py:28-77 | `classify_importance` with the source's own marker lists; `Importance.ClassifyMeaning` and `Importance.CaseInsensitive` state its meaning |
| Importance.AnyInMeaning | scripts/import_session_logs.py:64-71 | the high and low passes find a marker exactly when some marker of the list occurs in the lowered text |
| Importance.AnyInEitherMeaning | scripts/import_session_logs.py:59-61 | the skip pass finds a marker exactly when some skip marker occurs in the lowered or the original text |
| Importance.ClassifyMeaning | scripts/import_session_logs.py:58-77 | the result is one of the five pairs; a skip marker gives (0, 0) whatever the role; otherwise a high marker gives (0.85, 0.6) even beside a low marker; otherwise a low marker gives (0.2, 0.0); otherwise "user" gives (0.5, 0.3) and any other role (0.4, 0.1); importance is below 0.1 exactly when a skip marker matched |
| Importance.SkipMarkersLowerCase | scripts/import_session_logs.py:53-56 | every skip marker is already in lower case |
| Importance.SkipHitIsCaseFolded | scripts/import_session_logs.py:59-61 | with lower-case skip markers, the original-case test never adds a match to the lowered test |
| Importance.CaseInsensitiveWith | scripts/import_session_logs.py:33-71 | with lower-case skip markers, lowering the text first never changes the score |
| Importance.CaseInsensitive | scripts/import_session_logs.py:33-71 | with the source's own lists, lowering the text first never changes the score |
| Importance.RoleMattersOnlyUnmarked | scripts/import_session_logs.py:73-77 | two roles get different scores only for a text with no marker, and only when exactly one of the roles is "user" |
| SessionLog.IsTurn | scripts/import_session_logs.py:96-100 | a line is counted only when it decoded and its `type` is "user" or "assistant"; `Importer.TriageMeaning` and `Importer.CountedLinesAreTurns` state this |
| SessionLog.RoleOf | scripts/import_session_logs.py:102-103 | the message's `role`, or "" when the message or the key is absent; `Importer.PlainTurn` shows it |
| SessionLog.MessageText | scripts/import_session_logs.py:104-112 | the content of a message as the loop sees it: the string, the flattened blocks, or ""; `Importer.ReadContent` is proved against it |
| SessionLog.TurnText | scripts/import_session_logs.py:102-112 | the text of a line's message, or "" when the message is absent; `Importer.TriageMeaning` states how it is used |
| SessionLog.Flatten | scripts/import_session_logs.py:107-112 | the texts of the text blocks joined by newlines; `SessionLog.FlattenBlocks`, `SessionLog.FlattenSplits` and `SessionLog.OtherBlocksIgnored` state its properties |
| SessionLog.Label | scripts/import_session_logs.py:127-130 | "[Ruth]: " for the role "user", "[Vesper]: " for any other; `SessionLog.BodyRoundTrip` shows the two cannot be confused |
| SessionLog.MemoryBody | scripts/import_session_logs.py:126-136 | the label followed by the truncated text; `SessionLog.BodyRoundTrip` gives both back |
| SessionLog.TextsOf | scripts/import_session_logs.py:108-111 | the collected texts are never more than the blocks |
| SessionLog.FlattenBlocks | scripts/import_session_logs.py:107-112 | the block loop yields the texts of the text blocks, in order, joined by newlines |
| SessionLog.OtherBlocksIgnored | scripts/import_session_logs.py:110 | a block that is not a text object contributes nothing, wherever it stands |
| SessionLog.TextBlockWithoutText | scripts/import_session_logs.py:111 | a text block with no `text` key contributes an empty field |
| SessionLog.NoTextBlocksFlattenEmpty | scripts/import_session_logs.py:107-112 | a list with no text block flattens to the empty string |
| SessionLog.FlattenExample | scripts/import_session_logs.py:107-112 | a text block, a tool block and a text block flatten to the two texts joined by a newline |
| SessionLog.FlattenSplits | scripts/import_session_logs.py:112 | when no text holds a newline, splitting the flattened content on newlines gives back the texts in order |
| SessionLog.Truncate | scripts/import_session_logs.py:133-134 | content of at most 2000 characters is unchanged; longer content becomes its first 2000 characters followed by "... [truncated]" |
| SessionLog.TruncateKeepsHead | scripts/import_session_logs.py:133-134 | the stored text always starts with the first 2000 characters of the original, or all of it |
| SessionLog.TruncateIdempotent | scripts/import_session_logs.py:133-134 | truncating twice is truncating once |
| SessionLog.BodyRoundTrip | scripts/import_session_logs.py:127-136 | the stored body gives back whether the role was "user" and the stored text, so the two labels cannot be confused |
| SessionLog.ReplaceZ | scripts/import_session_logs.py:159 | the rewritten timestamp holds no 'Z' and keeps every other character |
| SessionLog.EventTimeOf | scripts/import_session_logs.py:139-159 | an absent timestamp gives the current time; the logged string, with 'Z' rewritten, is used exactly when it holds a 'T' and `fromisoformat` accepts the rewrite; the expression raises exactly for a number, boolean or null, for a list or object holding "T", and for a string holding 'T' that `fromisoformat` rejects; otherwise the current time is used |
| Importer.Triage | scripts/import_session_logs.py:96-139 | the decision for one line up to the write; its meaning is stated by `Importer.TriageMeaning` |
| Importer.TriageMeaning | scripts/import_session_logs.py:96-139 | a line is dropped uncounted exactly when its type is not "user" or "assistant"; a turn under ten characters is skipped; a longer turn is written exactly when it has no skip marker; the record carries the labelled, truncated text, the score of the full text and the line's timestamp |
| Importer.Outcomes | scripts/import_session_logs.py:90-139 | one decision per line, in order; `Importer.OutcomesStep` and `Importer.ImportLogs` tie it to the loop |
| Importer.CallOf | scripts/import_session_logs.py:147-159 | the store call a record leads to in a real run, or none when its event time raises; `Importer.CallsCount` and `Importer.UnparsableStampSkipped` state its effect |
| Importer.Calls | scripts/import_session_logs.py:145-160 | the store calls of a real run in input order; `Importer.CallsCount`, `Importer.CallOrder` and `Importer.ImportLogs` state its properties |
| Importer.CallsCount | scripts/import_session_logs.py:145-167 | there are never more store calls than records reaching the write step, and exactly as many when every one of them has an event time |
| Importer.ReadContent | scripts/import_session_logs.py:102-112 | the content read from a message is its string, its flattened block list, or "" when absent or null |
| Importer.PrepareLine | scripts/import_session_logs.py:96-136 | the loop body up to the write takes exactly the decision `Triage` describes, with the source's own marker lists |
| Importer.ImportLogs | scripts/import_session_logs.py:90-170 | the final counters are the tally of the per-line decisions; in a real run the store receives one call per written record whose event time does not raise, in input order, and nothing in a dry run; `imported + skipped` is the number of "user"/"assistant" lines |
| Importer.TurnsPartition | scripts/import_session_logs.py:114-124 | every counted turn either reaches the write step or is rejected before it |
| Importer.CountedLinesAreTurns | scripts/import_session_logs.py:90-100 | the lines the loop counts are exactly the "user"/"assistant" lines |
| Importer.Accepted | scripts/import_session_logs.py:145-167 | no more store calls succeed than were made |
| Importer.Tally | scripts/import_session_logs.py:141-167 | the two counters add up to the counted turns; no more are imported than reached the write step, and in a real run no more than the store calls made |
| Importer.TallyStep | scripts/import_session_logs.py:114-167 | a dropped line changes nothing; a turn adds exactly one to exactly one counter: to `imported` when written (always in a dry run), to `skipped` when rejected, when its event time raises or when its store call fails |
| Importer.CountersNeverDecrease | scripts/import_session_logs.py:85-167 | neither counter ever decreases as the loop advances |
| Importer.CallsAppend | scripts/import_session_logs.py:90-160 | the store calls of a concatenated log are those of each part, in order |
| Importer.CallOrder | scripts/import_session_logs.py:145-160 | the call for each written line whose event time does not raise comes right after the calls of all earlier lines |
| Importer.SinkFailureIsolated | scripts/import_session_logs.py:145-167 | one failing store call moves exactly one record from imported to skipped and changes nothing else |
| Importer.DryRunMatchesAllAccepted | scripts/import_session_logs.py:141-167 | when every written record has an event time, a dry run reports the counts of a real run in which every store call succeeds |
| Importer.DryRunDiverges | scripts/import_session_logs.py:141-167 | when some written record's event time raises, a real run imports fewer lines than a dry run, whatever the store does |
| Importer.UnparsableStampSkipped | scripts/import_session_logs.py:141-167 | a single written turn whose event time raises is imported by a dry run and skipped by a real run, with no store call |
| Importer.LengthBoundary | scripts/import_session_logs.py:114-116 | a nine-character turn is skipped; a ten-character one without a skip marker is written |
| Importer.ShortTurnSkipped | scripts/import_session_logs.py:114-116 | an empty turn, or one shorter than ten characters, is skipped whatever it says |
| Importer.MarkedTurnSkipped | scripts/import_session_logs.py:119-124 | a turn of ordinary length with a skip marker is skipped, whatever its role |
| Importer.MarkerBeyondTruncation | scripts/import_session_logs.py:119-134 | scoring precedes truncation, so a skip marker wholly beyond character 2000 still discards the turn |
| Importer.RelationalUserTurnWritten | scripts/import_session_logs.py:119-139 | a user turn of ordinary length with a high marker and no skip marker is written whole, under "[Ruth]: ", with (0.85, 0.6) |
| Importer.ThanksIsRelational | scripts/import_session_logs.py:64-66 | text holding "thank you" in any letter case ("Thank you", "THANK YOU"), that is, whose lowered form holds it, has the high marker "thank" |
| Importer.PlainTurn | scripts/import_session_logs.py:96-104 | a line with a plain string message has that role and text, and is a turn exactly when the role is "user" or "assistant" |
| Importer.ScenarioOutcomes | scripts/import_session_logs.py:96-136 | a user line of thanks is written, an assistant shell-tag line and a short user line are skipped |
| Importer.ScenarioCounts | scripts/import_session_logs.py:90-167 | for those three lines and any lists holding the two markers, both runs end with imported 1 and skipped 2, and the one store call carries "[Ruth]: " plus the text, (0.85, 0.6) and the current time |
| Importer.ThreeLineScenario | scripts/import_session_logs.py:90-170 | for those three lines and the source's own lists, both a real run and a dry run end with imported 1 and skipped 2, and the one store call carries "[Ruth]: " plus the text, scored (0.85, 0.6), at the current time |

## Left out

- Database access is not modelled: the `asyncpg` connection, the SQL text, `DB_CONFIG` and
  the connection close. The store is the oracle `accepts`.
- The `asyncio.sleep(0.1)` pacing after each write is not modelled. It changes timing only.
- All `print` output is not modelled: the dry-run preview, the warnings, the every-100
  progress line and the summary. It has no effect on the counters or the records.
- `json.loads` is not modelled: a line is given already decoded, as an `Entry`, or as
  `Malformed`.
- Message `content` that is false, 0, an empty object or an object of fewer than ten keys
  is skipped at line 114 without a crash, exactly like null: the model writes all of these
  as `Null`.
- The paths that end the whole import with an uncaught exception are not modelled:
  - a decoded line or `message` that is not an object (`.get` at lines 96, 103, 104);
  - `content` that is a nonzero number or true (`len` at line 114);
  - `content` that is an object of ten or more keys (`.lower()` at line 33);
  - a block `text` that is not a string (`join` at line 112).
  The model's datatypes admit only the shapes the script handles.
- `datetime.now()` is not modelled: `EventTime` is either the rewritten logged string or
  `Now`. `datetime.fromisoformat` is the oracle `parses`. Only whether it accepts a string
  is modelled, not the datetime it builds.
- `main()`, the command-line arguments and the file-existence check are not modelled.
- The line numbers used only in warnings are not modelled.
- Text.Lower: folds only ASCII A-Z and the Cyrillic capitals U+0400-U+042F and U+0490.
  The rest of Python's Unicode case mapping is not modelled. It can change a score: Python
  lowers U+212A KELVIN SIGN to 'k', so "THAN\u212A YOU" holds "thank" after `lower()` and
  scores (0.85, 0.6) in the source, but not in the model. Python also lowers U+0130 to two
  code points, which shifts every later index; the model keeps one character per character.
- Importer.ImportLogs: `sent` records the calls made to the store. Whether the store
  keeps a record it rejected is the store's business and is not modelled.
