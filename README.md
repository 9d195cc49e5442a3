# Deep-Agent integrations, modelled in Dafny

This project models the decision-making core of three parts of the
Deep-Agent repository:

- **The Outlook integration** (`integrations/outlook.py`). `OutlookClient`
  loads a sender-weight table from `OUTLOOK_PRIORITY_SENDERS`. It scores
  each previous-day email on five rules: importance, priority sender, flag,
  due date and recency. It builds the email records, ranks them by
  (score, received time) and keeps the top `max(1, limit)`. It computes the
  previous work day's UTC window. It validates recipients and meeting
  attendees, maps invitation responses to Graph actions, and renders the
  plain-text email and calendar summaries.
- **The Google Drive integration** (`integrations/google_drive.py`). It
  checks a listing window, clamps the page size, refuses an empty file id,
  and renders the files summary and one file's metadata.
- **The minimal LangGraph example** (`examples/langgraph_basic/main.py`).
  It has three inline text tools (upper-casing, word counting, reversal), a
  toolkit keyed by tool name, the keyword heuristic that picks a tool, and
  the single agent node that runs the tool and records each step in the
  scratchpad.

The modules follow the source:

- `Wrappers`: `Option`, `Result` and an order-preserving filter-map.
- `Text`: the Python string operations the source relies on, including
  `strip`, `lower`/`upper`, `split`/`join`, `str.split()` words, `int()`
  and `str()` of integers.
- `OutlookScoring`: the sender table and the scoring rules.
- `Ranking`: Python's stable `sorted(..., reverse=True)` on the rank key.
- `Report`: the header / lines / fallback shape all summaries share.
- `Outlook`, `GoogleDrive`, `InlineTools`: one module per core file.

Code that updates state step by step is written as methods with loops and
invariants, and each method is proved equal to a specification function.
This covers the scoring blocks, the table loader, the recipient filter and
the summary builders. Properties of those functions are proved as lemmas.

Times are whole seconds since the Unix epoch, in UTC. The current time
(`datetime.now`) is the parameter `now`. ISO-8601 parsing and the
`%Y-%m-%dT%H:%M:%SZ` rendering are parameters (`parse`, `toUtc`,
`utcText`). A dictionary that the source builds by assignment is an
insertion-ordered sequence of pairs, because Python dictionaries keep
insertion order and `_match_sender_weight` depends on it. A JSON field that
may be missing is an `Option`, and Python truthiness of an optional string
is `Truthy`.

## Model

| member | source | states |
|---|---|---|
| Outlook.OutlookClient.constructor | integrations/outlook.py:70-78 | The client's sender table is the one the loader builds from the `OUTLOOK_PRIORITY_SENDERS` text, and it has distinct, normalised keys. |
| OutlookScoring.LoadPrioritySenderWeights | integrations/outlook.py:294-317 | The loop builds the table given by the entry-by-entry specification: empty for an empty variable; entries split on ","; blank entries and empty addresses skipped; a split at the first ":"; an address trimmed and lower-cased; an unparsable or missing weight is 3; later entries overwrite earlier ones. |
| OutlookScoring.TableOfWellFormed | integrations/outlook.py:301-316 | Every key of the loaded table is non-empty, lower-case, trimmed and free of ":", and no key occurs twice. |
| OutlookScoring.TableOfLastEntryWins | integrations/outlook.py:301-316 | When several entries name the same address, the table holds the weight of the last one. |
| OutlookScoring.TableOfNoEntry | integrations/outlook.py:301-316 | An address that no entry yields is absent from the table. |
| OutlookScoring.LookupSpec | integrations/outlook.py:285 | `dict.get` finds a key exactly when it is present, and finds that key's value. |
| OutlookScoring.PutLookup | integrations/outlook.py:315-316 | After an assignment the key has the new value, and every other key keeps its value. |
| OutlookScoring.PutPositions | integrations/outlook.py:315-316 | Re-assigning a present key keeps every key in its position; a new key is appended at the end. |
| OutlookScoring.PutUnique | integrations/outlook.py:315-316 | Assignment keeps the keys distinct. |
| Outlook.OutlookClient.MatchSenderWeight | integrations/outlook.py:281-292 | The loop returns the specified sender weight: 0 for an empty table; the exact entry's weight when the address is listed with a non-zero weight; otherwise the first `@`-rule, in table order, that the address ends with; otherwise 0. |
| OutlookScoring.SenderWeightRules | integrations/outlook.py:281-292 | Each case of the lookup, stated on its own: empty table, exact non-zero hit, first matching domain rule (an exact weight of 0 falls through to the domains), no match at all. |
| Outlook.OutlookClient.ScoreEmail | integrations/outlook.py:222-279 | The score is the total weight of the rules that fired, and the reasons are theirs in rule order, or the single "No priority signals detected" line when none fired. |
| Outlook.OutlookClient.ScoreImportance | integrations/outlook.py:234-240 | "high" in any case adds 3 with its reason, "low" subtracts 1 with its reason, and an empty importance counts as "normal", which adds nothing. |
| Outlook.OutlookClient.ScoreSender | integrations/outlook.py:242-250 | An empty address adds nothing; otherwise a non-zero table weight for the lower-cased address is added with the reason "(+weight)". |
| Outlook.OutlookClient.ScoreFlag | integrations/outlook.py:252-254 | A flag status of exactly "flagged" adds 1 with its reason. |
| Outlook.OutlookClient.ScoreDueDate | integrations/outlook.py:256-267 | A parsed due time before now adds 3, within one day adds 2, within two days adds 1, later adds nothing, each with its reason. |
| Outlook.OutlookClient.ScoreRecency | integrations/outlook.py:269-274 | A parsed received time at most four hours before now adds 1 with its reason. |
| OutlookScoring.ScoreIsRuleSum | integrations/outlook.py:222-279 | The score is the closed sum of the five rules' contributions, importance + sender + flag + due date + recency, a rule that did not fire contributing 0. The reasons are the five rules' reasons concatenated in that order. |
| OutlookScoring.TallyStep | integrations/outlook.py:222-279 | Evaluating one more rule adds its weight and appends its reason exactly when it fires. |
| OutlookScoring.TallyFive | integrations/outlook.py:222-279 | The five rules tallied in order give the total weight of the fired rules and their reasons, or the "no signals" line when none fired. |
| OutlookScoring.DueTiers | integrations/outlook.py:256-267 | The due-date tiers do not overlap and cover every due time: overdue means strictly before now, a due time equal to now is in the 24-hour tier, and beyond 48 hours nothing is added. |
| OutlookScoring.ReasonsShape | integrations/outlook.py:276-279 | The reasons are never empty; they are exactly the "no signals" line when no rule fired, and otherwise one reason per fired rule, in order. |
| OutlookScoring.SignalReasonsDiffer | integrations/outlook.py:222-274 | No rule's reason can be mistaken for the "no signals" line. |
| Outlook.FlaggedAnyCase | integrations/outlook.py:182-183 | A flag status that is "flagged" in any letter case earns the flag bonus once the record lower-cases it. |
| Outlook.OutlookClient.BuildEmailRecord | integrations/outlook.py:175-204 | The record carries the subject or "(no subject)"; the sender name, else the address, else "Unknown"; the lower-cased address; the lower-cased importance (default "normal") and flag status (default "notFlagged"); the received and due times as given; and the score and reasons of exactly those normalised fields. |
| Outlook.ParseDateTime | integrations/outlook.py:319-330 | A missing or empty timestamp parses to no time. |
| Outlook.FormatTime | integrations/outlook.py:391-400 | A missing or empty timestamp renders as the given default. |
| Outlook.PreviousWorkdayRange | integrations/outlook.py:140-153 | The window is one whole UTC day, starting at midnight, on a weekday. It ends no later than `now` and starts less than four days before it. |
| Outlook.RespondToInvite | integrations/outlook.py:552-572 | An unknown response is an error. Otherwise the call keeps the comment and the send flag, posts to `/me/events/<id>/<endpoint>` and confirms with the lower-cased response. |
| Outlook.ClockTextReadsBack | integrations/outlook.py:400 | `%H:%M` is five characters, two digits, ":" and two digits, giving the hour (below 24) and minute (below 60) of the instant's UTC time of day. |
| Outlook.PreviousWorkdayIsLatestWeekday | integrations/outlook.py:140-153 | The window is exactly one whole UTC day, from midnight to midnight. That day is the latest Monday to Friday strictly before today, one to three days back, and the window ends no later than now. |
| Outlook.PrioritizedEmails | integrations/outlook.py:206-220 | No emails give none; otherwise `min(count, max(1, limit))` are kept. |
| Outlook.PrioritizedEmailsOrdered | integrations/outlook.py:206-220 | The kept emails are in non-increasing (score, received time) order, a missing time lowest; emails with equal keys keep their fetch order. |
| Outlook.PrioritizedEmailsSelected | integrations/outlook.py:206-220 | The kept emails come from the input with no duplication, and no email left out ranks above one kept. |
| Ranking.KeyOrderTotal | integrations/outlook.py:213-217 | The (score, time) key with `datetime.min` for a missing time is a total order. |
| Ranking.SortNonIncreasing | integrations/outlook.py:219 | `sorted(..., reverse=True)` yields non-increasing keys. |
| Ranking.SortStable | integrations/outlook.py:219 | The sort is stable: elements sharing a key keep their input order. |
| Ranking.TopOfSortOrderedAndStable | integrations/outlook.py:219-220 | A prefix of the sort is ordered and stable. |
| Ranking.TopOfSortSelectsGreatest | integrations/outlook.py:219-220 | A prefix of the sort is drawn from the input and dominates everything left out. |
| Outlook.OutlookClient.SummarizeEmails | integrations/outlook.py:366-376 | The loop builds the header, one line per email, the fallback line when there are none, joined with newlines. |
| Outlook.EmailSummaryLines | integrations/outlook.py:366-376 | Split at newlines, the email summary reads back as the header, then each email's line in input order naming its subject and sender, or exactly the fallback line; it has `1 + max(1, n)` lines. |
| Outlook.OutlookClient.SummarizeEvents | integrations/outlook.py:378-389 | The loop builds the header, one line per event with its start and attendees (or "No attendees listed"), the fallback line when there are none, joined with newlines. |
| Outlook.EventSummaryLines | integrations/outlook.py:378-389 | Split at newlines, the calendar summary reads back as the header, then each event's line in input order naming its subject, or exactly the fallback line. |
| Outlook.AttendeeText | integrations/outlook.py:383 | The attendee text is never empty. |
| Report.ReportTextLines | integrations/outlook.py:366-389 | Any summary whose lines hold no newline splits back into its header and body lines, or its header and fallback line. |
| Outlook.FormatRecipients | integrations/outlook.py:126-138 | The loop keeps each present, non-blank address, trimmed, in input order; when none remains it gives the "At least one recipient" error. |
| Outlook.TrimmedAddressesSpec | integrations/outlook.py:126-138 | Every kept address is non-empty and already trimmed, and the error occurs exactly when every input is missing or whitespace only. |
| Outlook.TrimmedAddressesConcat | integrations/outlook.py:126-138 | Filtering respects concatenation, so the output order is the input order. |
| Outlook.CreateMeeting | integrations/outlook.py:505-532 | The meeting fails with the "At least one attendee" error exactly when no address is left after trimming. Otherwise the attendees are the trimmed non-blank addresses, each "required", and a location is included only when one is given. |
| Outlook.AttendeesAreTrimmedAddresses | integrations/outlook.py:515-530 | The attendee filter keeps exactly the addresses the recipient filter keeps, trimmed the same way and in the same order. |
| Outlook.RespondToInviteMapping | integrations/outlook.py:552-563 | Only "accept", "decline" and "tentative", in any case, succeed; tentative maps to `tentativelyAccept` and the others to themselves; the posted URL ends with that action; anything else fails with the error. |
| GoogleDrive.PageSize | integrations/google_drive.py:158 | The page size lies between 1 and 100; a size in range is kept, a smaller one becomes 1 and a larger one 100. |
| GoogleDrive.ListFilesRequest | integrations/google_drive.py:148-159 | The listing fails with the window error exactly when the start is after the end. Otherwise it orders by `modifiedTime desc`, clamps the page size, and its query carries both bounds of the window: it starts with `modifiedTime >= '<start>'` and ends with `modifiedTime <= '<end>'`. |
| GoogleDrive.WindowBoundaries | integrations/google_drive.py:148-149 | A window whose start equals its end is accepted; a start one second after the end is refused. |
| GoogleDrive.MetadataRequest | integrations/google_drive.py:197-198 | An empty file id fails with the "file_id is required" error before any request; any other id is used as given. |
| GoogleDrive.SummarizeFiles | integrations/google_drive.py:174-192 | The loop builds the header, one line per file with the name, id, type, modified time and owners (with their fallbacks), the fallback line when there are no files, joined with newlines. |
| GoogleDrive.FilesSummaryLines | integrations/google_drive.py:174-192 | Split at newlines, the files summary reads back as the header, then line `i` is file `i`'s line, or exactly the fallback line. |
| GoogleDrive.OwnerNameCases | integrations/google_drive.py:183 | An owner renders as its display name, else its email, else "Unknown", so no rendered name is empty. |
| GoogleDrive.OwnerNamesCases | integrations/google_drive.py:181-185 | "Unknown owner" appears exactly for an empty owner list; otherwise the names are joined in order, starting with the first owner's. |
| GoogleDrive.FormatMetadata | integrations/google_drive.py:216-249 | The loops build the header, a line for each of the nine fixed keys whose value is non-empty, in key order, then the owners line when any owner renders, or the fallback line, joined with newlines. |
| GoogleDrive.CollectOwnerEntries | integrations/google_drive.py:235-244 | The owner loop yields one entry per owner that has a display name or an email, in order. |
| GoogleDrive.OwnerEntryCases | integrations/google_drive.py:237-244 | Display name and email give "display <email>"; email only gives "email <email>"; display name only gives the name; neither gives nothing. So the email-only branch of the source is unreachable. |
| GoogleDrive.FieldLinesInKeyOrder | integrations/google_drive.py:219-232 | With every fixed key present and non-empty, line `i` reports key `i`. |
| GoogleDrive.FieldLinesOnlyTruthy | integrations/google_drive.py:230-232 | A fixed key with a non-empty value is reported, and no field line is written exactly when no fixed key has one. |
| GoogleDrive.FieldLinesFromTruthyKeys | integrations/google_drive.py:230-232 | Every field line reports one of the fixed keys whose value is non-empty. |
| GoogleDrive.OtherKeysIgnored | integrations/google_drive.py:219-232 | Keys outside the fixed list never change the output. |
| GoogleDrive.MetadataFallbackIff | integrations/google_drive.py:230-248 | "- No metadata available." is written exactly when no fixed key has a non-empty value and no owner has a display name or an email. |
| GoogleDrive.MetadataTextLines | integrations/google_drive.py:216-249 | Split at newlines, the metadata text reads back as the header and the body lines, or the header and the fallback. |
| InlineTools.ToUpperIdempotent | examples/langgraph_basic/main.py:41-42 | Upper-casing keeps the length and applying it twice changes nothing. |
| InlineTools.ToUpperIgnoresCase | examples/langgraph_basic/main.py:41-42 | Upper-casing ignores the input's letter case. |
| Text.WordsCountsWordStarts | examples/langgraph_basic/main.py:45 | `str.split()` yields one word per word start. |
| InlineTools.Reverse | examples/langgraph_basic/main.py:48-49 | Reversal keeps the length. |
| InlineTools.ReverseAt | examples/langgraph_basic/main.py:48-49 | Character `i` of the reversal is character `n - 1 - i` of the text. |
| InlineTools.ReverseInvolution | examples/langgraph_basic/main.py:48-49 | Reversing twice gives the text back. |
| InlineTools.Apply | examples/langgraph_basic/main.py:34-35 | Calling a tool runs the function its kind names: the upper-casing tool upper-cases each character in place, the word counter reports the word-start count, and the reverser puts character `n - 1 - i` at position `i`. |
| InlineTools.ByName | examples/langgraph_basic/main.py:68 | In the name-keyed map every tool is stored under its own name. |
| InlineTools.ByNameKeys | examples/langgraph_basic/main.py:68 | The map's keys are exactly the tools' names. |
| InlineTools.ChooseTool | examples/langgraph_basic/main.py:72-80 | The chosen tool is one of the toolkit's tools. |
| InlineTools.ToUpper | examples/langgraph_basic/main.py:41-42 | The result has the input's length and each character is the upper-cased character at the same position. |
| InlineTools.WordCountMessage | examples/langgraph_basic/main.py:44-46 | The sentence reports the number of places where a word starts: a non-space character at the start or right after whitespace. |
| InlineTools.BuildToolkit | examples/langgraph_basic/main.py:38-68 | The toolkit is exactly the map "uppercase", "word_count" and "reverse", each to its own tool and description. |
| InlineTools.ChooseToolRouting | examples/langgraph_basic/main.py:72-80 | The upper-casing tool is picked exactly when the lower-cased query contains "upper" or "shout". The word counter is picked exactly when it contains "count" and neither of those. The reverser is picked otherwise. |
| InlineTools.Agent | examples/langgraph_basic/main.py:86-101 | The query is unchanged and the result is the chosen tool applied to it. The scratchpad is the old one with four lines appended: the query, the tool's name, its description and its output. |
| Text.StripEmptyIff | integrations/outlook.py:130-134 | A string strips to empty exactly when it is all whitespace; otherwise the stripped text starts and ends with non-whitespace. |
| Text.StripIdempotent | integrations/outlook.py:132 | Stripping twice is stripping once. |
| Text.JoinSplit | integrations/outlook.py:301 | Joining the comma-split pieces back gives the original text. |
| Text.SplitJoin | integrations/outlook.py:370-376 | Splitting a join of separator-free pieces gives the pieces back. |
| Text.ParseIntOfIntToString | integrations/outlook.py:308-311 | `int()` reads back every integer `str()` writes that has at most 4300 digits. |
| Text.ParseInt | integrations/outlook.py:308-311 | A parsed value comes from text that strips to a run of digit groups of at most 4300 digits, with an optional `+` or `-` in front. |
| Text.ParseIntAccepts | integrations/outlook.py:308-311 | Every digit group within the 4300-digit limit is accepted, bare or after `+` or `-`, and reads as the value of its digits with underscores dropped, negated after `-`. So a weight such as `+5` or `1_0` is used rather than the default 3. |
| Text.ParseIntRejectsLongDigits | integrations/outlook.py:308-311 | A digit string longer than 4300 digits is rejected, as `int()` raises `ValueError` under its default digit limit. |
| Text.IndexOf | integrations/outlook.py:305-306 | The first occurrence of a character is found, or absence is reported when it does not occur. |

## Left out

- Network and I/O: MSAL token acquisition, HTTP GET/POST to Microsoft Graph, the Drive service client, credential loading from the environment, logging, and the LangChain tool wrappers (`create_outlook_tools`, `create_google_drive_tools`). The model stops at the request the source would send (`CreateMeeting`, `RespondToInvite`, `ListFilesRequest`, `MetadataRequest`).
- The fetch functions (`fetch_previous_day_emails`, `fetch_previous_day_events`) are not modelled beyond the record building and summaries they feed; their Graph query strings are left out.
- Date and time parsing and rendering are parameters: ISO-8601 parsing (`parse`, `toUtc`) and `%Y-%m-%dT%H:%M:%SZ` (`utcText`). Timezone offsets, and the local timezone that `_format_time` applies to naive timestamps, are inside those parameters.
- Outlook.OutlookClient.ScoreEmail: the source reads the clock twice (due date and recency); the model uses one instant `now` for both.
- The `TypeError` Python raises when comparing naive and aware datetimes is not modelled; all times are UTC instants.
- Ranking.KeyOrderTotal: `datetime.min` for a missing time is modelled as lower than every time. An email actually received at `datetime.min` would tie with a missing time in the source.
- Case mapping is ASCII-only (`Lower`, `Upper`). That is exact for every keyword the source compares ("high", "low", "flagged", "accept", "upper", ...), but not for other Unicode letters.
- Text.ParseInt: `int()` accepts only ASCII digits here, not other Unicode decimal digits. The digit limit is Python's default of 4300 (`MaxStrDigits`); changing it through `PYTHONINTMAXSTRDIGITS` or `sys.set_int_max_str_digits` is not modelled.
- A JSON field that is present with value `null` is treated as missing. For `summarize_files`, the source would render it as "None" where `.get(key, default)` returns the null.
- The `elif email` branch of `format_metadata` is unreachable, because `display` already falls back to the email; `OwnerEntryCases` states this and the model has no such branch.
- InlineTools.InlineTool: the tool's `func` is one of three named functions (`ToolKind`), not an arbitrary callable.
- InlineTools.Agent: an absent scratchpad is the empty sequence. The LangGraph `StateGraph` wiring (`build_basic_graph`) and the command-line `main` are left out.
- The other examples (`examples/deep_agent/main.py`, `examples/claude_agent_sdk/main.py`) are not part of this model.
