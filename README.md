# FireHox WhatsApp Outreach: a verified model of its core

This project models the logic of the FireHox outreach tool in Dafny and proves properties of the model. The tool is a Streamlit wizard around a `WhatsAppBot` class. The bot:

- cleans an uploaded lead spreadsheet into E.164 phone numbers;
- launches a persistent Chromium profile through Playwright, after removing a stale `SingletonLock` file;
- sends each lead a pitch by driving WhatsApp Web;
- paces the campaign with a random one-to-two-minute countdown between leads.

The model covers the decision and bookkeeping logic of `whatsapp_engine.py` and of the campaign part of `app.py`. The libraries it calls are oracles, and nothing is assumed about them:

- `phonenumbers`: `Cleaning.PhoneLib`;
- the file system and the process table: `ProfileLock.FileSystem`;
- Playwright's driver: `Session.Engine` and `Session.Closer`;
- the WhatsApp Web page: `Delivery.Web`.

Every multi-step procedure returns the trace of what it did, in order. That trace is the sequence of removals, pauses and kills, of library calls, or of page actions. The contracts can then say what was touched, what was sent, and in which order.

Modules, following the source's structure:

| file | models |
|---|---|
| `wrappers.dfy` | `Option` |
| `text.dfy` | the Python string operations the code relies on (`strip`, `lower`, `in`, `split`, slicing) |
| `columns.dfy` | column discovery in `clean_data`, and the wizard's column prediction |
| `cleaning.dfy` | `clean_data`: filtering, de-duplication, the row-normalisation loop, the report |
| `lock.dfy` | `force_browser_cleanup`, the lock-removal retry protocol |
| `session.dfy` | class `WhatsAppBot` with its three handle fields: `launch_browser`, `close_browser`, `reset_session` |
| `pacing.dfy` | `wait_with_countdown` and the countdown display |
| `messages.dfy` | the name rule and template choice of `generate_message` |
| `delivery.dfy` | `send_message` with `_check_invalid_number` and `_dismiss_popup` |
| `campaign.dfy` | the campaign run of `app.py`: gating, loop, counters, console, pauses, summary, and the country-code check |

Every loop and every field update of the source is a method with a loop or a `modifies` frame. Each such method is proved equal to a specification function (`ensures Run(result, effects) == Cleanup(fs)`). The properties are lemmas about those functions.

Behaviours of the code that the model keeps on purpose:

- The check after sending reports `Failed (Not on WhatsApp)`, not `Failed (Invalid Number)`.
- The composer re-search of the "urgent fallback" tests `count() > 0` without a visibility check (`Delivery.UrgentFrom`).
- If every row parses but none is valid, `clean_data` returns an empty table with a normal report.
- Lock removal retries only `PermissionError`.
- The campaign counts a status as sent when it contains `Sent` or `✅`. So a `Failed (...)` status whose exception text begins with `Sent` is counted as sent (`Campaign.FailureMentioningSentCounts`).
- The country-code pattern `^\+\d{1,3}$` accepts one trailing newline, because Python's `$` matches before a final newline (`Campaign.CountryCodeShape`).

## Model

| member | source | states |
|---|---|---|
| Text.Strip | whatsapp_engine.py:328-329 | `str.strip()`: the result is the input with only leading and trailing whitespace removed, and it neither starts nor ends with whitespace |
| Text.StripIdempotent | whatsapp_engine.py:338 | stripping twice is stripping once, so the re-strip at 338 and 349 sees the cells of 328 unchanged |
| Text.KeepDigitsAndPlus | whatsapp_engine.py:357 | only digits and `+` survive the phone cleanup |
| Text.CleanedLengthIsDigitCount | whatsapp_engine.py:357-359 | the cleaned phone without `+` has exactly as many characters as the raw phone has digits |
| Text.Split | whatsapp_engine.py:642 | `message.split('\n')` yields one more line than there are newlines, and no line contains a newline |
| Text.JoinSplit | whatsapp_engine.py:642 | joining the split lines with newlines gives the message back |
| Text.Take | whatsapp_engine.py:715 | `s[:n]` is a prefix of at most `n` characters, and the whole string when it is short |
| Columns.NamedColumns | whatsapp_engine.py:289 | the name candidates are exactly the columns whose lower-cased name lacks `unnamed` |
| Columns.ResolveColumns | whatsapp_engine.py:264-325 | a caller's column choice wins. Otherwise the phone column is a real column, and there is none exactly when neither the name search nor the ten-digit search finds one. The name column is a real column or, as a last resort, the phone column |
| Columns.ExactPhoneMatchWins | whatsapp_engine.py:271-282 | the first column whose lower-cased name is exactly a phone keyword is chosen, ahead of any earlier column that merely contains one |
| Columns.KeywordPhoneFirst | whatsapp_engine.py:278-282 | with no header exactly a phone keyword, the phone column is the first column whose lower-cased name contains one |
| Columns.PhoneColumnByDigits | whatsapp_engine.py:305-312 | a found column sits over a first-row cell with ten or more digits, and every earlier cell has fewer; none is found only when no first-row cell has ten digits |
| Columns.DigitPhoneFallback | whatsapp_engine.py:305-315 | with no phone keyword in any header, the phone column is the one over the first first-row cell with ten or more digits. An empty header there gives no phone column |
| Columns.NoPhoneColumnIff | whatsapp_engine.py:270-315 | there is no phone column exactly when none is given, no header holds a phone keyword, and the first ten-digit cell of the first row, if any, is under an empty header |
| Columns.ExactNameFirst | whatsapp_engine.py:289-295 | the name column is the first column that is not `unnamed` and is exactly one of the four business names |
| Columns.KeywordNameFirst | whatsapp_engine.py:298-302 | without an exact name, the name column is the first column that is not `unnamed` and contains a name keyword |
| Columns.DefaultNameColumn | whatsapp_engine.py:317-325 | without a name found by name, the name column is the first column other than the phone column. It is the phone column itself when no other column exists or that column's header is empty |
| Columns.NameByNameIsNamed | whatsapp_engine.py:285-302 | a name column found by name is never an `unnamed` column |
| Columns.PredictPhone | app.py:1004-1007 | the prediction is a column, and undefined only without columns. An exact keyword column is preferred when present, then a column containing a keyword |
| Columns.PredictPhoneFirstExact | app.py:1005 | the phone prediction is the first exact-keyword column in header order |
| Columns.PredictPhoneFirstKeyword | app.py:1006-1007 | without an exact keyword, the phone prediction is the first column containing a phone keyword |
| Columns.PredictNameFirstExact | app.py:1010-1011 | the name prediction is the first column that is not `unnamed` and is exactly one of the four business names |
| Columns.PredictNameFirstKeyword | app.py:1012-1013 | without an exact name, the name prediction is the first column that is not `unnamed` and contains a name keyword |
| Columns.PhoneFallback | app.py:1007 | with no phone keyword anywhere, the phone prediction is the first column |
| Columns.PredictName | app.py:1009-1015 | the prediction is a column, never `unnamed` when another exists. An exact name is preferred, then a name keyword |
| Columns.NamedFallback | app.py:1012-1013 | with no exact name or keyword among the named columns, the name prediction is the first named column |
| Columns.AllUnnamedFallback | app.py:1014-1015 | when every column is `unnamed`, the name prediction is column 0 |
| Cleaning.Records | whatsapp_engine.py:328-329 | each record is the stripped phone cell and the stripped name cell of its row |
| Cleaning.DropBlank | whatsapp_engine.py:337-339 | exactly the records whose phone is neither empty nor `nan` are kept |
| Cleaning.DropDuplicatesSubset | whatsapp_engine.py:340 | de-duplication only removes records |
| Cleaning.DropDuplicatesDistinct | whatsapp_engine.py:340 | no two kept records share a phone string |
| Cleaning.DropDuplicatesComplete | whatsapp_engine.py:340 | every phone of the input is still present |
| Cleaning.DropDuplicatesKeepsFirst | whatsapp_engine.py:340 | each kept record is the first input record with its phone |
| Cleaning.DropDuplicatesInOrder | whatsapp_engine.py:340 | kept records stay in input order |
| Cleaning.DuplicatePhonesCollapse | whatsapp_engine.py:340 | two records with one phone leave exactly one record, the earliest |
| Cleaning.TrimCsv | whatsapp_engine.py:353-354 | a name ending in `.csv` in any case loses exactly its last four characters; other names are unchanged |
| Cleaning.ValidName | whatsapp_engine.py:375 | a valid row's name is its own unless empty or `nan`, else `Business Owner`, and is never empty or `nan` |
| Cleaning.WithCountryCode | whatsapp_engine.py:363-369 | `+` numbers are unchanged. A number longer than ten characters not starting with `0` gains only `+`. Any other number gets the default code prepended |
| Cleaning.TooShortSkipped | whatsapp_engine.py:357-360 | a row is skipped exactly when its phone has fewer than five digits |
| Cleaning.GroupedNationalNumberGetsDefaultCode | whatsapp_engine.py:357-369 | a national number typed in two digit groups is joined and gets the default code |
| Cleaning.ShortNationalNumberGetsDefaultCode | whatsapp_engine.py:366-369 | a number of at most ten digits gets the default code |
| Cleaning.KeepSeparatedDigits | whatsapp_engine.py:357 | the cleanup drops a separator between digit groups |
| Cleaning.NormalizedLead | whatsapp_engine.py:362-384 | the status is `Valid` exactly when the library parses and accepts the candidate, and `Invalid (Parse Error)` exactly when parsing fails. Valid rows carry the E.164 format and the defaulted name; others carry the candidate and the `.csv`-trimmed name |
| Cleaning.NormalizeAllLength | whatsapp_engine.py:348-384 | the loop yields one row per record except the too-short ones |
| Cleaning.NormalizeAllFromRecords | whatsapp_engine.py:348-384 | every cleaned row comes from one input record |
| Cleaning.NoValidLeads | whatsapp_engine.py:372-380 | when the library accepts no number, no row is `Valid` |
| Cleaning.FirstRecordYields | whatsapp_engine.py:357-360 | a first record with five or more digits yields a cleaned row |
| Cleaning.ValidOnlyExact | whatsapp_engine.py:395 | exactly the `Valid` rows are returned |
| Cleaning.NothingValidKept | whatsapp_engine.py:395 | with no `Valid` row, the returned table is empty |
| Cleaning.Summarize | whatsapp_engine.py:397-404 | `valid + removed == total`, `valid + invalid == processed`, `invalid <= removed` |
| Cleaning.Zip | whatsapp_engine.py:386-390 | the cleaned table pairs the k-th name, phone and status |
| Cleaning.NormalizeRows | whatsapp_engine.py:344-384 | the three lists the loop appends to form exactly the specified cleaned rows |
| Cleaning.CleanData | whatsapp_engine.py:255-406 | the method returns what the specification `Clean` gives |
| Cleaning.EmptyTableRejected | whatsapp_engine.py:259-260 | an empty table gives the error `Empty dataframe provided` |
| Cleaning.ReportCounts | whatsapp_engine.py:342-404 | the report counts: total is the count after filtering and de-duplication, and valid counts the returned rows. Valid plus removed is total; valid plus invalid plus too-short is total; invalid is at most removed. The report names the chosen columns, and every returned row is `Valid` |
| Cleaning.AllTooShortRejected | whatsapp_engine.py:392-393 | when every surviving row is too short, the error is `No valid data after cleaning` |
| Cleaning.AllInvalidGivesEmptyTable | whatsapp_engine.py:392-406 | when rows survive but none is valid, the result is an empty table and a report with zero valid rows, not an error |
| ProfileLock.Message | whatsapp_engine.py:86-98 | the success message, or the locked or error prefix followed by the exception text |
| ProfileLock.BackoffCounts | whatsapp_engine.py:55-63 | `n` refused attempts mean `n` removals and no kill. The pauses total 0, 1 or 3 seconds, and the post-kill removal never appears |
| ProfileLock.BackoffRemovals | whatsapp_engine.py:55-57 | the retry loop only removes with attempt numbers below `n` |
| ProfileLock.ForceBrowserCleanup | whatsapp_engine.py:39-98 | the retry loop returns exactly the result and effects of the decision table `Cleanup` |
| ProfileLock.NoLockNoRemoval | whatsapp_engine.py:51-95 | without the lock file the cleanup succeeds after one pause and never calls remove |
| ProfileLock.RetryBounds | whatsapp_engine.py:55-93 | at most four removals, at most one kill, and at most six seconds of pauses. The kill happens exactly when the lock exists and all three removals are refused |
| ProfileLock.LoopExitBounds | whatsapp_engine.py:55-63 | leaving the loop early means at most three removals, no kill and at most four seconds of pauses |
| ProfileLock.KillPathBounds | whatsapp_engine.py:64-84 | three refusals always lead to exactly one kill |
| ProfileLock.SuccessMeansLockGone | whatsapp_engine.py:51-95 | the cleanup succeeds exactly when there was no lock, or a loop removal succeeded, or the kill ran and the lock was gone or then removed |
| ProfileLock.StopsAtFirstSuccess | whatsapp_engine.py:55-59 | the first successful removal ends the loop: no later removal runs |
| ProfileLock.OtherFailureNotRetried | whatsapp_engine.py:55-98 | a non-permission failure is not retried and gives the `Cleanup error` message |
| ProfileLock.KillPathFailureIsLocked | whatsapp_engine.py:64-90 | a failing kill, or a lock still irremovable after it, gives the `Browser is locked` result |
| Session.ClassifyLaunchError | whatsapp_engine.py:146-151 | the locked message exactly when the lower-cased error names `target closed`, `singleton` or `lock`. Otherwise the prefix followed by the first 200 characters of the error |
| Session.ClassifyIgnoresCase | whatsapp_engine.py:147-148 | the classification does not depend on letter case |
| Session.UnexpectedError | whatsapp_engine.py:172 | the unexpected-error prefix followed by at most 200 characters of the error |
| Session.ReleaseAll | whatsapp_engine.py:214-218 | releasing in order calls only set handles and succeeds exactly when every set handle closes |
| Session.CloseOutcome | whatsapp_engine.py:210-227 | `close_browser` succeeds exactly when every set handle closes. On success all three fields are cleared; on failure none is, and the message has the error prefix. Only set handles are closed |
| Session.CloseOrder | whatsapp_engine.py:216-218 | the page is closed before the context, the context before the driver, and the first failure stops the rest |
| Session.CloseWithoutHandles | whatsapp_engine.py:214-225 | closing a bot without handles just waits and succeeds |
| Session.CloseTwice | whatsapp_engine.py:210-227 | a second close after a successful one touches nothing |
| Session.CloseCallsAreCloses | whatsapp_engine.py:216-224 | closing makes no call other than the three closes and the wait |
| Session.ResetIgnoresCloseFailure | whatsapp_engine.py:229-241 | the reset fails only when deleting an existing session directory fails. It deletes exactly when the directory exists, and leaves the fields as the close did |
| Session.LaunchSucceeds | whatsapp_engine.py:100-163 | the launch succeeds exactly when the cleanup succeeds and every library call returns. Then it sets all three fields, and the page is the context's first or else a new one. A failed launch returns no page |
| Session.CleanupGatesLaunch | whatsapp_engine.py:107-110 | a failed cleanup stops the launch before any library call and leaves the fields alone |
| Session.LaunchStopsDriverOnlyOnUnexpectedError | whatsapp_engine.py:146-172 | the driver is stopped only on the unexpected-error path. A refused context launch leaves the started driver set, classifies the error, and stops nothing |
| Session.WhatsAppBot.constructor | whatsapp_engine.py:33-36 | a new bot holds no handles |
| Session.WhatsAppBot.CloseBrowser | whatsapp_engine.py:210-227 | the fields, result and calls are those of `Close` on the old fields |
| Session.WhatsAppBot.ResetSession | whatsapp_engine.py:229-241 | the fields, result and calls are those of `Reset` on the old fields |
| Session.WhatsAppBot.AbortLaunch | whatsapp_engine.py:165-172 | the outer handler's result, as `Abort` |
| Session.WhatsAppBot.NavigateHome | whatsapp_engine.py:159-163 | opening WhatsApp Web, as `Navigate` |
| Session.WhatsAppBot.StartEngine | whatsapp_engine.py:112-163 | everything after the cleanup, as `Start` |
| Session.WhatsAppBot.LaunchBrowser | whatsapp_engine.py:100-172 | the fields, result, cleanup effects and calls are those of `Launch` on the old fields |
| Pacing.Countdown | whatsapp_engine.py:249 | `range(delay, 0, -1)` yields `delay, delay-1, ..., 1`, or nothing when `delay <= 0` |
| Pacing.ScheduleMeans | whatsapp_engine.py:248-252 | the callback hears `delay, ..., 1` in that order, or nothing without a callback, and the wait lasts `delay` seconds |
| Pacing.WaitWithCountdown | whatsapp_engine.py:243-252 | for a `delay` drawn in `[min, max]`, the loop's trace is `Schedule(delay)` |
| Pacing.CountdownDisplay | app.py:1299-1302 | `remaining == 60 * mins + secs` with `0 <= secs < 60` |
| Pacing.DisplayUnique | app.py:1300-1301 | that split is the only one, so different remaining times display differently |
| Pacing.CampaignPauseDisplay | app.py:1299-1304 | during a 60 to 120 second pause the display shows at most `2m 0s` |
| Messages.NameDisplay | whatsapp_engine.py:413-417 | the greeting uses the name itself exactly when it is not empty, `nan`, `none` or `unknown` in any case, and else `your business` |
| Messages.DisplayIsNamed | whatsapp_engine.py:413-417 | the display is never itself a placeholder |
| Messages.DisplayIdempotent | whatsapp_engine.py:413-417 | applying the rule to its own result changes nothing |
| Messages.PlaceholderIgnoresCase | whatsapp_engine.py:414 | placeholder detection ignores letter case |
| Messages.GenerateMessage | whatsapp_engine.py:408-469 | the message is one of the four templates filled with the display name |
| Delivery.DismissFrom | whatsapp_engine.py:503-519 | dismissing only appends `Dismiss` clicks to the actions |
| Delivery.CheckInvalid | whatsapp_engine.py:471-501 | the check is positive exactly when some invalid-number selector is shown. A negative check does nothing; a positive one only adds dismiss clicks |
| Delivery.ComposerFrom | whatsapp_engine.py:558-575 | the composer search runs at most three rounds. A found composer is one of the five selectors; a search that finds nothing without an invalid number ran all three rounds |
| Delivery.UrgentFrom | whatsapp_engine.py:583-594 | the urgent re-search returns a selector whose `count()` is positive, with no visibility check |
| Delivery.SendFrom | whatsapp_engine.py:666-675 | the send-button search runs at most five rounds. A found button is visible in its round; a search that finds nothing ran all five |
| Delivery.FindShown | whatsapp_engine.py:490-500 | the selector loop returns the first selector shown at its checkpoint |
| Delivery.DismissPopup | whatsapp_engine.py:503-519 | `_dismiss_popup`, as `DismissFrom` |
| Delivery.CheckInvalidNumber | whatsapp_engine.py:471-501 | `_check_invalid_number`, as `CheckInvalid` |
| Delivery.FindComposer | whatsapp_engine.py:558-575 | the three-round composer loop, as `ComposerFrom` |
| Delivery.UrgentRefind | whatsapp_engine.py:588-592 | the urgent re-search loop, as `UrgentFrom` |
| Delivery.TypeMessage | whatsapp_engine.py:642-650 | the line-typing loop, as `TypeFrom` |
| Delivery.FindSendButton | whatsapp_engine.py:666-675 | the five-round button loop, as `SendFrom` |
| Delivery.TypeIntoComposer | whatsapp_engine.py:636-652 | clicking the found composer and typing, as `TypeInto` |
| Delivery.UrlFallback | whatsapp_engine.py:596-635 | the URL-injection fallback, as `Fallback` |
| Delivery.ComposeMessage | whatsapp_engine.py:543-652 | from the first invalid check to the end of typing, as `Compose` |
| Delivery.DispatchMessage | whatsapp_engine.py:654-710 | from the button search to the final status, as `Dispatch` |
| Delivery.TickSeenAt | whatsapp_engine.py:696-707 | the tick loop finds a match exactly when some `#main` tick selector counts one (`TickSearch`) |
| Delivery.SendMessage | whatsapp_engine.py:521-715 | `send_message`'s status, page actions and round counts are those of `Deliver` |
| Delivery.BlankIffStripsEmpty | whatsapp_engine.py:644 | a line counts as blank exactly when `line.strip()` is empty |
| Delivery.TypeFromCompletes | whatsapp_engine.py:642-650 | typing that completes performs exactly the keystrokes of the lines |
| Delivery.TypeFromFails | whatsapp_engine.py:642-650 | typing ends early only with a timeout or another exception |
| Delivery.ShiftEnterBetweenLines | whatsapp_engine.py:647-649 | `Shift+Enter` is pressed exactly `n - 1` times for `n` lines |
| Delivery.OnlyNonBlankLinesTyped | whatsapp_engine.py:644-645 | the typed lines are exactly the non-blank lines, in order |
| Delivery.KeystrokesRender | whatsapp_engine.py:642-649 | the keystrokes render as the lines joined by newlines |
| Delivery.TypedMessageRoundTrip | whatsapp_engine.py:642-649 | when no line is whitespace-only but non-empty, the keystrokes render the message exactly |
| Delivery.KeystrokesUnsent | whatsapp_engine.py:642-649 | typing never clicks send or presses Enter |
| Delivery.FallbackStops | whatsapp_engine.py:596-635 | the URL fallback ends early only as invalid number, no chat loaded, a timeout or another exception |
| Delivery.ComposeStops | whatsapp_engine.py:543-620 | the composing phase ends early only as invalid number, no chat loaded, a timeout or another exception |
| Delivery.ComposeTyped | whatsapp_engine.py:543-652 | a composing phase that completes ends with the message's keystrokes and has sent nothing |
| Delivery.ComposeUntouched | whatsapp_engine.py:543-606 | an invalid number found while composing left the chat untyped and unclicked |
| Delivery.ComposeNoChat | whatsapp_engine.py:577-620 | `No chat loaded` comes only after all three rounds, the URL reload, and a composer search that finds nothing |
| Delivery.PressSendKeys | whatsapp_engine.py:677-686 | a found button is clicked. Otherwise Enter is pressed, after re-focusing the composer when there is one |
| Delivery.TickSearch | whatsapp_engine.py:702-707 | the tick search succeeds exactly when a `#main` tick selector is present |
| Delivery.DispatchPressed | whatsapp_engine.py:688-710 | once sent, the status is `Not on WhatsApp` exactly when the post-send check is positive, `Sent ✅` exactly when it is negative and a tick is present, else `Sent (Pending) ⏳` |
| Delivery.DispatchStatus | whatsapp_engine.py:677-710 | one of the three post-send statuses arises exactly when pressing send did not raise |
| Delivery.DispatchSendCounts | whatsapp_engine.py:677-686 | when nothing was sent before, a delivered message was sent by one button click and no Enter, or by one Enter and no click |
| Delivery.DispatchEnds | whatsapp_engine.py:654-715 | after typing, the procedure ends as sent, pending, not on WhatsApp, a timeout or another exception |
| Delivery.NoBrowserIffNoPage | whatsapp_engine.py:526-527 | `Failed (No browser)` exactly when the bot has no page, and then nothing is done |
| Delivery.InvalidNumberTouchesNothing | whatsapp_engine.py:543-606 | `Failed (Invalid Number)` means nothing was typed, clicked or sent, and no send round ran |
| Delivery.InvalidAtFirstCheck | whatsapp_engine.py:543-546 | an invalid number shown after loading the chat ends the procedure before any search |
| Delivery.NoChatLoadedMeans | whatsapp_engine.py:577-620 | `Failed (No chat loaded)` means the URL fallback ran, its search found no composer, and all three composer rounds ran |
| Delivery.DeliveredStatus | whatsapp_engine.py:688-710 | `Sent ✅` only with a tick in `#main` and a negative post-send check; `Sent (Pending) ⏳` only without a tick; `Not on WhatsApp` only with a positive post-send check |
| Delivery.SendPressedOnce | whatsapp_engine.py:666-686 | a sent message was sent by exactly one button click, or else by exactly one Enter |
| Delivery.MessageTypedBeforeSend | whatsapp_engine.py:636-686 | a sent message's keystrokes are followed immediately by the send action |
| Campaign.SentOutcomesCount | app.py:1264 | `Sent ✅` and `Sent (Pending) ⏳` count as sent |
| Campaign.FixedFailuresCount | app.py:1264 | every fixed failure status counts as failed |
| Campaign.FailureMentioningSentCounts | app.py:1264 | a `Failed (...)` status whose error text starts with `Sent` counts as sent |
| Campaign.LogLineClass | app.py:1264-1274 | a console line has the success class exactly when its status counts as sent |
| Campaign.LastN | app.py:1277 | `xs[-n:]` is the last `min(n, len)` elements, in order |
| Campaign.SendTo | app.py:1257-1261 | one lead's status is the label of `send_message` on the generated message |
| Campaign.Book | app.py:1263-1286 | one iteration appends the lead's record. The counters and logs stay those of the records so far, and the console stays the last ten log lines |
| Campaign.Visit | app.py:1257-1286 | after lead `i` the statuses, records, logs, console and counters are those of the first `i + 1` leads |
| Campaign.CampaignLoop | app.py:1241-1305 | the loop's records, counters, console and pauses are those of `Run` on the sends' statuses |
| Campaign.OneRecordPerLead | app.py:1246-1286 | one record per lead, in order, with the lead's name and phone, its delivery status and its timestamp |
| Campaign.CountersAddUp | app.py:1264-1271 | `sent + failed == number of leads`, and `sent` counts the records whose status counts as sent |
| Campaign.NoPageNothingSent | app.py:1258-1271 | without a page every lead counts as failed |
| Campaign.ConsoleWindow | app.py:1274-1278 | the console shows the last `min(10, n)` log lines, in order |
| Campaign.PausesBetweenLeads | app.py:1293-1304 | `n - 1` pauses for `n > 0` leads. Pause `i` counts the drawn delay down to 1 and lasts 60 to 120 seconds |
| Campaign.SentRows | app.py:1330 | the summary's sent rows are exactly the records whose status contains `Sent` or `✅` |
| Campaign.SentRowsCount | app.py:1330 | the summary's sent count equals the loop's counter |
| Campaign.SummaryAgrees | app.py:1330-1331 | the summary's total, sent and failed agree with the loop's counters |
| Campaign.RunCampaign | app.py:1218-1311 | a failed cleanup or launch stops the campaign with its message. Otherwise the loop runs over every lead with the bot's page, and `close_browser` runs once afterwards, leaving the fields it sets |
| Campaign.CountryCodeShape | app.py:1040 | the check accepts exactly `+` and one to three digits, optionally followed by one newline |

## Left out

- The Streamlit UI, the wizard's step bookkeeping, the QR screenshot polling and the Playwright installer are not part of the model; they hold no logic.
- `verify_login`: its loop polls a wall clock, which the model does not have.
- `time.sleep`, `random.uniform` delays and the typing delay `random.randint(5, 12)` are not modelled. Waits that matter for the protocol appear as `Pause`, `Sleep` or `Notify` effects. Timestamps are an oracle `clock`.
- Floating point is not modelled: the progress bar, the success rate and the estimated minutes.
- `random.randint` and `random.choice` are parameters constrained to their ranges (`Messages.TemplateIndex`, `Campaign.PauseSeconds`).
- The template bodies are content. They are an oracle `render` from a template number and display name.
- `phonenumbers` is uninterpreted (`Cleaning.PhoneLib`). Nothing about E.164 or region rules is claimed.
- Playwright, the DOM and WhatsApp Web are oracles that answer per checkpoint. Every probe at one checkpoint sees the same page, so changes to the page within a checkpoint are not modelled.
- `quote(message)` URL encoding is not modelled: the fallback URL carries the raw message.
- String semantics are ASCII: `isdigit`, `lower` and `\d` treat only ASCII digits and letters specially, and `strip` removes only the ASCII characters `str.isspace()` accepts (space, tab, newline, carriage return, vertical tab, form feed and U+001C to U+001F). Python is Unicode-aware, so non-ASCII digits, letters and spaces such as U+00A0 behave differently.
- The `print` progress messages are not modelled: the cleanup messages (whatsapp_engine.py:46-84), the login and close messages (183, 215, 234), the invalid-number selector (494) and the fallback notice (597). They are console output and decide nothing.
- pandas is replaced by sequences of text records. Cells are the text `astype(str)` gives. The `unnamed` Arrow conversion is not modelled, and duplicate column names are excluded by `Cleaning.WellFormed` because `read_csv` renames them. The ten-digit sample `df[col].iloc[0]` is therefore read by position (`Columns.PhoneColumnByDigits`).
- `random.randint(min, max)` with `min > max` raises in Python. `Pacing.WaitWithCountdown` requires a drawn delay within `[min, max]`, so that case is outside the model.
- The Windows asyncio policy fix at import time is not modelled.
- The `time.sleep(5)` after the launch in `app.py` is not modelled, nor are the Streamlit metric and progress updates inside the loop.
- Delivery.Compose: its own contract states only the three-round bound. The outcomes are stated by `ComposeStops`, `ComposeTyped`, `ComposeUntouched` and `ComposeNoChat`, and `Deliver` is described by the `Delivery` lemmas above.
- Text.KeepDigitsAndPlus: its contract states only that digits and `+` survive. That every digit survives is stated through `CleanedLengthIsDigitCount` and `KeepSeparatedDigits`.
- The model does not state in which composer round an invalid number was found.
- When `launch_browser` fails through the outer handler, the fields still hold the objects created so far, as in the source. The model keeps them and does not claim they were released.
