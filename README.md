# Wildsearch bot core in Dafny

Wildsearch is a Telegram bot that analyses marketplace categories
(Wildberries, Ozon). A user sends a category link; the bot checks that
the user has not used up their daily quota of catalog requests, and then
queues a crawl job on Scrapinghub. When the crawler calls back, the bot
loads the data and sends a summary message and a PDF report. The report
draws rating and sales histograms and prints numbers in a compact
Russian style (`15 тыс.`, `673 млн.`).

This project models the core of that bot and proves properties of the
model:

- `models.dfy` (module `Models`) covers users and the command log of
  src/models.py:
  - the timestamps `save` maintains;
  - today's count of catalog requests, and admission against the daily
    limit;
  - `log_command` and `user_get_by_update`, as methods of a `Store`
    class that holds the two collections and a clock.
- `helpers.dfy` (module `Helpers`) covers src/helpers.py:
  - the crawl-queue check and job submission of `category_export`;
  - the marketplace detection by regular expression in
    `detect_mp_by_job_id`;
  - the integer rounding and printing helpers behind
    `smart_format_number`.
- `scrapinghub_helper.dfy` (module `ScrapinghubHelper`) covers
  `wb_category_export` of src/scrapinghub_helper.py.
- `tasks.dfy` (module `Tasks`) covers the Celery tasks of src/tasks.py.
  Each task is a method that returns the ordered list of effects it
  performs: messages, documents, crawler submissions, status updates,
  queued tasks, retries and failures. What outside services answer
  comes in as parameters. A message carries a `Text`: one of the fixed
  texts of the tasks (spelled out once, in `Wording`) or a computed
  string.
- `view_helpers.dfy`, `rating_distribution.dfy` and
  `sales_distribution.dfy` cover the report view models:
  - `image_bag`;
  - the rating rows with their stars;
  - the sales-interval labels.
- `numerals.dfy` (module `Numerals`) holds decimal printing and parsing
  of integers and thousands grouping. These stand in for Python's
  `str(int)` and `'{:,}'.format`.
- `wrappers.dfy` (module `Wrappers`) holds `Option` and `Result`.

Settings read from the environment are parameters:

- the jobs threshold, whose default `DefaultJobsThreshold` = 1 is a
  constant;
- the callback base URL;
- the spider ids.

Clocks are parameters too, or the `clock` field of the store. The
midnight used by the daily count is the calendar day of that clock.

## Model

| member | source | states |
|---|---|---|
| Models.StampUser | src/models.py:76-83 | A save sets `created_at` only when it is unset and always sets `updated_at` to now; no other field changes |
| Models.StampLogItem | src/models.py:92-97 | A log entry's save sets `created_at` only when it is unset; no other field changes |
| Models.ResaveUserKeepsCreatedAt | src/models.py:76-83 | A second save after an edit keeps the first creation time and moves the update time to the second save |
| Models.CatalogRequestsCount | src/models.py:71-74 | The count of the user's `wb_catalog` entries created at or after the window start is at most the log's length |
| Models.Midnight | src/models.py:69 | The window start is a multiple of a day at or before now, less than a day earlier |
| Models.TodayCatalogRequestsCount | src/models.py:67-74 | Today's count is the windowed count from the last midnight, bounded by the log's length |
| Models.TodayCountsSinceMidnight | src/models.py:67-74 | A further catalog request of the user adds one to today's count exactly when it was made since midnight |
| Models.NothingCountsBeforeWindow | src/models.py:71-74 | Entries all created before the window start, or never saved, count zero |
| Models.CanSendMoreCatalogRequests | src/models.py:57-65 | A blocked user is refused; any other user is admitted exactly while the count is below their daily limit |
| Models.CountAppend | src/models.py:71-74 | Appending an entry raises the count by one exactly when the entry is a catalog request of that user inside the window |
| Models.CountGrowsWithLog | src/models.py:71-74 | Appending entries never lowers the count |
| Models.CountWidensWithWindow | src/models.py:69-74 | An earlier window start never counts fewer entries |
| Models.CountAllQualifying | src/models.py:71-74 | A log made only of qualifying entries is counted in full |
| Models.RefusedStaysRefused | src/models.py:57-65 | Once refused, a user stays refused whatever is appended to the log |
| Models.AppendAdmission | src/models.py:57-74 | A non-qualifying entry leaves admission unchanged; a qualifying one can only turn it into a refusal |
| Models.ThrottledAtLimit | src/models.py:62-63 | A user with at least `limit` qualifying requests in the window is refused |
| Models.FreshUserAdmitted | src/models.py:52-53 | A new user with the default limit of 5, not blocked and with no history, is admitted |
| Models.IndexOfUser | src/models.py:22-25 | The lookup by chat id returns a position holding that chat id, or `None` only when no stored user has it |
| Models.EffectiveMessage | src/models.py:17-20 | The update's own message when it has one, else its callback query's message; nothing only when the update carries neither |
| Models.FullName | src/models.py:27-31 | The full name is the first name, followed by a space and the last name when there is one |
| Models.Store.constructor | src/models.py:48-55 | An empty store satisfies the invariant: chat ids unique, every stored document dated |
| Models.Store.Tick | src/models.py:69 | The clock that `datetime.now()` reads moves forward by the given seconds; users and log are untouched and the invariant is kept |
| Models.Store.SaveUser | src/models.py:76-83 | Upsert by primary key: the stamped user replaces the stored one with its chat id, or is appended; the invariant is kept |
| Models.Store.SaveLogItem | src/models.py:92-97 | The stamped entry is appended, or overwrites the stored entry it is; users and clock are unchanged |
| Models.Store.LogCommand | src/models.py:40-45 | Exactly one new entry for the user is appended, with the given command and message and created now |
| Models.Store.UserGetByUpdate | src/models.py:16-37 | Takes the message of the update, else of its callback query. Returns the stored user of that chat unchanged if there is one; otherwise saves and returns a new user named from the sender, with the default limit and now as both dates. An update without a message is an error that changes nothing |
| Models.LogCommandCount | src/models.py:40-45 | Logging a command adds one to a user's count exactly when it is that user's catalog request inside the window; no other user's count changes |
| Helpers.ScheduledJobsCount | src/helpers.py:70-72 | The spider's pending plus running jobs: never more than the listing, and 0 when none of the spider's jobs is active. The copy at src/scrapinghub_helper.py:21-23 is the same function |
| Helpers.ScheduledJobsCountCountsActive | src/helpers.py:70-72 | The scheduled count is the number of the spider's pending or running jobs: 0 for none, one more per active job, never more than the listing |
| Helpers.CategoryExport | src/helpers.py:75-90 | Refuses exactly when more than `threshold` jobs of the spider are scheduled, and fails exactly when the run raises. A submitted job carries the URL, the callback URL `<base>/<spider>_category_export` and `chat_id=<id>`, and the link is the job-link prefix followed by the job key |
| Helpers.DefaultThresholdAdmitsOneActiveJob | src/helpers.py:80-81 | With the default threshold 1, a `wb` listing with one running job still submits, and one with a running and a pending job refuses |
| Helpers.SubmittedJobRoundTrip | src/helpers.py:83-90 | The chat id parses back from the submitted `callback_params`, and the returned link ends with the job key |
| Helpers.CallbackParamsRoundTrip | src/helpers.py:83-90 | The chat id written into `callback_params` parses back to the same id, negative ids included |
| Helpers.DigitRunEnd | src/helpers.py:51 | The greedy `\d+` from a position ends at the first non-digit |
| Helpers.MatchAtCharacterised | src/helpers.py:51 | A match of `\d+/(\d+)/\d+` at a position is found, and every match found is one, with the middle run as its group |
| Helpers.FirstMatchFrom | src/helpers.py:51 | The first match `re.findall` reports is at the leftmost position where the pattern matches |
| Helpers.FirstMiddleGroup | src/helpers.py:51 | `re.findall(...)[0]`: present exactly when the pattern matches somewhere; then it is the middle digit run of the leftmost match, non-empty and all digits; absent only when no position matches |
| Helpers.DetectMpByJobId | src/helpers.py:50-59 | A key without a match is an error. The middle group equal to the Wildberries spider id gives Wildberries; otherwise equal to the Ozon id gives Ozon; otherwise the marketplace is unknown |
| Helpers.JobKeyMiddleSegment | src/helpers.py:51 | A key `project/spider/job` of three digit runs is classified by its middle run |
| Helpers.DetectMpWildberriesExample | src/helpers.py:53-54 | Key `414324/1/818` with Wildberries spider `1` gives Wildberries |
| Helpers.DetectMpOzonExample | src/helpers.py:56-57 | Key `414324/2/19` with Ozon spider `2` gives Ozon |
| Helpers.DetectMpUnknownExample | src/helpers.py:59 | Key `123123/4345/32` matches neither spider and gives the unknown marketplace |
| Helpers.DetectMpWithoutMatch | src/helpers.py:51 | A key without digits has no match, so the lookup fails |
| Helpers.RoundHalfEven | src/helpers.py:124-170 | Python's `round(n / d)`: within half a step of `n / d`, and on a tie the even quotient |
| Helpers.RoundHalfEvenUnique | src/helpers.py:124-170 | Those two properties determine the rounded quotient uniquely |
| Helpers.RoundHalfEvenMultiple | src/helpers.py:129-170 | `round(n / u) * u` is the multiple of `u` nearest to `n`, ties to an even multiple |
| Helpers.Ceil | src/helpers.py:223-224 | `math.ceil(n / d)` is the least `q` with `q * d >= n` |
| Helpers.SmartFormatRound | src/helpers.py:121-172 | The one-decimal bands (7-8, 10-11, 13-14 digits) are outside the integer model. Elsewhere `natural` is the multiple of the band's unit nearest to `n`, and `rounded` is `natural` itself (up to 4 and beyond 15 digits) or `natural` counted in the band's unit |
| Helpers.MultipliersScale | src/helpers.py:180-197 | Each multiplier times the thousands unit of the digit count equals `10^degree`, for both roundings |
| Helpers.SmartFormatRoundHard | src/helpers.py:175-199 | `natural` is the multiple of `10^degree` nearest to `n`, and `rounded` is `natural` counted in thousands units |
| Helpers.SmartFormatRoundSuperHard | src/helpers.py:202-226 | `natural` is the least multiple of `10^(digits-1)` at or above `n`, and `rounded` is `natural` counted in thousands units |
| Helpers.SingleDigitUnchanged | src/helpers.py:183-199 | Single-digit numbers come back unchanged from all three roundings |
| Helpers.GetDigitsText | src/helpers.py:236-253 | The unit is named by thousands group (тыс., млн., млрд., трлн.) from 5 characters with skipping, from 4 without, up to 15; otherwise empty |
| Helpers.SmartFormatPrettify | src/helpers.py:229-233 | Removing the grouping spaces gives the decimal text of the number back |
| Helpers.PrettifyShape | src/helpers.py:231 | After the sign, a space stands exactly every fourth place from the right, and the length is the digits plus one space per full group |
| Helpers.SmartFormatNumberAsWritten | src/helpers.py:93-118 | As written: defined exactly where the corrected form is, with the same printed number; the unit is looked up from the digit count plus one for a minus sign, so it agrees with the corrected form for every non-negative number |
| Helpers.SmartFormatNumber | src/helpers.py:93-118 | Corrected: defined exactly outside the one-decimal bands; the printed number, spaces removed, is the decimal text of the rounded value, and the unit is named from the number's digit count |
| Helpers.NegativeUnitMismatch | src/helpers.py:116 | As written, 123456 prints `123 тыс.` but -123456 prints `-123 млн.` |
| Helpers.SmartFormatNumberSignFree | src/helpers.py:93-118 | In the corrected form a number and its negation get the same unit name |
| Helpers.SmartFormatNumberUnit | src/helpers.py:93-118 | In every band of 5 to 15 digits that counts thousands units, the unit name is the name of that unit and the rounding step is that unit |
| Numerals.NatToString | src/helpers.py:122 | `str(n)` has `NumDigits(n)` characters, all digits, with no leading zero |
| Numerals.ParseNatToString | src/helpers.py:122 | Parsing `str(n)` gives `n` back |
| Numerals.ParseIntToString | src/helpers.py:86 | Reading back the decimal text of any integer, minus sign included, gives the integer |
| Numerals.NatToStringInjective | src/helpers.py:122 | Different numbers print differently |
| Numerals.UngroupThousands | src/helpers.py:231 | Removing the spaces from the thousands-grouped digits gives the digits back |
| Numerals.GroupThousandsShape | src/helpers.py:231 | In grouped digits a space stands exactly every fourth place from the right |
| ScrapinghubHelper.WbCategoryExport | src/scrapinghub_helper.py:26-41 | Refuses exactly when more than `threshold` `wb` jobs are scheduled, and fails exactly when the run raises. Otherwise a `wb` job is submitted with the callback `<base>/wb_category_export` |
| ScrapinghubHelper.WbCategoryExportIsCategoryExport | src/scrapinghub_helper.py:26-41 | The `wb` export behaves exactly as the generic export with spider `wb` |
| Tasks.TallySnoc | src/tasks.py:91-106 | Emitting one more effect counts it once in its kind |
| Tasks.TryEffects | src/tasks.py:95-99 | The `try` block emits at most three effects, some exactly when the export submitted a job, and all three exactly when nothing raised |
| Tasks.ExportTrace | src/tasks.py:95-106 | One to five effects; the last is the task's failure exactly when a call of the `except` block raised |
| Tasks.ScheduleCategoryExport | src/tasks.py:91-106 | A missing log entry fails the task. Otherwise the effects are exactly `ExportTrace` of the `wb` export: the `try` block up to the call that raised, the `except` block up to its own call that raised when something did, then the message or, when the `except` block raised, the task's failure. When the queue is too long nothing is submitted or queued; if the `except` block runs through, `too_long_queue` is recorded and the queue text comes last |
| Tasks.TryEffectsTally | src/tasks.py:95-99 | The `try` block submits one job only when the export ran one, queues the recheck only after a submission, and records `success` only when nothing raised |
| Tasks.ExportTraceTallies | src/tasks.py:95-106 | The task's effects count as those of the `try` block plus those of the `except` block, up to its call that raised, and the message or failure that ends the task |
| Tasks.ExportTraceTally | src/tasks.py:91-106 | One message and one status exactly when the task gets to its end (nothing raised, or the `except` block ran through), one failure otherwise; one track event exactly when something raised in the `try` block and the track call returned; a submission exactly when the export ran one; a recheck exactly after a submission whose recheck was queued; no document, retry or log line |
| Tasks.ExportTraceEffects | src/tasks.py:95-106 | The last effect is the message when the task gets to its end: the processing text when the export and both follow-up calls succeeded, the queue text otherwise; it is the task's failure when a call of the `except` block raised. A task that gets to its end records `success` or `too_long_queue` to match; the trace tracks the error when something raised and the track call returned, holds the submitted job when the export ran one, and the recheck when its call returned |
| Tasks.SubmissionTallies | src/tasks.py:96-99 | A submission, a recheck and a status, counted prefix by prefix |
| Tasks.RefusedExportTrace | src/tasks.py:96-106 | When the queue is too long, nothing is submitted or queued; if the `except` block runs through, `too_long_queue` is recorded and the queue text is the last effect, else the task fails |
| Tasks.TallyOfAppend | src/tasks.py:91-106 | The effects of two traces run one after the other add up kind by kind |
| Tasks.CountCharRepeat | src/tasks.py:117-118 | Repeating a character `n` times yields `max(0, n)` of it and nothing else |
| Tasks.EmojiBar | src/tasks.py:116-121 | The bar is non-empty exactly when `left + today <= 10`: full moons, then new moons, then a blank line |
| Tasks.EmojiBarCounts | src/tasks.py:116-121 | The bar holds exactly as many full moons as requests left and new moons as requests used today |
| Tasks.RequestsCountOpening | src/tasks.py:123-127 | With requests left the message properly extends `Вам доступно `; otherwise it properly extends the no-requests sentence |
| Tasks.RequestsCountPieces | src/tasks.py:116-127 | With requests left: the opening words, the number left, ` из `, the limit, ` запросов`, the emoji bar, then the recovery note. Otherwise: the no-requests sentence, the emoji bar, then the way out of the limit |
| Tasks.RequestsCountQuotesLimit | src/tasks.py:124 | With requests left, the text after ` из ` is the decimal text of the limit, which reads back as the limit, followed by a space |
| Tasks.RequestsCountQuotesLeft | src/tasks.py:124 | With requests left, the digits after the opening words read back as the number left, followed by a space |
| Tasks.LeftQuoted | src/tasks.py:124 | Any text made of the opening words, the number left and a tail opening with a space shows that number's digits right after the opening words, reading back as the number |
| Tasks.RequestsCountKeyboard | src/tasks.py:123-130 | The upgrade button is attached exactly when no request is left, with callback `keyboard_help_no_limits` |
| Tasks.SendCategoryRequestsCountMessage | src/tasks.py:109-132 | Exactly one message to the chat, with the count text and keyboard |
| Tasks.CheckRequestsCountRecovered | src/tasks.py:135-146 | A single log line exactly when the whole limit is available again, and no message or tracking |
| Tasks.GetCatUpdateUsers | src/tasks.py:43-45 | The subscribers' chat ids, one per subscriber, in order |
| Tasks.RFind | src/tasks.py:74 | The index of the last occurrence of the character, or -1 when there is none |
| Tasks.SplitExt | src/tasks.py:74 | `splitext` cuts the path in two parts whose concatenation is the path; the extension is empty or a dot followed by neither dots nor slashes |
| Tasks.SplitExtAppend | src/tasks.py:74 | Appending an extension to a path whose file name has a stem is undone by `splitext` |
| Tasks.ReportPathSplits | src/tasks.py:74 | `/r.pdf` splits into `/r` and `.pdf` |
| Tasks.ReportFilenameAsWritten | src/tasks.py:81 | As written, the offered name starts with `name на marketplace.`, the dot before the extension included |
| Tasks.ReportFilenameAsWrittenStrayDot | src/tasks.py:74-81 | As written, the offered name splits into `name на marketplace.` and the extension: a stray dot |
| Tasks.ReportFilenameDoubleDot | src/tasks.py:74-81 | As written, a Wildberries PDF report `/r.pdf` of `Сумки` is offered as `Сумки на Wildberries..pdf` |
| Tasks.ReportFilenameSingleDot | src/tasks.py:74-81 | Corrected, the same report is offered as `Сумки на Wildberries.pdf` |
| Tasks.ReportFilename | src/tasks.py:81 | The offered name starts with `name на marketplace` |
| Tasks.ReportFilenameKeepsExtension | src/tasks.py:74-81 | The corrected name splits into `name на marketplace` and the report's own extension |
| Tasks.CalculateCategoryStats | src/tasks.py:48-88 | The job key is classified as `detect_mp_by_job_id` does; a key without a match fails. A loader error other than not-ready fails; not ready retries after 10 s while fewer than 6 retries were made, else fails. A statistics error other than a bad data set fails; a bad data set sends only the apology, or fails when that message raises. A summary message that raises fails the task. Otherwise the trace is `ReportTrace`: the summary, the report document when the bot accepted it, under the name the code offers (`ReportFilenameAsWritten`, stray dot included), then the count message and the analysis track event queued, a raising `delay` ending the task; its tally is one message, the document, and one failure unless both `delay` calls returned |
| Tasks.ReportTraceShape | src/tasks.py:68-88 | The run opens with the summary and the document, has one effect per call up to the first `delay` that raised, and ends with the track event when both `delay` calls returned, with the failure otherwise |
| Tasks.ReportTraceTally | src/tasks.py:68-88 | The run counts one message, the document it sent, the count message when its `delay` returned, the track event when both returned, and one failure otherwise; nothing else |
| Tasks.SummaryTally | src/tasks.py:68-82 | The summary and the report document count as one message and at most one document |
| Tasks.FollowUpsTally | src/tasks.py:87-88 | The two `delay` calls count as the queued count message and track event up to the first that raised, which counts as one failure |
| ViewHelpers.TruncToInt | src/viewmodels/helpers.py:4 | Python's `int()` on a float truncates toward zero |
| ViewHelpers.Repeat | src/viewmodels/helpers.py:7-11 | `n` copies of the value, none when `n` is not positive |
| ViewHelpers.Bag | src/viewmodels/helpers.py:1-13 | `int(number)` bright images, then pale ones up to `maximum`, with each count clamped at zero. The length is `maximum` when the score is in range |
| ViewHelpers.ImageBag | src/viewmodels/helpers.py:1-13 | The two append loops build exactly the bag |
| ViewHelpers.BagOfWholeScore | src/viewmodels/helpers.py:1-13 | A whole score from 0 to 5 gives that many bright images followed by pale ones, five in all |
| RatingDistribution.ItemLabel | src/viewmodels/rating_distribution.py:12-17 | `Без рейтинга` exactly for a zero rating; otherwise the rating itself |
| RatingDistribution.ItemImages | src/viewmodels/rating_distribution.py:23-25 | No stars for a rating that is not positive. Otherwise one bright star per whole point, then pale stars: five in all, or more for a rating above five |
| RatingDistribution.WholeRatingStars | src/viewmodels/rating_distribution.py:23-25 | A whole rating `r` from 1 to 5 shows `r` bright stars and `5 - r` pale ones |
| RatingDistribution.RatingDistributionList.constructor | src/viewmodels/rating_distribution.py:28-32 | One item per record, in order |
| SalesDistribution.ItemLabel | src/viewmodels/sales_distribution.py:12-23 | `0` exactly for a bin starting at zero; `> left` for an unbounded bin; `left-right` otherwise, both ends truncated to integers |
| SalesDistribution.BoundedLabelReadsBack | src/viewmodels/sales_distribution.py:23 | In a bounded label the digits before the dash read back as `int(left)` and those after it as `int(right)` |
| SalesDistribution.SalesDistribution.constructor | src/viewmodels/sales_distribution.py:30-34 | One item per record, in order |

## Left out

- Telegram, Scrapinghub, S3, Airtable, Amplitude and Redis are outside
  the model. Tasks return the effects they would perform. The crawler's
  job listing and the key of a new job are parameters.
- Celery configuration, the `bind`/`delay`/`apply_async` mechanics and
  `track_amplitude` are not modelled. Queued tasks appear only as
  effects.
- src/models_peewee.py is not part of this model. The values tasks.py
  reads from it are parameters:
  - `user_get_by_chat_id`;
  - `catalog_requests_left_count`;
  - `today_catalog_requests_count`;
  - the subscriber list;
  - whether `LogCommandItem.get` finds the entry;
  - whether `set_status` returns.
- `generate_category_stats_message`, both report generators,
  `add_user_to_crm` and the view model `Report` are not modelled. They
  format data through seller_stats, pandas, jinja2 and weasyprint,
  which are not part of this model. Their outputs (summary text, report
  path) are parameters.
- Helpers.SmartFormatRound: the bands of 7-8, 10-11 and 13-14 digits
  round to one decimal and produce floats. They are `None` in the
  model, and so is `smart_format_number` on them.
- Helpers.SmartFormatPrettify does not model the `OverflowError` that
  `float(round(number, 2))` (src/helpers.py:230) raises for an integer
  beyond the largest float, about 1.8·10**308 in magnitude.
  `smart_format_round` returns such a number unchanged, and `smart_format_number` catches only `ValueError`, so
  Python ends with an uncaught error there; the model prints the
  grouped digits for every integer.
- Helpers.SmartFormatPrettify: only integer input is modelled. The
  float branch, which prints two decimals with a comma, is left out
  with floating point.
- `smart_format_number` on a non-integer argument (the `ValueError`
  paths) is not modelled. The model takes integers.
- RatingDistributionItem.ratio and SalesDistributionItem.ratio are left
  out. They call `format_percent` of seller_stats, which is not part of
  this model.
- Tasks.CalculateCategoryStats does not model the following:
  - the summary generator or the report renderer failing;
  - `user_get_by_chat_id` returning nothing.

  Each of these ends the task with an uncaught error. The other calls
  that can raise (the loader, the statistics, the apology, the summary
  and the two `delay` calls) are modelled.
- Tasks.ScheduleCategoryExport does not model the bot's final
  `send_message` raising.
- Models.Store.UserGetByUpdate models a missing message as an error
  result. Python raises `AttributeError` there.
- Models.CanSendMoreCatalogRequests takes the window start as a
  parameter; Models.TodayCatalogRequestsCount fixes it at the calendar
  midnight of the clock. The clock counts seconds, and time zones are
  not modelled.
- tests/test_models.py:94-104 expects `user_get_by_update` to refresh
  the user name of a stored user. The code returns the stored user
  unchanged, and the model follows the code.
- Dates are whole seconds, so microseconds are not modelled.
- The `logger.error` lines of `calculate_category_stats` (src/tasks.py:57,
  65, 84) and every `logger.info` line other than the one of
  `check_requests_count_recovered` (src/tasks.py:146, modelled as a
  `LogInfo` effect) are not modelled. Logging has no effect the bot's
  user sees, so traces hold no log entries for them.
- Helpers.SmartFormatRound divides exactly where Python divides in
  floating point. On the integer bands (at most 15 digits) the float
  quotient is never close enough to a half to round differently.
- Helpers.SmartFormatRoundHard divides exactly, while Python's
  `number / 10**degree` is a float division. The two agree while `n` has
  at most 16 digits. Beyond that the float quotient can round the other
  way: the float quotient of `smart_format_round_hard(14999999999999999)` is
  `1.5`, so Python's `natural` is `2·10**16`; the model's is `10**16`.
- Helpers.SmartFormatRoundSuperHard divides exactly as well, while
  `math.ceil(number / 10**degree)` divides in floating point. They agree
  up to 16 digits. For `smart_format_round_super_hard(10**16 + 1)` the
  float quotient loses the `+ 1`, so Python's `natural` is `10**16`; the
  model's is `2·10**16`.
- The float input of `smart_format_round_super_hard` from
  src/viewmodels/charts.py:21 (the maximum of a data column, cast to
  `float`) is not modelled; the model takes integers, and the chart view
  model is not part of this model.
- Helpers.FirstMiddleGroup reads `\d` as the ASCII digits `0`-`9`.
  Python's `re` on `str` also matches other Unicode decimal digits
  (Arabic-Indic, Devanagari and so on); job keys from Scrapinghub are
  ASCII, so such keys are not modelled.
- Helpers.ParseCallbackParams is the inverse of the `callback_params`
  writer of the export, not a model of the callback receiver (src/web.py
  is not part of this model, and it passes the parameter on as text).
  It reads back only the text the export writes. Python's `int()` also accepts surrounding blanks, a `+` sign
  and underscores between digits; those spellings are not modelled.

## Findings

| source | as written | input that shows it | evidently intended | confidence | as-written member | corrected member |
|---|---|---|---|---|---|---|
| src/helpers.py:116 | The unit name is looked up from the length of the number's text, which counts the minus sign of a negative number | `smart_format_number(-123456)` gives `("-123", "млн.")` | `("-123", "тыс.")`: the unit of the band that `smart_format_round` used, as for 123456 | not executed | Helpers.NegativeUnitMismatch | Helpers.SmartFormatNumberSignFree |
| src/tasks.py:74-81 | The document name puts a dot between the marketplace and the extension, but `os.path.splitext` already returns the extension with its leading dot | report `/r.pdf` for category `Сумки` on Wildberries gives `Сумки на Wildberries..pdf` | `Сумки на Wildberries.pdf` | not executed | Tasks.ReportFilenameDoubleDot | Tasks.ReportFilenameKeepsExtension |
