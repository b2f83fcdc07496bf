# A verified model of the retell-ai-onits call-centre backend core

retell-ai-onits is an AI call-centre service: an Express backend over Prisma, with Bull queues, a Redis cache and OpenAI. A user places single, bulk and scheduled calls, keeps call templates, reads analytics about their calls, and sets preferences. This project models the parts of it that carry their own logic, and proves what that logic promises:

- **Validation** (`Validation`): the input validators. These are the phone, email, password, time and date shapes; the required, length, enum, number and array checks with their error maps; pagination; the status and plan lists; and the two composite validators that collect field errors.
- **Errors** (`Errors`): the error taxonomy. `AppError` derives `fail` or `error` from the first digit of its status code; the subclasses fix codes and default messages; `handleError` projects an error to its response.
- **Templates** (`Templates`): the template service, whose template table and listing cache are fields of a class.
  - Rendering is sequential, global and literal `{{key}}` replacement.
  - Update, delete and duplicate check ownership first.
  - Duplicate follows fixed copy rules.
- **Bulk calls** (`BulkCall`): the bulk-call service over a Bull-style queue and the call table.
  - Start adds one job per contact with delay `i * d`.
  - Status and cancel are resolved per id.
  - The worker creates a pending call and then completes it.
  - There is also a stats query.
- **Scheduler** (`Scheduler`): the scheduled-call service.
  - `scheduleCall` adds a record and its job.
  - The worker moves a record to `completed`.
  - Cancel checks the owner and then removes the delayed job.
  - The listing is ordered by `scheduledAt`, and the per-user cache is invalidated on every write.
- **Analytics routes** (`AnalyticsRoutes`): the `/calls` counts, the `/sentiment` verdict, and the `/trends` loop over half-open periods.
- **Analytics service** (`AnalyticsService`): `getCallStats`, the de-duplicated sentiment summary, and `getCallTrends`' grouping by ISO-prefix key. The trends reduce is a loop over an accumulator dictionary.
- **Assistant** (`Ai`): the personality-prompt lookup, the message assembly, and the ten-message conversation window per call.
- **Settings** (`Settings`): the settings routes.
  - GET is get-or-create with defaults.
  - PUT checks the supplied fields against the enums, upserts, and drops the cache entry.
  - Profile GET returns NotFound for an unknown user.
- **Call history** (`CallHistory`): the `m:ss` duration label of the call-history page.

Helper modules:
- `Wrappers`: Option.
- `Errors` (above) also declares Result.
- `Text`: decimal text of naturals, parsing, padding, substring search, and string length in UTF-16 code units.
- `Seqs`: counting, first-seen de-duplication, and the count-by-key dictionary as an association list.
- `Calls`: the `Call` row, the call table and a Bull-style queue.
- `JsObject`: a plain JavaScript object used as a counter (`acc[k] = (acc[k] || 0) + 1`). A `__proto__` key is ignored. An inherited method name counts on its source text. Array-index keys are listed first, in ascending order, and the other keys follow in creation order.

How the stores are modelled:
- The external stores (Prisma tables, the Bull queue, the Redis cache) are fields of the classes that own them: maps and sequences. The one `call` table is a `Calls.CallTable` object that the bulk-call service and the scheduler both receive in their constructors, so both workers write it and the bulk-call stats read every call of the user. Each service has its own queue, as in the source (`bulk-calls` and `scheduled-calls`).
- Clocks and the model's replies are parameters. So are `Date` parsing and ISO rendering.
- `Math.random` is a nondeterministic choice.

## Model

| member | source | states |
|---|---|---|
| Validation.PhoneNumberIsDecimal | backend/src/utils/validation.ts:3-7 | A phone number is accepted iff it is the decimal text of some n with 10 ≤ n < 10^15, optionally after a `+`, i.e. 2–15 digits with no leading zero |
| Validation.PhoneNumberValue | backend/src/utils/validation.ts:3-7 | Every accepted phone number yields its number n in [10, 10^15) and is its decimal text, with or without `+` |
| Validation.DecimalPhoneNumber | backend/src/utils/validation.ts:3-7 | Every n in [10, 10^15) is accepted as digits, and also with a leading `+` |
| Validation.PhoneDigitsValid | backend/src/utils/validation.ts:3-7 | 2–15 digits whose first is 1–9 are accepted, with or without `+` |
| Validation.PhoneNumberRejects | backend/src/utils/validation.ts:3-7 | The empty string, a leading 0 and `+0…` are rejected |
| Validation.EmailShape | backend/src/utils/validation.ts:9-12 | An email is accepted iff it has no whitespace and exactly one `@`, not first, with a `.` after it that has a character on each side |
| Validation.PasswordShape | backend/src/utils/validation.ts:14-18 | A password is accepted iff it has at least 8 characters, is drawn only from letters, digits and `@$!%*?&`, and holds at least one lower-case letter, one upper-case letter, one digit and one special character |
| Validation.TimeShape | backend/src/utils/validation.ts:27-30 | A time is accepted iff it is `HH:MM` for some hour < 24 and minute < 60, each written with two digits |
| Validation.TimeParts | backend/src/utils/validation.ts:27-30 | An accepted time yields its hour < 24 and minute < 60 |
| Validation.TimeOfValid | backend/src/utils/validation.ts:27-30 | Every hour < 24 and minute < 60, written `HH:MM`, is accepted |
| Validation.FourDigits | backend/src/utils/validation.ts:20-25 | A year below 10000 zero-padded to four characters is its four decimal digits, thousands first |
| Validation.DateShapeSpec | backend/src/utils/validation.ts:20-25 | A string has the date shape iff it is a four-digit year, `-`, a two-digit month and `-`, a two-digit day, for some year < 10000 and month and day < 100 (the pattern bounds neither month nor day) |
| Validation.DateParts | backend/src/utils/validation.ts:20-25 | A string of the date shape yields its year < 10000, month < 100 and day < 100, and is their padded text |
| Validation.DateOfFields | backend/src/utils/validation.ts:20-25 | Every year < 10000 and month and day < 100, padded and joined with dashes, has the date shape |
| Validation.DateTimeShapeSpec | backend/src/utils/validation.ts:32-37 | A string has the date-time shape iff it is `YYYY-MM-DDTHH:MM:SSZ` for some year < 10000, month and day < 100, hour < 24, minute < 60 and second < 60, each zero-padded |
| Validation.DateTimeParts | backend/src/utils/validation.ts:32-37 | A string of the date-time shape yields those six fields within their bounds, and is their padded text |
| Validation.DateTimeOfFields | backend/src/utils/validation.ts:32-37 | Every six fields within those bounds, padded and joined, have the date-time shape |
| Validation.ValidateDate | backend/src/utils/validation.ts:20-25 | A date passes iff it has the `YYYY-MM-DD` shape and the calendar parse succeeds; a passing date has its dashes at positions 4 and 7 |
| Validation.ValidateDateTime | backend/src/utils/validation.ts:32-37 | A date-time passes iff it has the `YYYY-MM-DDTHH:MM:SSZ` shape and parses; its `HH:MM` part is then a valid time |
| Validation.ValidateDateRange | backend/src/utils/validation.ts:81-85 | A range passes iff both ends parse and start ≤ end; a parseable date paired with itself always passes |
| Validation.FieldError | backend/src/utils/validation.ts:39-43 | A single-field error is a ValidationError whose map has only the literal key `"fieldName"` |
| Validation.ValidateRequired | backend/src/utils/validation.ts:39-43 | Fails iff the value is undefined, null or `""`, with the message `<field> is required` |
| Validation.ValidateLength | backend/src/utils/validation.ts:45-49 | Passes iff min ≤ the length in UTF-16 code units ≤ max; otherwise it fails with the between-message |
| Validation.AstralLength | backend/src/utils/validation.ts:45-49 | Three emoji are six code units, so they fail a 1–5 check. A string without astral characters passes iff its character count is within the bounds |
| Text.Utf16Length | backend/src/utils/validation.ts:46 | The code-unit length lies between the character count and twice it |
| Text.Utf16LengthBmp | backend/src/utils/validation.ts:46 | A string without astral characters has one code unit per character |
| Text.Utf16LengthAstral | backend/src/utils/validation.ts:46 | A string of astral characters has two code units per character |
| Validation.ValidateEnum | backend/src/utils/validation.ts:51-55 | Passes iff the value is in the list; otherwise it fails with the list joined by `, ` |
| Validation.ValidateNumber | backend/src/utils/validation.ts:57-67 | Passes iff the value is a number other than NaN and every supplied bound holds. A non-number or NaN gets the number message, and the min bound is checked before the max bound, so exactly one error is raised |
| Validation.ValidateArray | backend/src/utils/validation.ts:69-79 | Passes iff the value is an array and its length meets every supplied bound. A non-array gets the array message, and min is checked before max |
| Validation.SingleFieldErrorShape | backend/src/utils/validation.ts:39-43 | A single-field error is answered with 422, `fail`, and an errors map holding one key |
| Validation.ValidatePagination | backend/src/utils/validation.ts:87-89 | Valid iff page > 0 and 0 < limit ≤ 100 |
| Validation.MembershipChecks | backend/src/utils/validation.ts:91-119 | Each status, plan, interval and sentiment check is membership in its fixed list; the interval list excludes `hour` |
| Validation.CollectSettingsErrors | backend/src/utils/validation.ts:121-143 | The error map holds exactly the failing fields, each with its own message |
| Validation.ValidateUserSettings | backend/src/utils/validation.ts:121-143 | Passes iff no present field fails; otherwise one ValidationError reports every failing field with its message |
| Validation.FalsySettingsNeverFail | backend/src/utils/validation.ts:121-143 | An absent or falsy field never fails, so a body with no fields passes |
| Validation.ValidateUserProfile | backend/src/utils/validation.ts:145-159 | Passes iff neither the name nor the email fails; otherwise one ValidationError carries exactly the failing keys and their messages |
| Validation.ProfileAccepts | backend/src/utils/validation.ts:145-159 | A profile passes iff the name is a non-empty string and the email is present and valid |
| Errors.LeadingFour | backend/src/utils/errors.ts:9 | The decimal text of n starts with `4` iff 4·10^k ≤ n < 5·10^k for some k |
| Errors.StatusForFail | backend/src/utils/errors.ts:9 | `status` is `fail` iff the code's decimal text starts with `4`, and `error` otherwise (negative codes included) |
| Errors.StatusForHttp | backend/src/utils/errors.ts:9 | For a three-digit code, `status` is `fail` iff the code is in 400–499 |
| Errors.NewAppError | backend/src/utils/errors.ts:6-13 | An AppError keeps its message and code, is operational, and has status `fail` exactly for 4xx |
| Errors.Subclass | backend/src/utils/errors.ts:16-65 | A subclass error is a well-formed AppError of its class with the given message and code |
| Errors.BadRequestError | backend/src/utils/errors.ts:16-20 | Code 400, status `fail`, the given message |
| Errors.UnauthorizedError | backend/src/utils/errors.ts:22-26 | Code 401, status `fail`, message defaulting to `Unauthorized` |
| Errors.ForbiddenError | backend/src/utils/errors.ts:28-32 | Code 403, status `fail`, message defaulting to `Forbidden` |
| Errors.NotFoundError | backend/src/utils/errors.ts:34-38 | Code 404, status `fail`, message defaulting to `Not found` |
| Errors.ConflictError | backend/src/utils/errors.ts:40-44 | Code 409, status `fail`, the given message |
| Errors.ValidationError | backend/src/utils/errors.ts:46-53 | Code 422, status `fail`, message `Validation error`, and the errors map kept |
| Errors.InternalServerError | backend/src/utils/errors.ts:55-59 | Code 500, status `error`, message defaulting to `Internal server error` |
| Errors.ServiceUnavailableError | backend/src/utils/errors.ts:61-65 | Code 503, status `error`, message defaulting to `Service unavailable` |
| Errors.HandleError | backend/src/utils/errors.ts:67-85 | An AppError is answered with its own status, code and message, and with `errors` iff it is a ValidationError. Any other error gets `error`/500/`Internal server error` |
| Errors.HandleErrorConsistent | backend/src/utils/errors.ts:67-85 | Every response's code is three-digit and its status is `fail` exactly for 4xx |
| Templates.Token | backend/src/services/templates.ts:160 | The token of key k is `{{k}}`, four characters longer than k |
| Templates.LetterStart | backend/src/services/templates.ts:160 | A key that does not start with a digit never makes `{{key}}` a quantifier |
| Templates.LiteralKeys | backend/src/services/templates.ts:159-161 | `first_name`, `last-name`, `full name` and `2nd` are taken literally by the RegExp |
| Templates.PatternKeys | backend/src/services/templates.ts:159-161 | `12`, `1,` and `1,5` (quantifiers) and `a.b` (a syntax character) are not |
| Templates.ReplaceAbsent | backend/src/services/templates.ts:159-162 | Replacing a token that does not occur leaves the content unchanged |
| Templates.NoTokenLeft | backend/src/services/templates.ts:160-161 | Replacement is global: with a non-empty value sharing no character with the token, no token is left |
| Templates.ReplaceCanLeaveToken | backend/src/services/templates.ts:160-161 | With the empty value, overlapping tokens can leave a token behind (`{{k{{k}}}}` becomes `{{k}}`) |
| Templates.RenderUntouched | backend/src/services/templates.ts:156-164 | When no key's token occurs (in particular with no variables), the rendered text is the stored content |
| Templates.RenderSnoc | backend/src/services/templates.ts:159-162 | Entries are applied in order: rendering with one more entry replaces that entry's token in the previous result |
| Templates.LaterKeySeesEarlierValue | backend/src/services/templates.ts:159-162 | A later key replaces a token an earlier value introduced |
| Templates.Patched | backend/src/services/templates.ts:107-110 | An update keeps the id and owner; each of name, description, content, variables and the active flag comes from the patch when supplied and is kept otherwise |
| Templates.Listing | backend/src/services/templates.ts:59-75 | The listing holds exactly the user's templates that match the search and active filters, unchanged (by id; the name order is not modelled) |
| Templates.Invalidate | backend/src/services/templates.ts:113 | The corrected invalidation drops exactly the user's cached listings and keeps every other entry |
| Templates.ListingOfOthers | backend/src/services/templates.ts:113 | A write to one user's templates leaves every other user's listing unchanged |
| Templates.TemplateService.CoherentAfter | backend/src/services/templates.ts:113 | With the corrected invalidation, after a write to one user's templates every cached listing equals a fresh query |
| Templates.TemplateService.CreateTemplate | backend/src/services/templates.ts:27-38 | Adds one template under a fresh id, with the schema's `isActive` default (a parameter), and invalidates the owner's listings by the corrected rule; the cache stays coherent |
| Templates.TemplateService.GetTemplates | backend/src/services/templates.ts:53-78 | Returns the fresh listing by id (a cache hit returns the same, by the coherence the corrected invalidation keeps) and caches it; the templates do not change |
| Templates.TemplateService.UpdateTemplate | backend/src/services/templates.ts:99-113 | A missing or foreign template is an error and changes nothing; otherwise the patched template replaces it and the owner's listings are invalidated by the corrected rule |
| Templates.TemplateService.DeleteTemplate | backend/src/services/templates.ts:124-139 | A missing or foreign template is an error and changes nothing; otherwise it is removed, the result is true, and the listings are invalidated by the corrected rule |
| Templates.TemplateService.ProcessTemplate | backend/src/services/templates.ts:146-164 | An unknown id raises `Template not found`; missing variables raise the `Object.entries` error; otherwise the result is the rendering, which is the content itself for no variables |
| Templates.TemplateService.DuplicateTemplate | backend/src/services/templates.ts:171-195 | A missing or foreign template is an error and changes nothing. Otherwise the copy gets a fresh id, the name `<name> (Copy)`, the same description, content and variables, `isActive = false` and the caller as owner, while the original is unchanged; the listings are invalidated by the corrected rule |
| Templates.ListingKeyText | backend/src/services/templates.ts:53 | The listing cache key is `templates:<user>:<filters JSON>` |
| Templates.DeletedKeyText | backend/src/services/templates.ts:113 | The deleted key is `templates:<user>` |
| Templates.AsWrittenKeepsListings | backend/src/services/templates.ts:113 | Deleting `templates:<user>` leaves every cached listing of that user in place |
| Templates.InvalidateByPrefix | backend/src/services/templates.ts:113 | The corrected invalidation only removes entries |
| Templates.InvalidateByPrefixRemovesListings | backend/src/services/templates.ts:113 | The corrected invalidation removes every listing of the user and keeps every key outside the user's prefix |
| Templates.ListingPrefixIff | backend/src/services/templates.ts:53 | For user ids without a colon, a listing key starts with `templates:<u>:` iff it is user u's key |
| Templates.InvalidateAgreesWithPrefix | backend/src/services/templates.ts:53 | With colon-free user ids, a listing survives `Invalidate` on the (user, filters) cache iff its text key survives the prefix deletion |
| Templates.PrefixReachesColonUser | backend/src/services/templates.ts:53 | With a colon in a user id the prefix `templates:a:` also covers user `a:b`'s keys |
| Calls.CallTable.Create | backend/src/services/bulkCall.ts:38-45 | Appends exactly one call row, whose id is its position, with the given fields |
| Calls.CallTable.Update | backend/src/services/bulkCall.ts:49-55 | Changes only that row's status and supplied duration |
| Calls.NewJob | backend/src/services/scheduler.ts:92-97 | A new job waits iff its delay is 0 and is delayed iff it is not (a negative delay included). It keeps its id, data and delay, with no progress, return value or failure |
| Calls.Queue.Promote | backend/src/services/scheduler.ts:92-97 | A delayed job becomes waiting. Nothing else in the queue changes, and the queue stays valid |
| Calls.Queue.Add | backend/src/services/bulkCall.ts:83-91 | Adds one job under a fresh id from the counter |
| Calls.Queue.Remove | backend/src/services/bulkCall.ts:143 | Removes exactly that job |
| Calls.Queue.Complete | backend/src/services/bulkCall.ts:27-58 | Marks the job completed with its return value |
| Calls.Queue.Fail | backend/src/services/bulkCall.ts:59-62 | Marks the job failed with its reason |
| Calls.JobIdsDistinct | backend/src/services/bulkCall.ts:83-94 | Distinct counter values give distinct job ids |
| Calls.IssuedIdsRange | backend/src/services/bulkCall.ts:83-94 | Every id issued up to n reads as a number in 1..n |
| Calls.IssuedIdsFresh | backend/src/services/bulkCall.ts:83-94 | An id issued later is not among those issued earlier |
| Calls.IssuedIdsGrow | backend/src/services/bulkCall.ts:83-94 | The issued ids grow with the counter |
| Calls.AddedJobsSize | backend/src/services/bulkCall.ts:79-98 | Adding n jobs to a queue whose ids were all issued before adds exactly n entries |
| Calls.AddedJobsKeep | backend/src/services/bulkCall.ts:79-98 | Adding a batch keeps every job already queued |
| Calls.AddedJobsEntry | backend/src/services/bulkCall.ts:79-98 | The i-th added id holds the i-th job |
| Calls.CreatedSince | backend/src/services/bulkCall.ts:157-166 | Holds exactly the user's calls created at or after the bound |
| Calls.CallsInRange | backend/src/routes/analytics.ts:32-40 | Holds exactly the user's calls with start ≤ createdAt ≤ end |
| Calls.InsertByCreation | backend/src/services/analytics.ts:174-176 | Inserting adds one call |
| Calls.InsertByCreationSorted | backend/src/services/analytics.ts:174-176 | Inserting into calls sorted by `createdAt` keeps them sorted |
| Calls.InsertByCreationRows | backend/src/services/analytics.ts:174-176 | Inserting adds exactly that call |
| Calls.ByCreationSpec | backend/src/services/analytics.ts:174-176 | The ordering is ascending in `createdAt` and a permutation of its input |
| Calls.TotalDurationAppend | backend/src/routes/analytics.ts:44 | The duration sum (missing durations counted as 0) is additive over concatenation |
| BulkCall.BatchDelays | backend/src/services/bulkCall.ts:81-91 | The i-th job's delay is i·d. With d ≥ 0 the delays never decrease, and with d < 0 they strictly decrease. A job waits iff it is the first or d = 0, and is delayed otherwise |
| BulkCall.BatchJobs | backend/src/services/bulkCall.ts:79-91 | One job per contact |
| BulkCall.BatchEntry | backend/src/services/bulkCall.ts:83-91 | Contact i's job is new and carries the shared user and template, contact i's phone and variables, and delay `i * d` |
| BulkCall.QueuedCallsSpec | backend/src/services/bulkCall.ts:93-97 | The i-th result is contact i's job id, its phone number and `queued` |
| BulkCall.StatusOf | backend/src/services/bulkCall.ts:110-123 | An unknown id is `not_found`; a known one reports its job's state |
| BulkCall.CancelOutcome | backend/src/services/bulkCall.ts:137-144 | Success iff the job exists; an unknown id gets `Job not found` |
| BulkCall.BulkCallService.constructor | backend/src/services/bulkCall.ts:7-10 | The service works on the shared call table it is given, unchanged, and a new empty queue of its own |
| BulkCall.BulkCallService.Enqueue | backend/src/services/bulkCall.ts:80-97 | One loop step adds contact i's job and yields its result entry |
| BulkCall.BulkCallService.StartBulkCall | backend/src/services/bulkCall.ts:79-98 | Adds exactly one job per contact under fresh ids, and returns one entry per contact in contact order |
| BulkCall.BulkCallService.BulkCallStatus | backend/src/services/bulkCall.ts:109-127 | One result per id, in input order, each resolved on its own |
| BulkCall.BulkCallService.CancelBulkCall | backend/src/services/bulkCall.ts:136-147 | One outcome per id, in order; exactly the known ids are removed and every other job is untouched |
| BulkCall.BulkCallService.ProcessJob | backend/src/services/bulkCall.ts:27-63 | A failing template fails the job and creates no call. Otherwise exactly one call is created as `pending`, the job completes with it, and the row ends `completed` with a duration in [0, 300) |
| BulkCall.BulkCallService.BulkCallStats | backend/src/services/bulkCall.ts:155-173 | One group per distinct status of the user's last-day calls in the shared call table (scheduled calls included), each with its count; the counts sum to the number of those calls |
| Scheduler.CacheKeyInjective | backend/src/services/scheduler.ts:100 | Different users have different cache keys |
| Scheduler.InsertByTime | backend/src/services/scheduler.ts:117-120 | Inserting adds one row |
| Scheduler.InsertByTimeSorted | backend/src/services/scheduler.ts:117-120 | Inserting into a list sorted by `scheduledAt` keeps it sorted |
| Scheduler.InsertByTimeRows | backend/src/services/scheduler.ts:117-120 | Inserting adds exactly that row |
| Scheduler.SortByTimeSpec | backend/src/services/scheduler.ts:117-120 | The sort is ascending in `scheduledAt` and a permutation of its input |
| Scheduler.OwnedBy | backend/src/services/scheduler.ts:118 | Holds exactly the user's rows |
| Scheduler.ListingSpec | backend/src/services/scheduler.ts:117-120 | The listing is the user's rows, sorted ascending by `scheduledAt` |
| Scheduler.OwnedByAppendOther | backend/src/services/scheduler.ts:81-100 | Another user's new row does not change a user's rows |
| Scheduler.OwnedByUpdateOther | backend/src/services/scheduler.ts:56-62 | Another user's status change does not change a user's rows |
| Scheduler.FindRow | backend/src/services/scheduler.ts:35-38 | Finds a row with that id, or reports that none exists |
| Scheduler.FindRowUnique | backend/src/services/scheduler.ts:35-38 | With distinct ids, the lookup finds exactly that row |
| Scheduler.CallScheduler.constructor | backend/src/services/scheduler.ts:6-9 | The scheduler works on the shared call table it is given, unchanged, with a new empty queue, no scheduled calls and an empty cache |
| Scheduler.CallScheduler.ScheduleCall | backend/src/services/scheduler.ts:81-100 | Adds one record under a fresh id, whose status is the table's column default (a parameter), enqueues one job carrying it with delay `scheduledAt - now` (which may be negative), and invalidates the user's cache |
| Scheduler.CallScheduler.GetScheduledCalls | backend/src/services/scheduler.ts:109-125 | Returns the user's calls sorted by `scheduledAt` (a cache hit returns the same, by coherence) and caches them |
| Scheduler.CallScheduler.CancelScheduledCall | backend/src/services/scheduler.ts:132-158 | A missing or foreign record is an error and changes nothing. Otherwise the one delayed job for it is removed if there is one, the status becomes `cancelled` anyway, the result is true and the cache is invalidated. A job for the record that is not delayed (a promoted one) is kept unchanged |
| Scheduler.CallScheduler.PromoteDue | backend/src/services/scheduler.ts:92-97 | Promoting a delayed job makes it waiting, changes nothing else in the queue, and keeps one job per record |
| Scheduler.CallScheduler.ProcessJob | backend/src/services/scheduler.ts:31-70 | An unknown id fails the job and creates no call. Otherwise one `pending` call with the record's user, phone, template and contact is created, the record becomes `completed`, and the cache is invalidated |
| Scheduler.OneJobPerRow | backend/src/services/scheduler.ts:143-147 | At most one queued job carries a given record id, so the first match is the only one |
| Scheduler.JobsValidAdd | backend/src/services/scheduler.ts:92-97 | Enqueuing the next record's job keeps one job per record |
| Scheduler.JobsValidRemove | backend/src/services/scheduler.ts:146 | Removing a job keeps one job per record |
| Scheduler.JobsValidSet | backend/src/services/scheduler.ts:31-70 | The worker's state change keeps one job per record |
| Scheduler.CoherentAfterAppend | backend/src/services/scheduler.ts:99-100 | A new row plus dropping that user's key leaves every cached listing fresh |
| Scheduler.CoherentAfterUpdate | backend/src/services/scheduler.ts:155-156 | A status change plus dropping that user's key leaves every cached listing fresh |
| AnalyticsRoutes.SentimentCountsBound | backend/src/routes/analytics.ts:50-54 | The three sentiment counts sum to at most the number of calls |
| AnalyticsRoutes.StatsOfBounds | backend/src/routes/analytics.ts:42-55 | `totalCalls` is the number of calls, completed + failed ≤ total, and the sentiment counts sum to at most the total |
| AnalyticsRoutes.QueryRange | backend/src/routes/analytics.ts:16-40 | A missing or empty date is a bad request with the dates-required message. Otherwise a date that does not parse fails the query (an Invalid Date filter), and two parsed dates give the range |
| AnalyticsRoutes.CallsRoute | backend/src/routes/analytics.ts:13-62 | Fails exactly as the date check does (missing dates, then an Invalid Date). Otherwise it reports the count, duration sum, completed and failed counts and sentiment distribution of the user's calls in range, with completed + failed ≤ total |
| AnalyticsRoutes.WithSentiment | backend/src/routes/analytics.ts:91-93 | Holds exactly the calls whose sentiment is not null |
| AnalyticsRoutes.VerdictSpec | backend/src/routes/analytics.ts:105-111 | `positive` iff pos > neg, `negative` iff neg > pos, `neutral` iff they are equal, the empty set included |
| AnalyticsRoutes.SentimentRoute | backend/src/routes/analytics.ts:65-123 | Fails exactly as the date check does; otherwise it reports the counts over calls in range with a sentiment, and the verdict by the rule above |
| AnalyticsRoutes.IntervalMs | backend/src/routes/analytics.ts:160-165 | Hour, week and month map to their lengths; a name inherited from `Object.prototype` gives no number; every other interval, and none, maps to one day |
| AnalyticsRoutes.InPeriod | backend/src/routes/analytics.ts:169-172 | Holds exactly the calls in the half-open period [lo, hi) |
| AnalyticsRoutes.InPeriodSplit | backend/src/routes/analytics.ts:169-172 | Adjacent half-open periods split counts and durations exactly |
| AnalyticsRoutes.InPeriodEmpty | backend/src/routes/analytics.ts:169-172 | An empty period holds no call |
| AnalyticsRoutes.InPeriodAll | backend/src/routes/analytics.ts:169-172 | A period covering every call holds them all |
| AnalyticsRoutes.PeriodsSpec | backend/src/routes/analytics.ts:167-187 | The i-th trend point covers [start + i·ms, start + (i+1)·ms) |
| AnalyticsRoutes.PeriodsTotal | backend/src/routes/analytics.ts:167-187 | The trend counts and durations sum to those of the covered range |
| AnalyticsRoutes.OnePeriod | backend/src/routes/analytics.ts:169-172 | A timestamp lies in at most one period |
| AnalyticsRoutes.Trends | backend/src/routes/analytics.ts:158-187 | The loop emits consecutive periods while the period start is ≤ end, and none when start > end |
| AnalyticsRoutes.PeriodCount | backend/src/routes/analytics.ts:167-187 | The loop's bound gives ⌊(end − start)/ms⌋ + 1 periods |
| AnalyticsRoutes.TrendsRoute | backend/src/routes/analytics.ts:126-194 | Fails exactly as the date check does. With a numeric interval it returns ⌊(end−start)/ms⌋+1 periods (0 when start > end), whose counts and durations sum to those of the user's calls in range. With an inherited name it returns one empty point at start when start ≤ end, and none otherwise |
| AnalyticsRoutes.Series | backend/src/routes/analytics.ts:158-187 | For calls within [start, end], the numeric-interval series has ⌊(end−start)/ms⌋+1 periods (0 when start > end), and its counts and durations sum to those of the calls |
| AnalyticsService.CountByKey | backend/src/services/analytics.ts:51-54 | The accumulator loop builds the object `JsObject.CountObject` describes |
| AnalyticsService.GetCallStats | backend/src/services/analytics.ts:44-55 | `totalCalls` and `totalDuration` are those of the calls in range, and `completedCalls` is the `completed` count. The distribution is the JavaScript counter object over the statuses. It has one property per status other than `__proto__`, valued by its count (as text for an inherited name), with no key repeated and array indices first in ascending order. Its numbers plus the calls with an inherited status add up to `totalCalls`. `completed` is present with `completedCalls` iff that is positive. With ordinary statuses it is the plain tally, summing to `totalCalls` |
| AnalyticsService.StatusDistribution | backend/src/services/analytics.ts:51-54 | The facts above about the counter object over any statuses, collected in one lemma |
| AnalyticsService.CompletedEntry | backend/src/services/analytics.ts:46-54 | `completed` is in the counter object, holding its count, iff it occurs |
| AnalyticsService.Present | backend/src/services/analytics.ts:129 | Holds exactly the analyses that are not null |
| AnalyticsService.Flatten | backend/src/services/analytics.ts:136 | Holds exactly the members of the lists |
| AnalyticsService.KeyPointsMembers | backend/src/services/analytics.ts:133-137 | `keyPoints` has no duplicates and holds exactly the union of the non-null analyses' key points |
| AnalyticsService.EmotionsMembers | backend/src/services/analytics.ts:138-142 | `emotions` has no duplicates and holds exactly the union of the non-null analyses' emotions |
| AnalyticsService.WithTranscript | backend/src/services/analytics.ts:85-87 | Holds exactly the calls with a transcript |
| AnalyticsService.GetSentimentAnalysis | backend/src/services/analytics.ts:67-153 | `totalCalls` counts the transcribed calls in range. The distribution is the counter object over the sentiments of the non-null analyses. It has one property per sentiment other than `__proto__`, with no key repeated, and its numbers plus the inherited sentiments add up to the non-null analyses, at most `totalCalls`. With ordinary sentiments it is the plain tally. `keyPoints` and `emotions` are the first-seen de-duplicated unions |
| Seqs.TallySpec | backend/src/services/analytics.ts:51-54 | The plain count: one entry per distinct element, valued by its occurrences, summing to the length |
| JsObject.CountInto | backend/src/services/analytics.ts:52 | One assignment: a `__proto__` key changes nothing, an own key is incremented in place, and a new key is appended, so the keys stay the same or gain k |
| JsObject.CountObjectSnoc | backend/src/services/analytics.ts:51-54 | Counting one more key is one assignment on the object |
| JsObject.CountObjectEntries | backend/src/services/analytics.ts:51-54 | The object holds exactly one property per key other than `__proto__`, in first-seen order, valued by its count (as the method's text for an inherited name) |
| JsObject.CountObjectSum | backend/src/services/analytics.ts:51-54 | The numeric values plus the inherited keys add up to the number of keys counted |
| JsObject.IndexValueInjective | backend/src/services/analytics.ts:51-54 | Two array-index keys with the same number are the same key |
| JsObject.EnumeratedPermutation | backend/src/services/analytics.ts:51-54 | Listing the keys in property order keeps the same properties and numbers |
| JsObject.EnumeratedOrder | backend/src/services/analytics.ts:51-54 | In property order the array indices come first, in ascending order |
| JsObject.EnumeratedRest | backend/src/services/analytics.ts:51-54 | The other keys follow in creation order |
| JsObject.DistinctKeysPermutation | backend/src/services/analytics.ts:51-54 | Reordering properties with distinct keys keeps them distinct |
| JsObject.CountedObjectSpec | backend/src/services/analytics.ts:51-54 | The listed object: exactly the counted properties, distinct keys, array indices first and strictly ascending, other keys in creation order, and the numbers plus the inherited keys add up to the number of keys |
| JsObject.CountedObjectLookup | backend/src/services/analytics.ts:52 | A key other than `__proto__` is listed with its count iff it occurs |
| JsObject.PlainCount | backend/src/services/analytics.ts:51-54 | Without inherited names or array indices among the keys (so without `__proto__`), the object is the plain tally, summing to the number of keys |
| JsObject.CountedObjectPlain | backend/src/services/analytics.ts:51-54 | The same equality with the plain tally, under that hypothesis |
| JsObject.ProtoKeyVanishes | backend/src/services/analytics.ts:52 | Counting `__proto__` and an ordinary key k gives only k, with 1 |
| JsObject.InheritedKeyText | backend/src/services/analytics.ts:52 | An inherited name counted twice holds its method's source text followed by `11` |
| JsObject.IndexKeysFirst | backend/src/services/analytics.ts:51-54 | An array-index key counted after an ordinary key is listed before it |
| JsObject.ProtoStatusLost | backend/src/services/analytics.ts:52 | The statuses `__proto__` and `completed` give only `completed: 1` |
| JsObject.ConstructorStatusText | backend/src/services/analytics.ts:52 | Two `constructor` statuses give the text `function Object() { [native code] }11` |
| JsObject.NumericStatusFirst | backend/src/services/analytics.ts:51-54 | The statuses `completed` then `5` are listed `5` first |
| AnalyticsService.GroupKeyNesting | backend/src/services/analytics.ts:183-197 | Keys are 13-, 10- and 7-character ISO prefixes, so calls sharing an hour share a day, and calls sharing a day share a month |
| AnalyticsService.BucketOf | backend/src/services/analytics.ts:200-213 | A bucket counts its calls, and completed ≤ total |
| AnalyticsService.BucketOfSnoc | backend/src/services/analytics.ts:209-213 | Adding a call to a bucket is one accumulator step |
| AnalyticsService.WithKey | backend/src/services/analytics.ts:179-216 | The calls with a key number as many as its occurrences |
| AnalyticsService.GroupsOf | backend/src/services/analytics.ts:179-216 | Each group's bucket is the bucket of its calls |
| AnalyticsService.SumTotalsGroups | backend/src/services/analytics.ts:209 | The groups' totals sum to the keys' occurrence counts |
| AnalyticsService.GroupedSpec | backend/src/services/analytics.ts:179-222 | The keys are the distinct call keys in first-seen order. Each bucket summarises exactly its calls, with completed ≤ total, and the totals sum to the number of calls |
| AnalyticsService.GroupedSnoc | backend/src/services/analytics.ts:200-214 | One more call is one accumulator step on the grouping |
| AnalyticsService.GroupedSnocSeen | backend/src/services/analytics.ts:200-214 | A known key updates only its own bucket |
| AnalyticsService.GroupedSnocNew | backend/src/services/analytics.ts:200-207 | A new key appends a bucket starting from zero |
| AnalyticsService.GroupByKey | backend/src/services/analytics.ts:179-222 | The accumulator loop computes the grouping |
| AnalyticsService.GetCallTrends | backend/src/services/analytics.ts:155-232 | The calls in range are taken in ascending `createdAt` order (a permutation of them). The trends are their grouping by interval key: the keys are the distinct keys in first-seen order, none repeats, every key occurs, and the totals sum to the number of calls |
| Ai.PersonalityPrompt | backend/src/services/ai.ts:158-168 | The five named personalities get their own prompts; any other name, `professional` and `casual` included, gets the default |
| Ai.PromptIdentifiesPersonality | backend/src/services/ai.ts:158-168 | The prompts are distinct, so the default prompt comes back exactly for a name other than friendly, formal, technical and sales, and each other prompt exactly for its own name |
| Ai.Window | backend/src/services/ai.ts:74-77 | Keeps the last 10 messages, or all of them when there are at most 10 |
| Ai.ExtendSpec | backend/src/services/ai.ts:68-77 | The new history ends with the transcript and then the reply. It is the old history plus both when that fits in 10, and otherwise the last 10 of that concatenation, so it never exceeds 10 |
| Ai.Prompted | backend/src/services/ai.ts:45-55 | The system prompt, then the history, then the transcript: length history + 2 |
| Ai.Assistant.GenerateResponse | backend/src/services/ai.ts:23-87 | An unknown user raises `User not found` and no history is touched. Otherwise it sends the user's prompt, the history and the transcript, and stores the extended history under the call's key |
| Settings.CheckField | backend/src/routes/settings.ts:55-66 | A field passes iff it is absent or falsy, or is a string in its enum (the strict `includes`, so a truthy non-string fails); otherwise it fails with the enum message |
| Settings.FirstFailing | backend/src/routes/settings.ts:55-66 | The first failing field in theme, language, timezone, personality order, or none iff none fails |
| Settings.NoneFails | backend/src/routes/settings.ts:55-66 | When none of the four fields fails, no field fails |
| Settings.CheckOne | backend/src/routes/settings.ts:55-66 | One field's check passes iff that field does not fail |
| Settings.CheckUpdate | backend/src/routes/settings.ts:55-66 | The PUT checks pass iff no supplied field is outside its enum; otherwise the error names the first failing field and its values |
| Settings.UnsuppliedPasses | backend/src/routes/settings.ts:55-66 | A body without truthy fields always passes |
| Settings.PassedFields | backend/src/routes/settings.ts:55-66 | Once the checks pass, every truthy field is a string of its enum |
| Settings.Created | backend/src/routes/settings.ts:76-82 | After the checks pass, PUT-created settings write each truthy field and give every other field (absent, `""`, `null`, `0`, …) its GET default, so all lie in the enums |
| Settings.Updated | backend/src/routes/settings.ts:70-75 | An update keeps the owner; each string field of the body (even empty) is written, and each absent one is kept |
| Settings.EmptyUpdateKeeps | backend/src/routes/settings.ts:70-75 | An update whose fields are all absent changes nothing |
| Settings.Upsert | backend/src/routes/settings.ts:55-83 | Fails iff a check fails (with its error, before any write) or a field that skipped its check is a non-string such as `null`, `false` or `0` (refused by the database client); otherwise it creates with defaults or updates the existing record |
| Settings.NonStringBodies | backend/src/routes/settings.ts:53-82 | `true` and `["dark"]` as theme fail the theme check; `null` as theme and `0` as timezone skip their checks and are refused by the database client |
| Settings.EmptyThemeWritten | backend/src/routes/settings.ts:55-75 | A PUT with theme `""` skips the theme check (it is falsy) but the update writes it, so the stored theme is `""`, which is not a theme |
| Settings.KeysDistinct | backend/src/routes/settings.ts:18 | Settings and profile cache keys are injective and never collide |
| Settings.SettingsRoutes.GetSettings | backend/src/routes/settings.ts:14-47 | Returns the stored settings, or creates exactly one record with the defaults (light, en, UTC, professional), and caches the result; a second call creates nothing |
| Settings.SettingsRoutes.UpdateSettings | backend/src/routes/settings.ts:50-90 | A failed check changes nothing. Otherwise it stores the upserted record and drops that user's cache entry, so no stale entry is left |
| Settings.SettingsRoutes.GetProfile | backend/src/routes/settings.ts:93-125 | An unknown user raises NotFound `User not found` and caches nothing; otherwise it returns and caches the user |
| CallHistory.FormatDuration | frontend/src/components/CallHistory.tsx:38-42 | The label has at least four characters and starts with a digit |
| CallHistory.FormatDurationShape | frontend/src/components/CallHistory.tsx:38-42 | The label is ⌊s/60⌋ in decimal, a colon, and the two digits of s mod 60, zero-padded |
| CallHistory.OneColon | frontend/src/components/CallHistory.tsx:40-41 | The label holds exactly one colon, and exactly two characters follow it |
| CallHistory.FormatDurationParse | frontend/src/components/CallHistory.tsx:39-41 | Parsing back, minutes·60 + seconds equals s, and the seconds are below 60 |
| CallHistory.ShortDuration | frontend/src/components/CallHistory.tsx:39 | Under a minute the label starts with `0:` |

## Left out

- Redis time-to-live: cache entries never expire. Every write that invalidates is modelled; expiry only removes entries, so expiry cannot make a cached listing stale.
- Floating-point results are not computed: `averageDuration` (both analytics files), the sentiment `score`, `averageSentiment` (NaN on zero calls) and the trend points' `averageDuration`. The trend points carry count and duration sum instead.
- Week keys in `getCallTrends` depend on the local time zone. They are an input function (`weekStartIsoOf`), and ISO rendering is one too (`isoOf`).
- Date parsing: `new Date(...)` in the routes is a `parse` parameter that gives milliseconds or, for an Invalid Date, nothing. The calendar checks of `validateDate`, `validateDateTime` and `validateDateRange` are parameters; only the regex shapes are modelled.
- AnalyticsRoutes.QueryRange: an Invalid Date in the `createdAt` filter makes the database client throw, and the handler passes that error on (answered as 500). The text of the client's message is a placeholder constant.
- AnalyticsRoutes.CallsRoute, AnalyticsRoutes.SentimentRoute, AnalyticsRoutes.TrendsRoute: query parameters are optional strings. Repeated parameters and nested objects, which the query parser turns into arrays and objects, are not modelled.
- Validation.ValidateNumber: JavaScript numbers are modelled as integers plus NaN. Infinity, -Infinity and fractional numbers are not modelled; they have type `number` and would be checked against the bounds as reals.
- The OpenAI calls are inputs. The assistant's reply is a parameter. The sentiment analyses of `getSentimentAnalysis` are a sequence of optional analyses, with `null` standing for a failed or unparsable completion.
- Ai.PersonalityPrompt: the lookup is over the five own keys only. Inherited property names of the JavaScript object literal (`constructor`, `toString`, …) are not modelled; they would return a function, not a prompt.
- Ai.Assistant.GenerateResponse: the history cache holds only the conversation histories, under `conversation:<callId>`; its one-hour expiry is not modelled. The optional `context` field is unused in the source and not modelled. The completion always succeeds with a string reply: a completion call that throws (the error is rethrown and the history is left as it was, `backend/src/services/ai.ts:58-63` and 83-86) and a `null` message content (which the source stores in the history, lines 65-71) are not modelled.
- Templates.TemplateService.ProcessTemplate: keys must be `PlainKey`s and values must not contain `$`. `^$\.*+?()[|` are regular-expression syntax, and a key of the form `n`, `n,` or `n,m` makes `{{n}}` a quantifier, so `new RegExp` would read such keys as patterns; `replace` would read `$` sequences in the value. `]`, `{` and `}` are also excluded, for simplicity: without the `u` flag they are literal unless they form a quantifier, so keys such as `a]` or `a{`, which the source renders literally, are not covered. Every other key, with underscores, dashes or spaces, is taken literally as in the source.
- `Math.random` in the bulk-call worker is a nondeterministic choice in [0, 300).
- Bull internals are not modelled: job ids are the decimal text of an incrementing counter, and the workers run atomically. So no job is ever `active` and `job.remove()` does not fail; progress stays 0. Prisma ids are counters (natural numbers) rather than cuid strings.
- `Promise.all` in the status and cancel operations becomes a sequential loop. The results are resolved per id, so order does not change them.
- BulkCall.BulkCallService.StartBulkCall: the empty-contacts check lives in the route (`backend/src/routes/bulk-calls.ts:81-83`) and is a precondition here.
- BulkCall.BulkCallService.ProcessJob: when the job has a template id, its variables must be plain, with the same excluded keys and values as `processTemplate` (`]`, `{` and `}` excluded for simplicity); a job without one is not restricted, since its variables are never rendered. The worker takes only waiting jobs. The rendered content is computed and discarded, as in the source.
- CallHistory.FormatDuration: its domain is whole, non-negative seconds. Negative or fractional durations (JavaScript `%` and `toString` on such numbers) are not modelled.
- The settings and profile caches are keyed by user id; `settings:<id>` and `profile:<id>` are the functions `SettingsKey` and `ProfileKey`, which `Settings.KeysDistinct` shows to be injective and disjoint. PUT `/profile` and the other settings sub-routes are not modelled.
- The analytics response caches (`analytics:*`, `call-stats:*`, `sentiment:*`, `call-trends:*`) are left out: the model computes every response from the call sequence it is given, whereas the source may serve a cached response until it expires.
- Templates.Listing: the result is a map by id, so the `orderBy: { name: 'asc' }` order is not modelled. The case-insensitive search folds ASCII letters only, while the database's insensitive mode also folds other letters.
- Templates.TemplateService.GetTemplates: returns the listing as a map by id; the order by name is not modelled.
- Templates.Invalidate: models the corrected invalidation, which drops every cached listing of the user. The source deletes only `templates:<user>` (lines 38, 113, 137 and 193), which is `Templates.InvalidateAsWritten` (see Findings).
- Templates.TemplateService.CoherentAfter: holds for the corrected invalidation, not the source's single-key deletion.
- Templates.TemplateService.CreateTemplate: invalidates by the corrected rule, not by the source's `cache.del('templates:<user>')` at line 38.
- Templates.TemplateService.UpdateTemplate: invalidates by the corrected rule, not by the source's single-key deletion at line 113.
- Templates.TemplateService.DeleteTemplate: invalidates by the corrected rule, not by the source's single-key deletion at line 137.
- Templates.TemplateService.DuplicateTemplate: invalidates by the corrected rule, not by the source's single-key deletion at line 193.
- AnalyticsService.GetCallTrends: calls created at the same time stay in table order; the database's order among them is unspecified.
- Scheduler.CallScheduler.GetScheduledCalls: rows with the same `scheduledAt` are listed in table order (a stable sort); the database's `orderBy: { scheduledAt: 'asc' }` leaves their order unspecified.
- Templates.TemplateService.CreateTemplate: the `isActive` column default comes from the database schema, which is not part of this model, so it is the parameter `columnDefault`.
- Calls.NewJob: the waiting and delayed states follow Bull's `add`, where a zero delay waits and any other delay goes to the delayed set. Bull is not part of this model.
- Scheduler.CallScheduler.CancelScheduledCall: promotion happens only through `PromoteDue`. The queue has no clock, so the model does not say when a delayed job becomes due.
- AnalyticsService.GetCallStats and AnalyticsService.GetSentimentAnalysis follow the code as written: the distributions are the counter objects from `JsObject`, not the plain tally (see Findings).

- Scheduler.CallScheduler.ScheduleCall: the create sets no status, so the new record's status is the column default of the database schema, which is not part of this model; it is the parameter `statusDefault`.
- Settings.Upsert: a body field that skips its check but is not a string (`null`, `false`, `0`) reaches the database client in `update`. The model assumes the client refuses it, as the row type declares each field a string (`backend/src/types/index.ts:10-19`), and the client's message is a placeholder constant. Numbers are modelled as integers plus NaN.
## Findings

| source | as written | input that shows it | evidently intended | confidence | as-written member | corrected member |
|---|---|---|---|---|---|---|
| backend/src/services/templates.ts:113 | write operations (lines 38, 113, 137, 193) delete the key `templates:<user>`, but listings are cached under `templates:<user>:<filters JSON>` (line 53) | create a template after a listing was cached with filters `undefined`: the key `templates:u:undefined` is not deleted, and the next `getTemplates` returns the stale listing for up to 5 minutes | every cached listing of the user is dropped on write | not executed | Templates.AsWrittenKeepsListings | Templates.InvalidateByPrefixRemovesListings |
| backend/src/services/analytics.ts:52 | each call adds 1 to the property `acc[call.status]` of a plain object, where the status is any non-empty text set by PATCH `/calls/:id/status` (`backend/src/routes/calls.ts:150-169`) | two calls with statuses `__proto__` and `completed`: the distribution is `{ completed: 1 }` and sums to 1, not 2; `constructor` twice gives a string, not 2 | every status counted once per call, summing to `totalCalls` | not executed | JsObject.ProtoStatusLost | Seqs.TallySpec |

Cancelling a bulk-call job that has already run still gives `success: true`: a completed job stays in the queue, `getJob` finds it, and `remove` succeeds (`backend/src/services/bulkCall.ts:138-144`).
