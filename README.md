# lnkk core: crawl steps, scheduler, authorization cache, link store helpers, cron windows

This project models, in Dafny, the core of the lnkk service: the background jobs
that mirror a chat workspace's users, channels and message history into a durable
store, one page per job, and the helpers around them.

- **Crawl steps** (`internal/jobs/slack.go`). Each job resolves the workspace's
  access token and asks the chat API for one page. It upserts every item on the
  page, then either enqueues its own continuation on the background work queue or
  stops. The message-history job walks a newest-first page. It stores the longest
  prefix of messages newer than the channel's crawl watermark. It then does one of
  three things:
  - stops at the first message that is not newer, and marks the channel crawled at
    the run's start time;
  - continues below the oldest message of a page that was new throughout and has
    more pages after it;
  - marks the channel crawled when the history is exhausted.
- **Workspace scheduler** (`internal/api/scheduler.go`). It selects the workspaces
  whose `NextUpdate` is strictly before now. For each one it enqueues a first-page
  users job and a first-page channels job, then marks the workspace updated.
  `CollectMessages` does nothing.
- **Authorization cache** (`internal/backend/auth.go`). Reads go through a cache
  keyed `"workspace.auth" + id`: a hit answers from the cache, and a miss loads the
  store's record and caches it. An update is a read-modify-write of the stored
  record that never touches the cache, so a cached token can be stale.
- **Link helpers** (`internal/backend/url.go`). IP anonymisation keeps three octets
  of an IPv4 address or three groups of an IPv6 one. The geolocation step is
  get-else-lookup-and-put, and there are asset and measurement writes.
- **Cron windows** (`internal/cron/cron.go`). Each handler reads a job's last-run
  timestamp, enqueues tasks carrying it, and advances it to now. So consecutive
  runs hand out contiguous windows.

External state is passed in and handed back as values:
- the store is a `Backend.Datastore` record of maps and logs;
- the cache is a map;
- the work queue is a sequence of `Backend.Job` records, not URL strings;
- the cron platform is a `Cron.Platform` of a job-timestamp table and a task queue.

Remote calls are oracle parameters that return `None` for a failed call: the chat
API's UsersList, ChannelsList and ChannelsHistory, and the geolocation lookup.
Whether the store accepts a write is a boolean parameter, or `accepted(i)` for the
i-th write of a page. Clock readings are integer parameters. `tsOf` stands for the
conversion of a message timestamp to a number.

Files: `strings.dfy` (Option/Result, Go's `strings.Split` and `%d`), `backend.dfy`
(records, store, jobs, the batch-upsert fold), `auth.dfy`, `slack_jobs.dfy`,
`scheduler.dfy`, `url.dfy`, `cron.dfy`.

Facts about the code that a reader might not expect:
- The scheduler selects workspaces whose `NextUpdate` is strictly before now. A
  workspace due exactly now waits for the next pass.
- The users and channels steps never mark their resource "updated" when the last
  page is reached. They only stop enqueuing.
- A store write failure never aborts a step. A failed user or channel upsert is
  reported, and the loop goes on to the next item. A failed message store is
  ignored, and the counter is still incremented. The continuation is scheduled
  either way.
- The channel watermark is set to the run's clock reading, unconditionally. It
  is guaranteed not to decrease only when the run's clock is at or past the old
  watermark.
  `SlackJobs.HistoryPageMarks` proves exactly that conditional form.

## Model

| member | source | states |
|---|---|---|
| Strings.Split | internal/backend/url.go:97-101 | strings.Split with a one-character separator: at least one part, no part contains the separator, and joining the parts gives back the input |
| Strings.SplitJoin | internal/backend/url.go:97-101 | splitting undoes joining when no part contains the separator |
| Strings.DecimalRoundTrip | internal/jobs/slack.go:135 | the `%d` text of a number reads back as that number |
| Backend.MarkCrawled | internal/jobs/slack.go:155 | MarkChannelCrawled: the channel's watermark (read as GetChannelLatestCrawled reads it, 0 for a channel never crawled) becomes the given time, every other channel's watermark is unchanged, and nothing else in the store changes |
| Backend.PutAll | internal/jobs/slack.go:48-56 | upserting a batch leaves exactly the old keys plus the batch's keys |
| Backend.PutAllIdempotent | internal/jobs/slack.go:48-56 | applying the same batch of upserts twice gives the same store as applying it once |
| Backend.AcceptedKeys | internal/jobs/slack.go:48-56 | a key is written by the accepted part of a page iff some accepted item of the page has that key |
| Backend.AcceptedStored | internal/jobs/slack.go:48-56 | with distinct keys, every accepted item is what the store holds under its key afterwards |
| Backend.PutAllElsewhere | internal/jobs/slack.go:48-56 | a key the batch does not write keeps its old value |
| Auth.CacheKeyInjective | internal/backend/auth.go:18 | two workspaces never share a cache key "workspace.auth"+id |
| Auth.GetAuthorization | internal/backend/auth.go:16-35 | a cache hit returns the cached record and leaves the cache alone, whatever the store holds; a miss the store answers returns the stored record and caches it under "workspace.auth"+id; a miss the store cannot answer fails and caches nothing |
| Auth.GetAuthToken | internal/backend/auth.go:38-47 | yields exactly the access token of the record GetAuthorization yields, or its error, with the same cache effect |
| Auth.UpdateAuthorization | internal/backend/auth.go:50-75 | succeeds iff the put is accepted; a rejected put changes nothing; only the record under id changes; an existing record gets only token, scope and update time replaced, keeping id, name, users and creation time; after a failed read a full record is built from the arguments and the two clock readings |
| Auth.UpdateThenReadToken | internal/backend/auth.go:50-75 | after an update of a workspace whose record is cached, the store holds the new token and a token read still returns the cached one |
| SlackJobs.NewerPrefix | internal/jobs/slack.go:147-161 | the length of the longest newest-first prefix strictly newer than the watermark: every message before it is newer, and the message at it (if any) is not |
| SlackJobs.UpperBound | internal/jobs/slack.go:134-138 | the history request is bounded by the job's l when given, and otherwise by the decimal text of the run's start time |
| SlackJobs.UpdateUsersJob | internal/jobs/slack.go:23-64 | no token, or a failed list call: the store and queue are unchanged and the error is reported; otherwise every member of the page gets an upsert attempt under its own id, the accepted ones are stored, and one users job with the same id and next_cursor is enqueued iff next_cursor is non-empty (a page without a next_cursor entry reads as "", as a Go map lookup does) |
| SlackJobs.UsersPageStored | internal/jobs/slack.go:48-56 | when the page lists each member id once, every accepted member is stored under its id as the user built from it: its id, its own team id, and first name, last name and email from its profile |
| SlackJobs.UsersPageFrame | internal/jobs/slack.go:48-56 | for any page, every new user comes from an accepted member and no other user changes |
| SlackJobs.UpdateChannelsJob | internal/jobs/slack.go:67-109 | as UpdateUsersJob for channels, upserted with the job's workspace id as team and the flag false; continuation iff next_cursor is non-empty |
| SlackJobs.ChannelsPageStored | internal/jobs/slack.go:92-100 | when the page lists each channel id once, every accepted channel is stored under its id as the channel built from it: its id, the job's workspace id as team, and false as the last flag |
| SlackJobs.ChannelsPageFrame | internal/jobs/slack.go:92-100 | for any page, every new channel comes from an accepted one and no other channel changes |
| SlackJobs.CollectMessagesJob | internal/jobs/slack.go:113-175 | no token or a failed history call: nothing stored, marked or enqueued; otherwise the page fetched with the bound UpperBound is ingested as IngestHistoryPage states; only messages of this channel newer than the watermark are written; a clock at or past the watermark never moves it back |
| SlackJobs.IngestHistoryPage | internal/jobs/slack.go:147-169 | the count is the newer-prefix length and only that prefix is stored; reaching the watermark mid-page marks the channel crawled at now and enqueues nothing; an all-new page with more enqueues exactly one continuation with the same id and channel and l = the page's oldest timestamp, and marks nothing; an exhausted history marks the channel crawled at now; "more" on an empty page panics |
| SlackJobs.HistoryPageWritesOnlyNewer | internal/jobs/slack.go:150-152 | every message key a page writes or overwrites belongs to this workspace and channel and has a timestamp strictly newer than the watermark |
| SlackJobs.NewerOnly | internal/jobs/slack.go:148-152 | storing a prefix of newer messages writes only newer messages of that channel |
| SlackJobs.HistoryPageMarks | internal/jobs/slack.go:153-169 | a page leaves the crawl marks alone or marks only its own channel, at now; with now at or past the watermark, the watermark does not decrease |
| SlackJobs.MultiPageConvergence | internal/jobs/slack.go:147-169 | with watermark 15, page [30,25,20] with more stores all three and continues from 20; page [18,16,14] stores 18 and 16, not 14, enqueues nothing and sets the watermark to the second run's start time |
| Scheduler.Due | internal/api/scheduler.go:28-29 | the due list holds exactly the workspaces with NextUpdate strictly before now, each as many times as the table holds it, and nothing else |
| Scheduler.DueAppend | internal/api/scheduler.go:28-29 | the due list keeps the table's order: the due part of two tables in sequence is the due part of the first followed by that of the second |
| Scheduler.UpdateWorkspaces | internal/api/scheduler.go:21-44 | on a query error nothing is enqueued or marked and the error is reported; otherwise the queue grows by the dispatch jobs of the due list, in query order, and exactly the due workspaces are marked updated |
| Scheduler.Dispatch | internal/api/scheduler.go:32-39 | the loop produces exactly DispatchJobs and the ids of the due list |
| Scheduler.DispatchJobsAt | internal/api/scheduler.go:34-35 | the i-th due workspace gets a users job then a channels job, both with its id and no cursor, at positions 2i and 2i+1 |
| Scheduler.DispatchedFor | internal/api/scheduler.go:32-39 | every dispatched job carries the id of some due workspace |
| Scheduler.NotDueUntouched | internal/api/scheduler.go:28-39 | with distinct ids, a workspace that is not due is neither enqueued nor marked |
| Scheduler.DistinctIds | internal/api/scheduler.go:28-39 | in a table with distinct ids, two workspaces with the same id are the same |
| Scheduler.CollectMessages | internal/api/scheduler.go:47-48 | enqueues nothing and changes no state |
| Url.AnonymizeIP | internal/backend/url.go:94-103 | anonimizeIP on an address with at least three parts: the result is its first three parts, then five "0000" groups for an address containing ':' or one "0" octet otherwise, joined by ':' or '.' respectively |
| Url.AnonymizeIPv6 | internal/backend/url.go:95-98 | an address containing ':' becomes its first three ':'-groups followed by five "0000" groups |
| Url.AnonymizeIPv4 | internal/backend/url.go:100-102 | an address without ':' becomes its first three '.'-parts followed by "0", and gains no ':' |
| Url.AnonymizeIPIdempotent | internal/backend/url.go:94-103 | anonymising an anonymised address changes nothing |
| Url.CreateAsset | internal/backend/url.go:28-38 | the asset's creation time becomes now; an accepted put stores it under its URI, a rejected one changes nothing and reports the error |
| Url.CreateThenGetAsset | internal/backend/url.go:28-50 | an asset just created reads back through GetAsset (the stored asset, or "no such entity" for a URI with none) stamped with its creation time, and no other URI's answer changes |
| Url.GeoLocationsAfter | internal/backend/url.go:71-91 | a known location is left alone; a failed lookup or rejected put writes nothing; otherwise the looked-up location is stored under the IP and nowhere else |
| Url.CreateGeoLocation | internal/backend/url.go:71-91 | the table becomes GeoLocationsAfter; a known IP reports no error; otherwise a failed lookup or a failed put is reported; without an error the IP has a location afterwards |
| Url.CreateMeasurement | internal/backend/url.go:53-68 | the caller's record gets its IP anonymised; the geolocation step runs on the anonymised IP only; the measurement is appended iff its put is accepted, whatever the geolocation step did; the stored IP is already anonymous |
| Cron.StatsPayload | internal/cron/cron.go:31-32 | the payload is the metric name, "-" and the decimal timestamp, joined by ':' |
| Cron.StatsPayloadFields | internal/cron/cron.go:31-32 | the payload "<metric>:-:<last>" splits into metric, "-" and the decimal of last, and reads back as last |
| Cron.ExpirePayloadLast | internal/cron/cron.go:52 | the expiry payload "%d" of last reads back as last |
| Cron.HourlyTasks | internal/cron/cron.go:24-36 | exactly two tasks are enqueued, assets then redirects, carrying HOURLY_STATS' previous value; HOURLY_STATS becomes now and the daily timestamps are untouched |
| Cron.DailyTasks | internal/cron/cron.go:39-56 | exactly three tasks: two statistics tasks carrying DAILY_STATS' previous value, then an expiry task carrying ASSET_EXPIRATION's previous value in decimal; both become now and HOURLY_STATS is untouched |
| Cron.ConsecutiveHourlyRuns | internal/cron/cron.go:30-33 | the second of two hourly runs hands out the window starting at the first run's time |
| Cron.ConsecutiveDailyRuns | internal/cron/cron.go:45-53 | the second of two daily runs hands out statistics and expiry windows starting at the first run's time |
| Cron.HourlyDailyHourly | internal/cron/cron.go:24-56 | a daily run between two hourly runs does not break the hourly window |

## Left out

- HTTP plumbing: query-parameter extraction, response statuses, task URL building from the base URL, router wiring. Job inputs are method parameters and enqueued jobs are records.
- The chat API calls and the geolocation lookup are network clients. They are oracle parameters taking the token and cursor (or IP); `None` is a failed call. The page size `DefaultCrawlerBatchSize` is not a parameter of the oracle.
- The clock is an integer parameter. UpdateAuthorization's two clock readings are two parameters.
- The bodies of slack.Timestamp, UpdateUser, UpdateChannel, StoreSlackMessage, MarkChannelCrawled, GetChannelLatestCrawled and MarkWorkspaceUpdated are not part of this model. They are modelled as an abstract conversion `tsOf`, map upserts, and an append to a log of marks. The new value MarkWorkspaceUpdated gives `NextUpdate` is not modelled.
- Backend.Watermark: GetChannelLatestCrawled's body is not part of this model. A channel never crawled is taken to have watermark 0.
- Enqueue failures are not modelled for the jobs and the scheduler. Every tasks.Schedule call is taken to succeed and is an unconditional append to the queue (internal/jobs/slack.go:61, 105 and 165; internal/api/scheduler.go:34-35).
- Cron.JobTimestamp: GetJobTimestamp's body is not part of this model. A job that never ran is taken to have timestamp 0. The result of CreateSimpleTask and UpdateJob is not modelled either: both are taken to succeed.
- Cron metric names live in a statistics package that is not part of this model. They are a parameter `name`. The read-back lemmas assume the names contain no ':'.
- The cache's expiry, its gob encoding and a failing cache Set are not modelled. The cache is a map with no clock.
- Auth.GetAuthorization: a store read error other than a missing record is not modelled separately. It fails the same way as a missing record, with a different error value in the source. AuthorizationKey is modelled as the workspace id.
- Logging, metrics and error reporting are fire-and-forget side effects and are not modelled. The counter `n` is returned as `newCount` instead of being logged.
- Concurrency is not modelled: overlapping scheduler passes, redelivery, and concurrent crawls of one channel. Every step is one sequential call.
- SlackJobs.HistoryPageMarks: states watermark monotonicity only for a run whose clock is at or past the old watermark, because the code writes the run's clock unconditionally.
- SlackJobs.CollectMessagesJob: the termination bound of ceil(N/P) steps for N unseen messages and page size P spans many calls to the remote API across queue deliveries. It is not stated.
- Url.CreateMeasurement: requires at least three parts in the IP, as anonimizeIP does. With fewer parts the source indexes out of range (a panic), which is not modelled as an outcome.
- Url.AnonymizeIP: the address family is decided only by the presence of ':', as in the source. No validation of well-formed addresses is modelled.
- The conversions AsInternal and AsExternal between stored and API records are identities here. internal/types/types.go only declares record shapes, which the datatypes follow.
- The commented-out body of CollectMessages is dead code and is not modelled.
