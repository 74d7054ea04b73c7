# A verified model of the diploma-scheduler core

The service lets users schedule named jobs. Each job has either a one-shot date trigger or a repeating interval trigger. A scheduling library runs the jobs. A small web front end keeps its state in a cookie session. This project models the parts of the service that hold logic of their own:

- **Schemas** (`schemas.dfy`): the two trigger variants and the `trigger_name` tag that tells them apart. Also their conversion into the library's trigger objects, the validation of a job payload (defaults, required and nullable fields, the discriminator), and the `JobOut` view.
- **JobRegistry** (`job_registry.dfy`): the fixed table from job name to handler, and how the scheduler manager resolves a name through it.
- **SchedulerExceptions** (`scheduler_exceptions.dfy`): the manager's error kinds, plus the library and runtime errors its calls let through.
- **Services** (`services.dfy`): the `SchedulerManager` class. Its `running` flag guards `Start` and `Stop`. It sits in front of the library's job table, which is modelled as a `map` from job id to `Job`. `AddJob` and `DeleteJob` update that map in place. The pure functions `Lookup`, `Removed`, `Added`, `StartStep` and `StopStep` specify the methods. The lemmas state what they guarantee.
- **FlashMessages** (`flash.dfy`): the append-then-drain message queue stored under the session key `"_messages"`.
- **WebSession** (`session.dfy`): logging a user in, which writes the session key `"user"`.
- **Auth** (`auth.dfy`): the `auth_required` dependency, which is a membership test on `"user"`.
- Shared helpers: `Wrappers` (`Option`, `Result`, `Outcome`), `Values` (the JSON-like values a session and a job's keyword arguments hold) and `Http` (a `Request` object whose `session` map the helpers update).

The scheduling library cannot be seen from this code, so its part is abstract:
- its job table is a map;
- its job store is either attached or not;
- its scheduler is either started or not.

Two library behaviours are taken as assumptions and stated where they are used:
- `add_job` refuses an id that is already taken unless `replace_existing` is set (`ConflictingIdError`);
- `add_jobstore` refuses a store alias that is already registered (`StoreAliasInUse`).

The job API handlers (scheduler/api/jobs.py:17-32) are empty stubs, so nothing coordinates the scheduler with the job metadata table.

## Model

| member | source | states |
|---|---|---|
| `Schemas.TriggerName` | scheduler/modules/scheduler/schemas.py:10-20 | the discriminator is "date" exactly for the date variant and "interval" exactly for the interval variant |
| `Schemas.DateToApscheduler` | scheduler/modules/scheduler/schemas.py:14-15 | the library date trigger gets exactly the schema's run date |
| `Schemas.IntervalToApscheduler` | scheduler/modules/scheduler/schemas.py:29-38 | the library interval trigger receives all seven fields unchanged: reading them back gives the original interval trigger |
| `Schemas.ToApschedulerTrigger` | scheduler/modules/scheduler/schemas.py:14-38 | the union's conversion yields a library date trigger exactly for the date variant, carrying its run date |
| `Schemas.ConversionRoundTrip` | scheduler/modules/scheduler/schemas.py:29-38 | all seven interval fields (and the run date) pass to the library trigger unchanged: reading them back gives the original trigger |
| `Schemas.ConversionInjective` | scheduler/modules/scheduler/schemas.py:14-38 | conversion is injective on the field tuple and keeps the variant |
| `Schemas.PeriodField` | scheduler/modules/scheduler/schemas.py:21-25 | an absent period component defaults to 0, an explicit null is refused, any given integer (negative too) is kept |
| `Schemas.OptionalInstant` | scheduler/modules/scheduler/schemas.py:26-27 | start and end dates default to absent, and null is allowed |
| `Schemas.ParseDateTrigger` | scheduler/modules/scheduler/schemas.py:10-12 | the date variant is accepted exactly when run_date is given, and it keeps that date |
| `Schemas.ParseIntervalTrigger` | scheduler/modules/scheduler/schemas.py:19-27 | the interval variant is accepted exactly when no period component is null; every field takes its given value or its default |
| `Schemas.ParseTrigger` | scheduler/modules/scheduler/schemas.py:41-43 | a missing tag and an unknown tag are refused; an accepted payload's variant is the one its tag names; each tag is accepted exactly when that variant's fields validate, and the accepted trigger is that variant's validated value |
| `Schemas.IntervalDefaults` | scheduler/modules/scheduler/schemas.py:21-27 | a payload that gives only the "interval" tag becomes weeks = days = hours = minutes = seconds = 0 with no start and no end date |
| `Schemas.DateRequiresRunDate` | scheduler/modules/scheduler/schemas.py:12 | a date payload without run_date is refused as missing a required field |
| `Schemas.AnyPeriodAccepted` | scheduler/modules/scheduler/schemas.py:18-38 | no sign check exists: negative or all-zero periods are accepted by validation and passed unchanged to the library trigger's constructor (whose own range limit is not modelled) |
| `Schemas.ParseTriggerRoundTrip` | scheduler/modules/scheduler/schemas.py:10-43 | each trigger's own payload validates back to that same trigger |
| `Schemas.ParseJobIn` | scheduler/modules/scheduler/schemas.py:41-44 | job_name and job_trigger are required; the trigger is the union's choice; args defaults to an empty mapping, is None when null and otherwise is the given mapping |
| `Schemas.JobOutFromOrm` | scheduler/modules/scheduler/schemas.py:47-53 | a job converts to the view exactly when it has a next run time; id and name are copied |
| `JobRegistry.ResolveHandler` | scheduler/modules/scheduler/services.py:56-61 | an unregistered name fails with that name; an entry that is not a record fails when indexed by "func"; otherwise the result is the entry's func |
| `JobRegistry.AsWrittenNeverResolves` | scheduler/modules/scheduler/job_registry.py:6-8 | with the registry as written (bare callables), no name resolves; "notify_students" fails at the "func" index |
| `JobRegistry.RegistryResolves` | scheduler/modules/scheduler/services.py:56-61 | with record entries, a name resolves exactly when it is registered; "notify_students" resolves to its handler |
| `Services.Lookup` | scheduler/modules/scheduler/services.py:36-40 | a present id gives the stored job; an absent id gives JobNotFound carrying that id |
| `Services.Removed` | scheduler/modules/scheduler/services.py:42-46 | after deletion the id is absent and every other job is unchanged, whether or not the id was present |
| `Services.Added` | scheduler/modules/scheduler/services.py:48-69 | against a given registry: an unknown name gives UnknownJobFunction(name) and a bare-callable entry gives TypeError(name), both leaving the table unchanged. An added job has the given name, trigger and kwargs, max_instances 1, the given (or generated) id and the registry entry's func. It is stored under the given id, or under the generated id when none or an empty one is given, and this succeeds exactly when that id is free or replacement is asked for |
| `Services.AddJobAsWrittenRaises` | scheduler/modules/scheduler/services.py:56-61 | with the registry as written, add_job of "notify_students" raises TypeError and every other name raises UnknownJobFunction; the table is unchanged either way |
| `Services.AddedKeepsTableWellFormed` | scheduler/modules/scheduler/services.py:60-68 | every stored job sits under its own id, has max_instances 1 and a registered handler; adding keeps this |
| `Services.AddThenLookup` | scheduler/modules/scheduler/services.py:36-69 | a job that was added is found by its id, with the submitted trigger and kwargs |
| `Services.RemovedIdempotent` | scheduler/modules/scheduler/services.py:42-46 | deleting twice equals deleting once, and get_job afterwards raises JobNotFound |
| `Services.DuplicateIdKeepsFirst` | scheduler/modules/scheduler/services.py:60-68 | a second job with a taken id and no replacement is refused, and the first job stays (an assumption about the library) |
| `Services.StartStepAsWritten` | scheduler/modules/scheduler/services.py:71-83 | as written: a running manager fails with SchedulerAlreadyRunning and changes nothing; otherwise the flag is set before the store is attached, so an already attached store fails with the alias error with only the flag changed (the store stays attached and the library is not started); a started library behind a stopped manager fails with the library's already-running error after the attach; a fresh manager starts fully |
| `Services.StartStep` | scheduler/modules/scheduler/services.py:71-83 | start fails with SchedulerAlreadyRunning and changes nothing when running; otherwise it makes the manager running, with the store attached and the library started |
| `Services.StopStep` | scheduler/modules/scheduler/services.py:85-91 | stop fails with SchedulerStopped and changes nothing when not running; otherwise the flag is always cleared; from an in-sync state the library is stopped too, and when the library is already stopped (the state the as-written start leaves) it fails with the library's not-running error after clearing the flag |
| `Services.StartStopKeepInSync` | scheduler/modules/scheduler/services.py:71-91 | start and stop keep the running flag equal to the library's started state |
| `Services.RestartFailsAsWritten` | scheduler/modules/scheduler/services.py:71-91 | as written, start, stop, start fails on the second start when the store is attached again, and the flag stays set while the library is stopped; a following stop fails with the library's not-running error and the next start fails again at the attach, back in the same state |
| `Services.StuckStaysStuckAsWritten` | scheduler/modules/scheduler/services.py:71-91 | as written, once the store alias is taken and the library is stopped, every later start and stop raises, in any order, even when the caller catches each exception and goes on |
| `Services.RunSucceedsIffAlternating` | scheduler/modules/scheduler/services.py:71-91 | a series of start/stop calls raises nothing exactly when the calls alternate starting with the allowed one; the final flag reflects the parity |
| `Services.LifecycleScenarios` | scheduler/modules/scheduler/services.py:71-91 | start/stop/start succeeds; start/start fails with SchedulerAlreadyRunning; stop on a fresh manager fails with SchedulerStopped |
| `Services.SchedulerManager.constructor` | scheduler/modules/scheduler/services.py:16-31 | a new manager is not running, has no store attached and no jobs; the misfire grace time is two hours |
| `Services.SchedulerManager.GetJobs` | scheduler/modules/scheduler/services.py:33-34 | the result holds exactly the stored jobs |
| `Services.SchedulerManager.GetJob` | scheduler/modules/scheduler/services.py:36-40 | the result is Lookup(table, id): the stored job, or JobNotFound(job_id) when absent; nothing changes |
| `Services.SchedulerManager.DeleteJob` | scheduler/modules/scheduler/services.py:42-46 | the table becomes Removed(old table, id) and nothing raises; the lifecycle state is untouched |
| `Services.SchedulerManager.AddJob` | scheduler/modules/scheduler/services.py:48-69 | job_id defaults to None and replace_existing to False; result and new table are those of Added with the record registry; the lifecycle state is untouched; the table invariant is kept |
| `Services.SchedulerManager.Start` | scheduler/modules/scheduler/services.py:71-83 | result and new lifecycle state are those of StartStep; the jobs are untouched |
| `Services.SchedulerManager.Stop` | scheduler/modules/scheduler/services.py:85-91 | result and new lifecycle state are those of StopStep; jobs and store are untouched |
| `Services.RestartScenario` | scheduler/modules/scheduler/services.py:71-91 | on a real manager object: stop on a fresh manager fails; start, stop, start succeed; a further start fails |
| `FlashMessages.CategoryValueInjective` | scheduler/web/utils/flash.py:6-12 | the six categories are stored as six distinct strings |
| `FlashMessages.Flashed` | scheduler/web/utils/flash.py:15-26 | flash succeeds exactly when "_messages" is absent or a list. It creates the key when absent and appends exactly one {message, category} entry at the end. Earlier entries keep their order and every other key is unchanged |
| `FlashMessages.Popped` | scheduler/web/utils/flash.py:29-30 | get_flashed_messages returns what "_messages" held (an empty list when absent) and removes only that key |
| `FlashMessages.Flash` | scheduler/web/utils/flash.py:15-26 | the request's session becomes Flashed(old session); a non-list "_messages" raises and leaves the session as it was |
| `FlashMessages.GetFlashedMessages` | scheduler/web/utils/flash.py:29-30 | the messages returned and the new session are those of Popped(old session) |
| `FlashMessages.FlashDefaultCategory` | scheduler/web/utils/flash.py:15-18 | a message flashed without a category is stored with category "primary" |
| `FlashMessages.PoppedTwice` | scheduler/web/utils/flash.py:29-30 | a second get_flashed_messages returns an empty list and changes nothing |
| `FlashMessages.FlashAll` | scheduler/web/utils/flash.py:15-26 | a series of flashes on a session whose queue is a list (or absent) keeps it a list |
| `FlashMessages.EntriesElementwise` | scheduler/web/utils/flash.py:15-26 | the i-th stored entry holds the i-th flashed message and its category |
| `FlashMessages.FlashAllAppends` | scheduler/web/utils/flash.py:15-26 | a series of flashes appends exactly the series' entries to the queue, in the order flashed |
| `FlashMessages.FlashAllKeepsOthers` | scheduler/web/utils/flash.py:15-26 | a series of flashes adds no key but "_messages" and leaves every other key's value as it was |
| `FlashMessages.FlashedThenTaken` | scheduler/web/utils/flash.py:15-30 | starting without messages, get_flashed_messages returns exactly the flashed entries in order, then an empty list |
| `WebSession.UserRecord` | scheduler/web/utils/session.py:7-12 | the stored record has exactly the keys id, login, first_name and last_name |
| `WebSession.UserRecordRoundTrip` | scheduler/web/utils/session.py:7-12 | each stored field equals the user's own; the password is not stored |
| `WebSession.WithUser` | scheduler/web/utils/session.py:7 | afterwards "user" holds the user's record and every other key (for example "_messages") is unchanged |
| `WebSession.WithUserOverwrites` | scheduler/web/utils/session.py:7 | a later login replaces the earlier "user" value without merging |
| `WebSession.AddUserToSession` | scheduler/web/utils/session.py:6-12 | the request's session becomes WithUser(old session, user) |
| `Auth.AuthRequired` | scheduler/web/dependencies/auth.py:6-8 | raises Unauthorized (status 401) exactly when "user" is not a session key |
| `Auth.AuthDependsOnlyOnUserKey` | scheduler/web/dependencies/auth.py:7 | the outcome depends only on whether "user" is present, not on its value |
| `Auth.AuthAfterLogin` | scheduler/web/dependencies/auth.py:7-8 | after add_user_to_session the dependency never raises |
| `Auth.AuthIgnoresFlash` | scheduler/web/dependencies/auth.py:7 | flashing any series of messages, or draining them, does not change the outcome |
| `Auth.LoginKeepsMessages` | scheduler/web/utils/session.py:7 | logging in leaves the queued flash messages as they were |

## Findings

| source | as written | input that shows it | evidently intended | confidence | as-written member | corrected member |
|---|---|---|---|---|---|---|
| scheduler/modules/scheduler/job_registry.py:6-8 | the registry maps "notify_students" to the bare callable, but add_job (services.py:61) reads `job_item["func"]` | `add_job("notify_students", trigger)`: a function object cannot be subscripted, so a TypeError is raised and no job is added | registry entries are `{"func": handler}` records, as add_job reads them | high; not executed | `Services.AddJobAsWrittenRaises` | `JobRegistry.RegistryResolves` |
| scheduler/modules/scheduler/services.py:71-83 | start sets `_running` and only then attaches the job store under the library's default alias. That alias stays registered after shutdown | `start()`, `stop()`, `start()`: the second attach is refused with a ValueError. `_running` stays True while the library is stopped, so every later start and stop raises | the store is attached once, and the flag always matches the library's state | medium (relies on the library refusing a store alias that is already registered); not executed | `Services.RestartFailsAsWritten`, `Services.StuckStaysStuckAsWritten` | `Services.RunSucceedsIffAlternating` |

`SchedulerManager` uses the corrected registry and the corrected start. `StartStepAsWritten` keeps the start as written.

## Left out

- Next-fire computation, the two-hour misfire grace handling, `max_instances` enforcement and the asynchronous firing loop all belong to the scheduling library. They involve concurrency and clock reads. Only the grace constant is kept.
- The database handle passed to the manager's constructor, the job store's engine, and the library's `start`/`shutdown` internals: modelled only as the stored/started flags.
- Jobs added before the first start: the library holds them as pending and checks their ids only at start. The model uses one table and checks ids at add time.
- `Services.SchedulerManager.GetJobs`: returns a set. The list order the library gives (by next run time) is not modelled.
- `Services.Added`: the id the library generates when none or an empty one is given (a random uuid) is a parameter. `replace_existing=None` is treated as False, as Python's truthiness does. The library also checks the keyword arguments against the handler's signature when it builds the job and raises ValueError when they do not fit; handlers are opaque here, so every `kwargs` is accepted and the success condition of `Services.Added` is stated without that refusal.
- `Schemas.AnyPeriodAccepted`, `Schemas.ConversionRoundTrip`: integers are unbounded here. In the library's interval trigger a large period overflows: either the time span itself (beyond ±999,999,999 days) or, with no start date, the current time plus the interval (past the year 9999, about 2.9 million days ahead). Such payloads validate but fail at conversion; neither limit is modelled.
- `Services.SchedulerManager`: one job table serves every state. While the library is stopped, its get_job/get_jobs/remove_job see only the pending jobs, and at start the SQLAlchemy store brings in jobs persisted by earlier processes; neither is modelled.
- `Schemas.ParseTrigger`: reports only the first failing field, while the validation library reports every failing field. `Schemas.ParseJobIn` is the same.
- Coercion of strings into integers and datetimes, time zones and datetime parsing: instants are plain integers and fields arrive typed.
- What the library trigger derives from its arguments (the interval as a single time span, its handling of a zero interval) is not modelled. The model stops at the constructor arguments.
- Persistence (`scheduler/db.py`, `scheduler/models.py`, both repositories) is database I/O and is not modelled. Note that the job repository's `create_job` drops its `params` argument.
- HTTP routing, templates, app wiring, configuration and the `Unauthorized` exception handler (a redirect plus one flash call). The job API handlers are empty.
- Password hashing, JWT and the e-mail job: foreign libraries and network I/O.
- The cookie signing and serialisation of the session.
- The handler `notify_students`: scheduler/modules/scheduler/jobs/__init__.py is not part of this model. The handler is an opaque constant.
- `scheduler/web/schemas.py` imports a `JobName` that the registry does not define, so it is not modelled.
