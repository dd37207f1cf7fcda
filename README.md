# Sequential core of the arkgo drivers, in Dafny

This project models the parts of the arkgo driver collection that are state and
string logic rather than I/O:

- **In-process bus** (`InProcessBus`, `InProcessConnect`). There is one engine
  for the whole process. It keeps an ordered handler list per event channel, a
  medium (an unbuffered channel) per queue channel, and the workers bound to
  them. The connection wrapper captures the handlers, clamps the thread count,
  and either forwards a call at once or schedules it on a timer.
- **Redis bus** (`RedisBus`), modelled as a state machine:
  - The commands sent through the pool are a log of effects (PUBLISH, LPUSH,
    pool closed).
  - Server replies and received messages are inputs.
  - The per-message decisions of the subscription loop and of the queue polling
    loops are pure step functions.
- **In-memory TTL stores** (`MemoryCache`, `MemorySession`, `MemoryMutex`).
  Each is a map keyed by `prefix + key`. An entry holds a value and its expiry
  second, and is checked against a clock `now` in Unix seconds.
- **PostgreSQL data driver** (`PostgresDriver`, `PostgresData`). This covers:
  - the URL scheme rewrite over the ten scheme aliases, and the schema default;
  - the manual/automatic transaction state machine with queued triggers;
  - the table configuration lookup and table defaults;
  - the value packing into array literals, and the row unpacking;
  - the `?` → `$n` placeholder numbering.

Where the source is wrong (see "## Findings"), the member modelled as written
is what the store or loop uses (`DefaultSessionConnect.Connect`,
`EventingAsWritten`, `QueueingAsWritten`), and a corrected member stands beside
it (`ConnectCorrected`, `Eventing`, `Queueing`).

`common.dfy` (module `Common`) holds the shared vocabulary:

- Go's `strings.Index`, `Replace` (n = 1 and n = -1), `Join`, `Split` and
  `HasPrefix`, as functions;
- decimal rendering and int64 wrap-around;
- the clock rule:
  - a `time.Duration` is an integer number of nanoseconds;
  - writing at second `now` with lifetime `d` stores `now + d / 1e9` (the Unix
    second of `now.Add(d)`);
  - an entry is live while that second is later than `now`.

Calls into code that is not modelled become parameters:

| Call | Parameter |
|---|---|
| `util.ParseDuration` | a `Parsed(duration, failed)` pair |
| `ark.Unique` | the two closer tokens |
| Redis replies, `db.Begin`, `tx.Commit`, `tx.Rollback` | `Outcome` / `Result` values |
| `ark.Table` | a registry map |
| `json.Marshal` | a function to `Option<string>` |
| Go's `[]byte` → `string` conversion | a function |
| `ark.Parse` | its result |
| `DELIMS` and `RANDBY` from `github.com/arkgo/base` | strings |

Other calls are recorded as logs:

| Call | Log |
|---|---|
| `ark.Trigger` | `fired` |
| Goroutines started | `invocations`, `deliveries`, `workers`, `loops` |
| Timers | `pending` |

Where a Go `sync.Map` is iterated (`Range`) or a Go map is iterated, the order
is an unspecified enumeration of the keys (`exists order :: Enumerates(order, keys)`).

## Model

| member | source | states |
|---|---|---|
| Common.StripPrefixRoundTrip | bus/redis/bus.go:296 | removing the connection prefix once from `prefix + name` gives back exactly `name` |
| Common.ReplaceEmptyByEmpty | cache/default/cache.go:140-143 | with an empty connection prefix, replacing it by "" leaves the key unchanged |
| Common.ReplaceAllRemovesChar | data/postgres/base.go:207 | after replacing every `.` by a text without `.`, no `.` is left |
| Common.IntToStringRoundTrip | data/postgres/base.go:393-401 | the decimal text of an integer parses back to it, is non-empty and holds no `,` or `?` |
| Common.WrapInt64 | cache/default/cache.go:125 | the result is an int64, equals the input when that is in range, and differs from it by a multiple of 2^64 |
| Common.ExpiryAt | cache/default/cache.go:85-91 | the stored expiry second is later than `now` for a lifetime of at least a second, equal to `now` below a second, earlier for a negative lifetime |
| Common.ConfiguredDuration | cache/default/cache.go:36-44 | a configured duration that parses replaces the default; an empty or unparsable one keeps it |
| Common.FreshEntryLive | cache/default/cache.go:69-74 | an entry just written is live in the same second exactly when its lifetime is at least one second |
| Common.WriteKeepsOthers | cache/default/cache.go:94-95 | writing one key changes neither the presence nor the liveness of any other key |
| InProcessBus.FanoutExactlyOnce | bus/default/msg.go:79-83 | the publish fan-out has one invocation per handler, each with the published channel and data, and every handler occurs as often as it is registered |
| InProcessBus.DefaultBus.constructor | bus/default/msg.go:27-29 | the engine starts with empty event and queue maps, no workers, no goroutines and the stopper running |
| InProcessBus.DefaultBus.Event | bus/default/msg.go:32-44 | the handler is appended at the end of the channel's list, a new channel gets a one-element list, other channels are unchanged, nil is returned |
| InProcessBus.DefaultBus.Queue | bus/default/msg.go:47-72 | a medium is made only for a channel without one and reused otherwise; exactly `thread` workers bound to that medium and handler are added; nil is returned |
| InProcessBus.DefaultBus.Publish | bus/default/msg.go:75-86 | one invocation of (channel, data) per registered handler in list order, none for an unknown channel; nil is returned |
| InProcessBus.DefaultBus.Enqueue | bus/default/msg.go:89-101 | a registered channel's medium receives the data exactly once; an unregistered channel changes nothing; nil is returned |
| InProcessBus.DefaultBus.Stop | bus/default/msg.go:64-65 | the shared stopper is stopped, which every worker observes |
| InProcessConnect.ClampThreads | bus/default/bus.go:64-66 | a thread count of at most 0 becomes 1, and a positive one is kept |
| InProcessConnect.DefaultBusConnect.Connect | bus/default/bus.go:28-32 | a fresh connection on the engine: not running, no workload, nil handlers, no timers |
| InProcessConnect.DefaultBusConnect.Open | bus/default/bus.go:35-37 | opening always succeeds |
| InProcessConnect.DefaultBusConnect.Health | bus/default/bus.go:38-42 | the workload reported is `actives`, and nothing changes |
| InProcessConnect.DefaultBusConnect.Close | bus/default/bus.go:45-48 | the engine's stopper is stopped and nil is returned |
| InProcessConnect.DefaultBusConnect.Accept | bus/default/bus.go:50-58 | both handlers are replaced by the given ones |
| InProcessConnect.DefaultBusConnect.Event | bus/default/bus.go:60-62 | the handler of the latest `Accept` is appended to the channel's list in the engine |
| InProcessConnect.DefaultBusConnect.Queue | bus/default/bus.go:63-68 | the engine queue is registered with the latest queue handler and the clamped thread count |
| InProcessConnect.DefaultBusConnect.Start | bus/default/bus.go:71-77 | `running` becomes true and nil is returned |
| InProcessConnect.DefaultBusConnect.Publish | bus/default/bus.go:79-88 | without a delay the engine's fan-out happens at once; with one, exactly one timer for a later publish is scheduled and nothing is invoked now; nil either way |
| InProcessConnect.DefaultBusConnect.Enqueue | bus/default/bus.go:89-98 | without a delay the engine's delivery happens at once; with one, exactly one timer for a later enqueue is scheduled and nothing is delivered now; nil either way |
| InProcessConnect.DefaultBusConnect.Fire | bus/default/bus.go:81-83 | an expiring timer leaves the pending list (it runs once) and performs exactly the engine publish or enqueue it was scheduled for |
| RedisBus.ResolveSetting | bus/redis/bus.go:60-90 | defaults 127.0.0.1:6379, empty password and database, idle 30, active 100, timeout 240; each is overridden only by a non-empty string (server, password), any string (database), a positive int64 (idle, active, timeout in seconds), or a timeout string that parses |
| RedisBus.CloserPushes | bus/redis/bus.go:160-162 | one LPUSH of empty data per queue on `prefix + queue + queueCloser`, in visiting order |
| RedisBus.Prefixed | bus/redis/bus.go:283-285 | every name carries the connection prefix, in order |
| RedisBus.QueueLoopsCount | bus/redis/bus.go:265-272 | the queue loops started hold exactly `thread` loops for each visited queue, none for any other queue, and no event loop |
| RedisBus.StartLoopCounts | bus/redis/bus.go:263-272 | `Start` launches one subscription loop and, for every registered queue, exactly its thread count of polling loops |
| RedisBus.RedisBusConnect.Connect | bus/redis/bus.go:57-101 | the settings are the resolved ones, the registries are empty, there is no pool, nothing has been sent and no loop runs |
| RedisBus.RedisBusConnect.Open | bus/redis/bus.go:104-146 | the pool exists afterwards and the probe connection's error is returned |
| RedisBus.RedisBusConnect.Health | bus/redis/bus.go:147-151 | the workload reported is `actives` |
| RedisBus.RedisBusConnect.Accept | bus/redis/bus.go:170-178 | both handlers are replaced |
| RedisBus.RedisBusConnect.Event | bus/redis/bus.go:181-186 | the channel's handler becomes the current event handler, replacing an earlier one |
| RedisBus.RedisBusConnect.Queue | bus/redis/bus.go:190-199 | the channel's entry becomes the current queue handler with the thread count clamped to at least 1, replacing an earlier one |
| RedisBus.RedisBusConnect.Publish | bus/redis/bus.go:219-237 | without a pool `Fail` and nothing sent; otherwise exactly one PUBLISH on `prefix + name` with the data, and the server's reply returned; delays are ignored |
| RedisBus.RedisBusConnect.Enqueue | bus/redis/bus.go:238-255 | without a pool `Fail` and nothing sent; otherwise exactly one LPUSH on `prefix + name` with the data, and the server's reply returned; delays are ignored |
| RedisBus.RedisBusConnect.Start | bus/redis/bus.go:258-275 | the loops started are one subscription loop followed by each queue's polling loops in some key order; `running` becomes true |
| RedisBus.RedisBusConnect.SpawnQueueLoops | bus/redis/bus.go:267-271 | one polling loop per thread of the queue is started |
| RedisBus.RedisBusConnect.Close | bus/redis/bus.go:154-167 | with a pool: one publish on the event closer, one closer push per queue, then the pool is closed; without one nothing is sent; nil either way |
| RedisBus.RedisBusConnect.SubscriptionNames | bus/redis/bus.go:280-285 | the prefixed event closer followed by every prefixed event channel once, so 1 + the number of event channels |
| RedisBus.RedisBusConnect.PopKeys | bus/redis/bus.go:320-329 | the closer key is the data key plus `queueCloser`, listed first; stripping the prefix from them gives `name + queueCloser` and `name` |
| RedisBus.RedisBusConnect.EventStepAsWritten | bus/redis/bus.go:293-307 | as written the loop never exits; it dispatches only messages on registered channels other than the closer |
| RedisBus.RedisBusConnect.EventStep | bus/redis/bus.go:293-307 | the corrected step exits exactly on the closer channel; every other item, a receive error included, is decided as written |
| RedisBus.RedisBusConnect.EventStepDispatches | bus/redis/bus.go:296-302 | a message on a registered prefixed channel goes to that channel's handler with the de-prefixed channel and the data |
| RedisBus.RedisBusConnect.EventStepIgnoresUnregistered | bus/redis/bus.go:300-302 | a message on an unregistered channel is ignored |
| RedisBus.RedisBusConnect.EventCloserIgnoredAsWritten | bus/redis/bus.go:297-298 | the closer message that `Close` publishes is ignored as written, and ends the loop with the corrected step |
| RedisBus.RedisBusConnect.Eventing | bus/redis/bus.go:293-308 | the corrected loop: the invocations are those of the corrected step up to the first exit, and the loop has exited exactly when some received item is an exit |
| RedisBus.RedisBusConnect.DispatchesAsWrittenAppend | bus/redis/bus.go:293-308 | the as-written loop decides consecutive stretches of messages independently |
| RedisBus.RedisBusConnect.DispatchedAsWritten | bus/redis/bus.go:293-308 | as written a message on a registered channel is dispatched wherever it is received, before or after the closer |
| RedisBus.RedisBusConnect.CloserKeepsDispatchingAsWritten | bus/redis/bus.go:293-308 | a registered message after the closer is dispatched as written and not by the corrected loop |
| RedisBus.RedisBusConnect.EventingAsWritten | bus/redis/bus.go:293-308 | the loop as written never exits and dispatches what every received item decides |
| RedisBus.RedisBusConnect.QueueStepAsWritten | bus/redis/bus.go:335-345 | as written a popped value is handled only with a registered de-prefixed key, and the data is passed through |
| RedisBus.RedisBusConnect.QueueStep | bus/redis/bus.go:335-345 | the corrected loop stops exactly when the de-prefixed key is `name + queueCloser`; a handled value carries a registered channel and the popped data; away from both closer keys it decides as written |
| RedisBus.RedisBusConnect.QueueCloserMissedAsWritten | bus/redis/bus.go:337-340 | the closer push for a queue with a non-empty name never stops the loop as written, but does with the corrected step |
| RedisBus.RedisBusConnect.QueueStepHandles | bus/redis/bus.go:342-344 | a value popped from a registered queue's data key reaches that queue's handler |
| RedisBus.RedisBusConnect.QueueStepAsWrittenHandles | bus/redis/bus.go:342-344 | as written a value popped from a registered queue's data key reaches that queue's handler too |
| RedisBus.RedisBusConnect.AsWrittenNeverStops | bus/redis/bus.go:320-347 | as written no reply from a named queue's two keys stops its polling loop |
| RedisBus.RedisBusConnect.Queueing | bus/redis/bus.go:334-347 | the corrected loop consumes replies up to the first stop, and handles exactly the invocations of the replies it consumed |
| RedisBus.RedisBusConnect.QueueingAsWritten | bus/redis/bus.go:334-347 | the loop as written stops only on the bare closer key and consumes every reply from a named queue's keys |
| MemoryCache.ResolveExpiry | cache/default/cache.go:36-44 | one minute unless a configured expiry parses |
| MemoryCache.Selected | cache/default/cache.go:145-154 | a key is listed exactly when it is stored and, if prefixes are given, starts with one of them; at most one entry per visited key |
| MemoryCache.SelectedDistinct | cache/default/cache.go:138-156 | every key is listed at most once |
| MemoryCache.SelectedAll | cache/default/cache.go:145-146 | without prefixes every key is listed, in visiting order |
| MemoryCache.SerialNext | cache/default/cache.go:116-125 | the live stored int64 (or 0 if there is none) plus `step`, wrapped to int64 |
| MemoryCache.SerialContinues | cache/default/cache.go:116-133 | a second `Serial` in the same second continues from the first one's result |
| MemoryCache.DefaultCacheConnect.Connect | cache/default/cache.go:34-50 | an empty cache with the resolved expiry |
| MemoryCache.DefaultCacheConnect.Read | cache/default/cache.go:68-81 | a live entry's value with nothing changed; a missing or expired key gives the read error, and an expired entry is removed |
| MemoryCache.DefaultCacheConnect.Write | cache/default/cache.go:84-98 | the value is stored under `prefix + key`, expiring at `now` plus the explicit or else the default lifetime; nothing else changes |
| MemoryCache.DefaultCacheConnect.Exists | cache/default/cache.go:101-107 | true for any stored entry, expired or not; false with the read error otherwise |
| MemoryCache.DefaultCacheConnect.Delete | cache/default/cache.go:110-114 | only `prefix + key` is removed |
| MemoryCache.DefaultCacheConnect.Serial | cache/default/cache.go:116-134 | the next counter value is returned and stored with the default expiry |
| MemoryCache.DefaultCacheConnect.Visit | cache/default/cache.go:138-155 | one visited key is appended exactly when it matches the prefixes (always, when none are given) |
| MemoryCache.DefaultCacheConnect.Keys | cache/default/cache.go:136-158 | the stored keys (prefix included) that match, each once, in some key order |
| MemoryCache.DefaultCacheConnect.DeleteKeys | cache/default/cache.go:161-163 | exactly the listed keys are removed |
| MemoryCache.DefaultCacheConnect.Clear | cache/default/cache.go:159-168 | exactly the keys that `Keys` lists are deleted |
| MemoryCache.ClearedListsNothing | cache/default/cache.go:159-168 | after `Clear(prefixes)`, `Keys(prefixes)` lists nothing |
| MemoryCache.WriteThenRead | cache/default/cache.go:68-98 | a written value reads back in the same second exactly when its lifetime is at least a second; other keys are not disturbed |
| MemorySession.SessionExpiryAsWritten | session/default/session.go:29-35 | as written the parsed duration is taken only when parsing failed; otherwise seven days |
| MemorySession.SessionExpiry | session/default/session.go:29-35 | the corrected rule: a configured expiry that parses replaces the seven days |
| MemorySession.ExpiryCheckInverted | session/default/session.go:30-34 | a configured "1h" that parses is ignored as written and honoured by the corrected rule |
| MemorySession.UnparsableExpiryLosesSessions | session/default/session.go:29-35 | as written, an unparsable expiry (zero duration) makes a session written with the default lifetime unreadable at once |
| MemorySession.DefaultSessionConnect.Connect | session/default/session.go:28-41 | an empty store whose default lifetime follows the rule as written |
| MemorySession.DefaultSessionConnect.ConnectCorrected | session/default/session.go:28-41 | the same store with the corrected default lifetime |
| MemorySession.DefaultSessionConnect.Read | session/default/session.go:59-72 | a live session map with nothing changed; a missing or expired id gives the read error, and an expired entry is deleted |
| MemorySession.DefaultSessionConnect.Write | session/default/session.go:75-89 | the map is stored under `prefix + id`, expiring at `now` plus the explicit or else the default lifetime |
| MemorySession.DefaultSessionConnect.Delete | session/default/session.go:92-96 | only `prefix + id` is removed |
| MemorySession.DefaultSessionConnect.Clear | session/default/session.go:99-105 | the store is left empty |
| MemorySession.SessionWriteThenRead | session/default/session.go:59-89 | a written session reads back unchanged in the same second when its lifetime is at least a second; other ids are not disturbed |
| MemoryMutex.ResolveExpiry | mutex/default/mutex.go:32-40 | three seconds unless a configured expiry parses |
| MemoryMutex.LockStep | mutex/default/mutex.go:62-85 | the lock fails with nothing changed exactly while it is held; otherwise it is taken until `now` plus the lifetime; other keys are unchanged |
| MemoryMutex.RelockSameSecondFails | mutex/default/mutex.go:67-82 | after a successful lock of at least a second, a second attempt in the same second fails |
| MemoryMutex.ShortLockExcludesNobody | mutex/default/mutex.go:67-82 | a lock shorter than a second does not exclude a second attempt in the same second |
| MemoryMutex.UnlockThenLock | mutex/default/mutex.go:86-90 | after an unlock the next lock succeeds |
| MemoryMutex.KeysIndependent | mutex/default/mutex.go:62-90 | locking or unlocking one key never changes whether another is held |
| MemoryMutex.DefaultMutexConnect.Connect | mutex/default/mutex.go:30-45 | an empty lock table with the resolved lifetime |
| MemoryMutex.DefaultMutexConnect.Lock | mutex/default/mutex.go:62-85 | the result and the new lock table are those of `LockStep` on `prefix + key` with the explicit or else the default lifetime |
| MemoryMutex.DefaultMutexConnect.Unlock | mutex/default/mutex.go:86-90 | only `prefix + key` is released; releasing a missing lock changes nothing; nil is returned |
| PostgresDriver.SchemesPrefixFree | data/postgres/index.go:9-20 | no scheme alias is a prefix of another, and `postgres://` is among them |
| PostgresDriver.RewriteMatching | data/postgres/driver.go:19-23 | a URL that starts with any listed scheme comes out as `postgres://` followed by the rest of the URL |
| PostgresDriver.RewriteUnmatched | data/postgres/driver.go:19-23 | a URL with no listed scheme is unchanged |
| PostgresDriver.RewriteIdempotent | data/postgres/driver.go:19-23 | rewriting twice gives the same URL as rewriting once |
| PostgresDriver.ResolveSchema | data/postgres/driver.go:18-27 | "public" unless the `schema` setting is a non-empty string, which is then used |
| PostgresDriver.RewriteUrl | data/postgres/driver.go:19-23 | the loop's result is the rewrite over all the aliases in order |
| PostgresDriver.PostgresConnect.Connect | data/postgres/driver.go:15-43 | never fails; the URL is rewritten, the schema resolved, no database handle and no active bases |
| PostgresData.ConfigKeys | data/postgres/base.go:58-63 | three keys, the bare table name last |
| PostgresData.FirstHit | data/postgres/base.go:65-71 | none exactly when the registry knows none of the keys |
| PostgresData.FirstHitIndex | data/postgres/base.go:65-71 | a hit is the configuration of a known key with no earlier key known |
| PostgresData.TableConfigOrder | data/postgres/base.go:58-72 | the lookup tries `<base>.<name>`, then `*.<name>`, then `<name>` |
| PostgresData.TableOf | data/postgres/base.go:186-208 | schema, table and key are overridden only by string settings (key default "id"); the table name has no `.` left; the fields are the configured ones over `$count` |
| PostgresData.DotlessTableName | data/postgres/base.go:207 | a table name without dots is kept |
| PostgresData.BoolWords | data/postgres/base.go:380-392 | each bool becomes TRUE or FALSE, one item per bool |
| PostgresData.Decimals | data/postgres/base.go:393-437 | each integer becomes its decimal text, one item per integer |
| PostgresData.PackValue | data/postgres/base.go:370-486 | slices become text, a map or list of maps whose marshalling fails becomes `{}` or `[]`, and any other value is kept |
| PostgresData.ArrayLiteralRoundTrip | data/postgres/base.go:376-379 | an array literal reads back as its items when no item has a comma (the single empty item excepted) |
| PostgresData.StrArrayRoundTrip | data/postgres/base.go:376-379 | a packed string slice without commas reads back as the same strings |
| PostgresData.BoolArrayRoundTrip | data/postgres/base.go:380-392 | a packed bool slice reads back as the same bools |
| PostgresData.IntArrayRoundTrip | data/postgres/base.go:393-401 | a packed integer slice reads back as the same integers |
| PostgresData.RenderBools | data/postgres/base.go:382-389 | the loop builds the TRUE/FALSE items |
| PostgresData.RenderInts | data/postgres/base.go:395-398 | the loop builds the decimal items |
| PostgresData.Packing | data/postgres/base.go:370-486 | the same keys, each value rewritten by the packing rule |
| PostgresData.UnpackValue | data/postgres/base.go:493-505 | bytes become text, anything else is kept |
| PostgresData.Unpacked | data/postgres/base.go:490-512 | the row map has exactly the column names as keys |
| PostgresData.UnpackedLookup | data/postgres/base.go:492-507 | with distinct column names each name maps to its own column's unpacked value |
| PostgresData.Unpacking | data/postgres/base.go:490-512 | the loop builds the row map, a later duplicate name overwriting an earlier one |
| PostgresData.NumberedZero | data/postgres/base.go:527-530 | with no arguments the SQL is unchanged |
| PostgresData.NumberingClears | data/postgres/base.go:527-530 | with at least as many arguments as `?` marks, no `?` remains |
| PostgresData.NumberedClears | data/postgres/base.go:527-530 | the same for the split of a whole SQL text |
| PostgresData.NumberMarks | data/postgres/base.go:527-530 | the first `n` marks become `$i`, `$i+1`, ... in order, and later marks are kept |
| PostgresData.NumberLoopNumbers | data/postgres/base.go:527-530 | replacing the first `?` with the next `$n`, once per argument, numbers exactly the marks between the split pieces, in order, and keeps the rest |
| PostgresData.NumberLoopIsNumbered | data/postgres/base.go:527-530 | the replace loop run on a whole SQL text gives the numbered text |
| PostgresData.Parsing | data/postgres/base.go:515-533 | a parse error is passed on; otherwise the quoting marks become `"`, the random marker becomes `RANDOM()` and one `?` per argument is numbered from `i` |
| PostgresData.MergeFields | data/postgres/base.go:200-205 | the configured fields laid over the `$count` field |
| PostgresData.PostgresBase.constructor | data/postgres/base.go:22-37 | a base in automatic mode with no transaction, no queued triggers and no last error |
| PostgresData.PostgresBase.Trigger | data/postgres/base.go:42-55 | in manual mode `(name, first value or empty map)` is queued and nothing fires; in automatic mode it fires at once with all values |
| PostgresData.PostgresBase.TableConfig | data/postgres/base.go:58-72 | the loop returns the first hit of the three keys |
| PostgresData.PostgresBase.Table | data/postgres/base.go:183-214 | the table object built from the first configuration found, or `TableNotFound` where the source panics |
| PostgresData.PostgresBase.BeginTx | data/postgres/base.go:305-318 | in manual mode the open transaction is reused, or one is begun at most once and kept (or the error returned); in automatic mode the database is used and `tx` is untouched |
| PostgresData.PostgresBase.Begin | data/postgres/base.go:293-302 | the last error is cleared and manual mode entered unless beginning failed; from automatic mode no transaction is returned |
| PostgresData.PostgresBase.EndTx | data/postgres/base.go:321-326 | no transaction, automatic mode, no queued triggers |
| PostgresData.PostgresBase.Submit | data/postgres/base.go:329-348 | the transaction always ends; no transaction gives the invalid-transaction error; a failed commit fires nothing; a successful one fires the queued triggers in order |
| PostgresData.PostgresBase.Cancel | data/postgres/base.go:351-365 | without a transaction, or when the rollback fails, an error and nothing changes; a successful rollback ends the transaction |
| PostgresData.PostgresBase.ErrorHandler | data/postgres/base.go:104-115 | a nil error changes nothing; an error cancels the transaction and becomes the last error |
| PostgresData.PostgresBase.Close | data/postgres/base.go:118-136 | one fewer active base on the connection, an open transaction is rolled back, nil is returned |
| PostgresData.PostgresBase.Erred | data/postgres/base.go:137-141 | the last error is returned and cleared |

## Left out

- Goroutines, `util.Stopper`, blocking on unbuffered channels and `time.AfterFunc`. They are concurrency. Started goroutines and timers are logged, and a timer firing is the explicit step `Fire`.
- The Redis pool, Dial/AUTH/SELECT/PING and the PUBLISH/LPUSH/BRPOP/SUBSCRIBE round trips. They are network I/O. Commands are logged effects, and replies and received messages are inputs.
- Unsubscribing after the subscription loop. It is network I/O, and as written it is never reached.
- `ark.Warning` logging on errors. It is output only.
- The sub-second part of the clock. `now` is a whole Unix second; only the lifetime keeps nanoseconds.
- Float slices and `%v` formatting in `packing`. Floats are not modelled. `[]int8` to `[]int64` render their items in decimal like `[]int`, as `IntList`.
- The JSON text of maps and lists of maps. `json.Marshal` is a parameter.
- `time.Time.Local` in `unpacking`. Time zones are not modelled. The conversion of `[]byte` to `string` is a parameter.
- `ark.Parse`, which builds the SQL condition. It is foreign code; its result is an input of `Parsing`.
- `DELIMS` and `RANDBY` come from `github.com/arkgo/base`, which is not part of this model. They are parameters of `Parsing`.
- Running statements (`Serial`, `View`, `Model`, `viewConfig`, `modelConfig` of the Postgres base, and the table and view objects). They are SQL executed by the database.
- data/postgres/connect.go is not part of this model. The connection object holds only the fields the driver and the base touch: URL, schema, handle flag and active count.
- Open, Health and Close of the TTL stores, which only return nil or a zero workload.
- The other drivers (Redis and buntdb caches and sessions, file and IPFS stores, loggers) and every `index.go` registration.
- PostgresData.PostgresBase.Table: returns `TableNotFound` where the source panics on a table with no configuration, because a panic is not modelled.
- PostgresData.Unpacking: requires at least as many values as column names; the source indexes the values by the names' positions and would panic otherwise.
- RedisBus.RedisBusConnect.Publish: the message is sent as raw bytes; the `string(data)` conversion is the identity here.

## Findings

| source | as written | input that shows it | evidently intended | confidence | as-written member | corrected member |
|---|---|---|---|---|---|---|
| session/default/session.go:31-34 | the parsed expiry is used only when `util.ParseDuration` fails (`err != nil`) | `Expiry: "1h"`, which parses, leaves the seven-day default; an unparsable value yields a zero lifetime, so every default session is unreadable at once | use the parsed value when parsing succeeds, as the cache and mutex drivers do | not executed | MemorySession.SessionExpiryAsWritten | MemorySession.SessionExpiry |
| bus/redis/bus.go:297-298 | `break` inside the `switch` leaves only the switch, so the subscription loop never ends | the closer message `Close` publishes on `prefix + eventCloser` is ignored, and later messages are still dispatched | leave the loop on the closer message, as the comment beside the `break` says | not executed | RedisBus.RedisBusConnect.EventCloserIgnoredAsWritten | RedisBus.RedisBusConnect.EventStep |
| bus/redis/bus.go:339 | the de-prefixed key is compared with `queueCloser` | the closer push for queue "q" arrives on key `prefix + "q" + queueCloser`, whose de-prefixed form `"q" + queueCloser` never equals `queueCloser` | compare with `name + queueCloser`, the key the loop pops the closer from | not executed | RedisBus.RedisBusConnect.QueueCloserMissedAsWritten | RedisBus.RedisBusConnect.QueueStep |

Other behaviour that is modelled as written, and is not a finding:

- The Redis default timeout of 240 is a `time.Duration`, so it is 240 nanoseconds.
- With an empty connection prefix, the cache's prefix removal in `Keys` replaces "" by "", which changes nothing. `Keys` therefore returns keys as stored, prefix included, expired ones too.
- A Redis `Close` leaves the pool reference set, so later publishes still try the closed pool.
- The Postgres `Begin` from automatic mode opens no transaction; it returns nil and only switches to manual mode.
