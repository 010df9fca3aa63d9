# Quanta client core in Dafny

A model of the core of the Quanta Swift client library. Quanta is a telemetry SDK that an app uses to send three kinds of records to the Quanta servers:

- user updates (device, OS, bundle id, version, debug flags, language);
- events with optional revenue and arguments;
- screen-view durations.

It keeps a persistent identity for each install and buckets each user into A/B experiments.

The model covers:

- **Identity** (`id.dfy`, module `QuantaId`). The 22-character Quanta id is the URL-safe, unpadded base64 of a UUID's 16 bytes. The model has the base64 codec, the shortening, the parse back to a UUID with its error cases, and UUID text parsing.
- **Separators and text** (`text.dfy`, `order.dfy`, modules `Text` and `Order`). These are:
  - the record separator U+001E and the unit separator U+001F;
  - character removal and replacement, truncation to a prefix;
  - joining and splitting on a separator, decimal rendering, ASCII lower-casing;
  - the sorted order of dictionary keys.
- **Tasks** (`user_update.dfy`, `log_task.dfy`, `http.dfy`, modules `UserUpdates`, `LogTasks` and `Http`). The model covers:
  - the separator-free `safe` form of a field;
  - the U+001E-joined user-data record;
  - the URL path of a user update and of an event;
  - the body and header of a user log;
  - how each task reads the server's response.
- **The upload queue** (`queue.dfy`, module `Queue`). The `QuantaQueue` actor becomes a class holding its pending tasks, its flags and its `UserDefaults` slot. The model covers how tasks are stored and read back. It also covers the single-flight retry loop: a task is removed after a success, after 27 earlier failures, or once it is older than 48 hours.
- **A/B letters** (`ab.dfy`, module `Ab`). Each experiment's variant letter comes from the user's bucket (0–99), computed from the hash of `id.lastName`. The chosen variant is the first whose running weight total passes the bucket. The experiment names are lower-cased.
- **The static facade** (`quanta.dfy`, module `Facade`). `Quanta`'s static state becomes one class:
  - the write-once `id` and the `appId` override;
  - `initialize`, which settles and saves the id and then enqueues the user update and the launch event;
  - `sendUserUpdate`, and `log` with string or dictionary arguments, including the 200-character budget and the U+001F-joined, key-sorted argument string;
  - `setAbJson`.
  The hand-off to the queue is an `outbox` sequence.
- **Screen time** (`screen.dfy`, module `Screen`). This covers `ScreenSession`'s pause/resume clock and argument merging. It also covers `ScreenTimeTracker`'s session map and its persisted records: one per active session, with estimated durations, replaced when a session ends. Screen views at least half a second long are reported.

Time is an integer: milliseconds for screen sessions, seconds for tasks and the queue. Everything the library reads from the device, the bundle, the clock, the network, JSON or MD5 is a parameter (`Env`, `Codec`, `decode`, `digest`, `outcome`, `clock`, `formatDate`, `encode`).

Retry count: the comment at `Sources/Quanta/QuantaQueue.swift:102` ("~4 hours = 27 failures") suggests 27 attempts per task. The head is removed only on the run after its 27th failure, so a task whose runs always fail and which never ages out runs 28 times. `Queue.AlwaysFailingRunsTwentyEightTimes` states this.

## Model

| member | source | states |
|---|---|---|
| Text.RemoveChar | Sources/Quanta/UserUpdateTask.swift:11-16 | the character is gone, every other character's presence is unchanged, and a string without it is returned as is |
| Text.ReplaceChar | Sources/Quanta/Id.swift:18-20 | the length is kept, the replaced character no longer occurs, and other characters' presence is unchanged |
| Text.ReplaceCharInverse | Sources/Quanta/Id.swift:38-40 | replacing a by b and then b by a restores any text without b, so the URL-safe substitution can be undone |
| Text.Take | Sources/Quanta/Quanta.swift:188-199 | `prefix(n)` gives a prefix of the text with length min(n, length) |
| Text.SplitJoinFields | Sources/Quanta/UserUpdateTask.swift:44-51 | splitting a join of separator-free fields on the separator gives back exactly those fields |
| Text.NatToStringValue | Sources/Quanta/UserUpdateTask.swift:49 | the decimal rendering of a number reads back as that number |
| Text.IntToString | Sources/Quanta/UserUpdateTask.swift:49 | a non-negative integer renders as decimal digits that read back as it; a negative one as a minus sign followed by the digits of its magnitude |
| Text.Lowercased | Sources/Quanta/AB.swift:67-72 | lower-casing keeps the length, leaves no upper-case letter, and changes no text that already has none |
| Order.LexLessTotal | Sources/Quanta/Quanta.swift:254 | any two distinct keys compare one way or the other |
| Order.LexLessTransitive | Sources/Quanta/Quanta.swift:254 | the key order is transitive |
| Order.LexLessAsymmetric | Sources/Quanta/Quanta.swift:254 | the key order is asymmetric |
| Order.SortedKeys | Sources/Quanta/Quanta.swift:254 | `keys.sorted()` lists exactly the dictionary's keys, in strictly ascending order |
| Order.SortedUnique | Sources/Quanta/Quanta.swift:254 | only one strictly ascending list holds a given set of keys, so the sorted order is determined |
| Order.SortKeys | Sources/Quanta/Quanta.swift:254 | the insertion loop produces that one sorted list of the keys |
| QuantaId.Base64RoundTrip | Sources/Quanta/Id.swift:12-57 | decoding the standard base64 of any bytes gives those bytes back |
| QuantaId.Base64Length | Sources/Quanta/Id.swift:17 | base64 of n bytes has 4·⌈n/3⌉ characters |
| QuantaId.Base64TwoPads | Sources/Quanta/Id.swift:17-21 | when the length is 1 mod 3, the encoding ends in exactly two '=' and has no other '=' |
| QuantaId.Shorten | Sources/Quanta/Id.swift:12-24 | a Quanta id has 22 characters and contains no '+', '/' or '=' |
| QuantaId.ShortenShape | Sources/Quanta/Id.swift:17-21 | the id is the URL-safe form of the first 22 of the 24 base64 characters of the UUID, and the last two characters are "==" |
| QuantaId.UrlSafeRoundTrip | Sources/Quanta/Id.swift:38-40 | changing '-'/'_' back to '+'/'/' undoes the URL-safe substitution on base64 text |
| QuantaId.Padded | Sources/Quanta/Id.swift:29-35 | the padded text has a length that is a multiple of 4 and starts with the input |
| QuantaId.ShortenRoundTrip | Sources/Quanta/Id.swift:27-57 | `uuid(fromQuantaId:)` of `shorten(uuid:)` of any UUID succeeds with that UUID |
| QuantaId.OneOverIsRejected | Sources/Quanta/Id.swift:29-45 | an id whose length is 1 mod 4 fails as invalid base64 |
| QuantaId.WrongSizeIsRejected | Sources/Quanta/Id.swift:48-50 | the URL-safe base64 of any byte string that is not 16 bytes long decodes, and is then refused with the wrong-size error |
| QuantaId.HexRoundTrip | Sources/Quanta/Quanta.swift:80 | hex digits of any bytes read back as those bytes |
| QuantaId.ParseUuid | Sources/Quanta/Quanta.swift:80 | only 36-character text with dashes at positions 8, 13, 18 and 23 parses as a UUID |
| QuantaId.FormatParseRoundTrip | Sources/Quanta/Quanta.swift:80 | the canonical text of any UUID parses back to it |
| QuantaId.ShortenIsNotUuidText | Sources/Quanta/Quanta.swift:79-87 | a Quanta id never parses as UUID text, so it is stored as given |
| UserUpdates.Safe | Sources/Quanta/UserUpdateTask.swift:11-16 | the result has no record separator, and no unit separator unless that one is kept; other characters' presence is unchanged; clean text comes back as is |
| UserUpdates.SafeIdempotent | Sources/Quanta/UserUpdateTask.swift:11-16 | making a field safe twice is the same as once |
| UserUpdates.UserDataLayout | Sources/Quanta/UserUpdateTask.swift:28-54 | the user-data record is its eight fields joined by U+001E, in source order |
| UserUpdates.UserDataSplit | Sources/Quanta/UserUpdateTask.swift:28-54 | splitting the record on U+001E gives back exactly the eight fields, and the bundle id and version are at most 50 characters |
| UserUpdates.UserUpdateUrlLayout | Sources/Quanta/UserUpdateTask.swift:85-101 | the user-update URL is the endpoint followed by its path segments joined by '/' |
| UserUpdates.UserUpdateUrlSplit | Sources/Quanta/UserUpdateTask.swift:85-101 | when no segment contains '/', the path splits back into exactly its segments |
| UserUpdates.UserUpdateRun | Sources/Quanta/UserUpdateTask.swift:103-115 | the task succeeds exactly when its URL is valid and the server answers with status 200 |
| LogTasks.LogSegments | Sources/Quanta/LogTask.swift:33-50 | the path holds app id, user id, date and event; revenue is present when non-zero or when arguments follow; arguments come last |
| LogTasks.LogUrlLayout | Sources/Quanta/LogTask.swift:33-50 | the event URL is the endpoint followed by those segments joined by '/' |
| LogTasks.LogUrlSplit | Sources/Quanta/LogTask.swift:33-50 | when no segment contains '/', the path splits back into exactly its segments |
| LogTasks.LogRun | Sources/Quanta/LogTask.swift:52-64 | the event task succeeds exactly when its URL is valid and the server answers with status 200 |
| LogTasks.UserLogFields | Sources/Quanta/LogTask.swift:94-103 | the user-log body has six fields, or seven with the A/B letters last |
| LogTasks.UserLogBodyLayout | Sources/Quanta/LogTask.swift:94-103 | the body is those fields joined by U+001E |
| LogTasks.UserLogBodySplit | Sources/Quanta/LogTask.swift:94-103 | splitting the body on U+001E gives the five leading fields, then the embedded user data's fields, then the letters |
| LogTasks.UserLogBodyWithUserData | Sources/Quanta/LogTask.swift:94-103 | with an embedded user-data record, the body splits into 13 fields, or 14 with letters, and positions 5–12 are the user data's eight fields |
| LogTasks.UserLogRequest | Sources/Quanta/LogTask.swift:105-112 | the request goes to the user-log endpoint with the body, and with the stored A/B version as its header when there is one |
| LogTasks.UserLogRun | Sources/Quanta/LogTask.swift:114-127 | success means status 200; any non-empty JSON reply is returned for the A/B configuration, as is any A/B version header |
| LogTasks.AbConfigAppliedOnFailure | Sources/Quanta/LogTask.swift:114-127 | for every status other than 200, a reply that carries JSON fails the run yet still hands the JSON on for the A/B configuration, along with any version header |
| Queue.KindOf | Sources/Quanta/QuantaQueue.swift:74 | every task has one of the three known type names |
| Queue.KindFromName | Sources/Quanta/QuantaQueue.swift:62 | a stored type name resolves to the kind with exactly that name, and to no other |
| Queue.DecodeTask | Sources/Quanta/QuantaQueue.swift:62-66 | a decoded task has the kind it was decoded as |
| Queue.EncodeEntry | Sources/Quanta/QuantaQueue.swift:73-80 | a stored entry has exactly "type" and "data", holding the type name and the encoding, or empty data when encoding fails |
| Queue.EncodeEntries | Sources/Quanta/QuantaQueue.swift:71-85 | one entry per task, in order |
| Queue.DecodeEntry | Sources/Quanta/QuantaQueue.swift:57-67 | an entry is kept only when it has both keys and a known type name, and the task decoded has that type |
| Queue.DecodeEntriesFrom | Sources/Quanta/QuantaQueue.swift:57-67 | every loaded task comes from some stored entry |
| Queue.DecodeEntriesKeeps | Sources/Quanta/QuantaQueue.swift:57-67 | every entry that decodes is among the loaded tasks |
| Queue.DecodeEntriesConcat | Sources/Quanta/QuantaQueue.swift:57-67 | loading two runs of entries gives the tasks of each, in order |
| Queue.DecodeEntriesDropsBad | Sources/Quanta/QuantaQueue.swift:57-67 | an entry that fails to decode is dropped without disturbing its neighbours |
| Queue.UnknownTypeIsDropped | Sources/Quanta/QuantaQueue.swift:62-65 | an entry with an unknown class name is dropped |
| Queue.MissingDataIsDropped | Sources/Quanta/QuantaQueue.swift:58-61 | an entry without "data" is dropped |
| Queue.SaveLoadRoundTrip | Sources/Quanta/QuantaQueue.swift:49-85 | with a codec that round-trips, loading what was saved gives back the same tasks in the same order |
| Queue.Loaded | Sources/Quanta/QuantaQueue.swift:49-69 | a missing or unreadable slot loads nothing; a readable one loads its decodable entries |
| Queue.RunsUntilRemoved | Sources/Quanta/QuantaQueue.swift:92-113 | a task is run at least once and at most 28 times |
| Queue.ScheduleBounds | Sources/Quanta/QuantaQueue.swift:92-113 | every task in a processed queue is run between 1 and 28 times |
| Queue.RunsAfterFailure | Sources/Quanta/QuantaQueue.swift:104-110 | a failed run that is not removed leaves the task at most 27 failures and costs one more run |
| Queue.AlwaysFailingRunsTwentyEightTimes | Sources/Quanta/QuantaQueue.swift:102-110 | a task that always fails and never expires is run exactly 28 times |
| Queue.SuccessRunsOnce | Sources/Quanta/QuantaQueue.swift:104-107 | a task whose first run succeeds is run once |
| Queue.ExpiredRunsOnce | Sources/Quanta/QuantaQueue.swift:104-107 | a task older than 48 hours is run once and then removed, whatever the outcome |
| Queue.FailedRunsRemaining | Sources/Quanta/QuantaQueue.swift:92-113 | after a run of non-final failures, the task's total runs are those failures plus the runs still to come |
| Queue.ProgressStep | Sources/Quanta/QuantaQueue.swift:92-113 | one loop iteration keeps the loop's progress invariant: the removed tasks' run counts follow the schedule |
| Queue.QuantaQueue.constructor | Sources/Quanta/QuantaQueue.swift:20-26 | starts empty, not processing and not loaded, over the given slot |
| Queue.QuantaQueue.SaveTasks | Sources/Quanta/QuantaQueue.swift:71-85 | once loaded, the slot holds the entries of the current tasks; before that it is untouched |
| Queue.QuantaQueue.LoadTasks | Sources/Quanta/QuantaQueue.swift:49-69 | the stored tasks are appended after any already enqueued, and the queue is marked loaded |
| Queue.QuantaQueue.Enqueue | Sources/Quanta/QuantaQueue.swift:37-46 | the task is appended and saved, and a processor is started exactly when none is running |
| Queue.QuantaQueue.Apply | Sources/Quanta/QuantaQueue.swift:29-46 | a call made while the loop is suspended appends exactly its share: an enqueue its task, the initializer's load the stored tasks, a second `processQueue` nothing; on a loaded queue an enqueue leaves the slot holding the encoded tasks and a second `processQueue` keeps it so |
| Queue.QuantaQueue.Interleave | Sources/Quanta/QuantaQueue.swift:37-46 | a run of such calls appends exactly their arrivals, in call order, and the queue is loaded afterwards exactly when it was or one of them was the load; a loaded queue whose slot held its encoded tasks still does afterwards |
| Queue.QuantaQueue.RunHead | Sources/Quanta/QuantaQueue.swift:92-112 | the head is run; it is removed with its run count recorded, or its failure count grows; arrivals are appended; no task is lost or invented; once the head is removed from a loaded queue the slot is rewritten with the remaining tasks, and it stays in step through the calls that follow |
| Queue.ArrivalsConcat | Sources/Quanta/QuantaQueue.swift:37-46 | the arrivals of two runs of calls are those of the first followed by those of the second |
| Queue.QuantaQueue.Step | Sources/Quanta/QuantaQueue.swift:92-113 | one loop iteration keeps the loop invariant: removed and queued tasks are the original ones followed by the arrivals of the calls made so far, and the retry schedule holds; once a task is removed from a queue that was loaded, the slot holds the encoded in-memory tasks |
| Queue.QuantaQueue.ProcessQueue | Sources/Quanta/QuantaQueue.swift:87-116 | a second processor returns at once; otherwise the queue is emptied, and the removed tasks are exactly the initial ones followed by what the interleaved calls enqueued or loaded, in that order, each after the number of runs the retry rule gives; with no interleaved calls exactly the initial tasks are removed; a backoff sleep comes before every retry; when a loaded queue removed anything, the slot is left holding the empty list |
| Queue.QuantaQueue.Start | Sources/Quanta/QuantaQueue.swift:29-34 | loading then processing removes exactly the earlier tasks, then the stored ones, then what the interleaved calls enqueued, in order, and leaves the queue loaded and empty, with the slot holding the empty list whenever anything was removed |
| Ab.VariantLetter | Sources/Quanta/AB.swift:58 | variant k is the capital letter k of the alphabet |
| Ab.Bucket | Sources/Quanta/Hash.swift:12-17 | the bucket is the digest modulo 100, so it lies in 0–99 |
| Ab.BucketKey | Sources/Quanta/AB.swift:52 | the hashed key is the id, a dot, and the experiment's last name component (nothing when the name is empty) |
| Ab.FirstExceeding | Sources/Quanta/AB.swift:54-61 | the index found is the first at or after the start whose running total passes the bucket |
| Ab.VariantIndex | Sources/Quanta/AB.swift:54-61 | the chosen variant is the smallest index whose running total exceeds the bucket; there is none exactly when no total does |
| Ab.LetterOf | Sources/Quanta/AB.swift:52-61 | an experiment contributes its chosen variant's letter, or nothing |
| Ab.Letters | Sources/Quanta/AB.swift:50-62 | at most one capital letter per experiment |
| Ab.AbLetters | Sources/Quanta/AB.swift:45-65 | undecodable JSON gives no letters |
| Ab.LettersPrefix | Sources/Quanta/AB.swift:54-61 | one more experiment appends its letter at the end |
| Ab.LettersConcat | Sources/Quanta/AB.swift:50-62 | the letters of two runs of experiments are the letters of each, in order |
| Ab.ChooseLetter | Sources/Quanta/AB.swift:52-60 | the weight-summing loop yields the letter of the smallest variant whose running total passes the bucket |
| Ab.GetAbLetters | Sources/Quanta/AB.swift:45-65 | `getAbLetters` yields each experiment's letter in order |
| Ab.AbNames | Sources/Quanta/AB.swift:67-72 | one name per experiment, each component lower-cased, with the shape kept |
| Ab.LowerNames | Sources/Quanta/AB.swift:71 | each component is lower-cased and the count is kept |
| Ab.AbNamesLowercase | Sources/Quanta/AB.swift:67-72 | the names hold no upper-case letter, so lower-casing them again changes nothing |
| Facade.StoredId | Sources/Quanta/Quanta.swift:79-87 | UUID text is stored as its 22-character Quanta id, which converts back to that UUID; anything else is stored unchanged |
| Facade.StoredIdIdempotent | Sources/Quanta/Quanta.swift:79-87 | storing a stored id again changes nothing |
| Facade.StoredUuidText | Sources/Quanta/Quanta.swift:80-81 | a UUID's text is stored as the UUID's Quanta id |
| Facade.StoredShortId | Sources/Quanta/Quanta.swift:102-104 | a Quanta id is stored as is |
| Facade.PlistAppId | Sources/Quanta/Quanta.swift:333-351 | without a plist AppId the app id is empty; otherwise it is the AppId, shortened when it is UUID text |
| Facade.DebugFlags | Sources/Quanta/Quanta.swift:50-62 | the flags lie in 0–7; bit 0 is set exactly for debug builds, bit 1 for the simulator, bit 2 for TestFlight |
| Facade.DebugFlagsInjective | Sources/Quanta/Quanta.swift:50-62 | different environments give different flag values |
| Facade.Budget | Sources/Quanta/Quanta.swift:267-270 | event and arguments are prefixes that together fit in 200 characters; the event is cut first, and the arguments get only what is left |
| Facade.BudgetKeepsShortInput | Sources/Quanta/Quanta.swift:267-270 | input that fits is left whole |
| Facade.Strip | Sources/Quanta/Quanta.swift:255 | a key or value has no U+001F |
| Facade.ArgFields | Sources/Quanta/Quanta.swift:254-258 | two fields per key, in key order: the cleaned key and then its cleaned value, with no U+001F in any field |
| Facade.PairsAreJoinedFields | Sources/Quanta/Quanta.swift:254-258 | appending key, US, value, US for each key gives the fields joined by US, followed by one more US |
| Facade.SortedKeysEmpty | Sources/Quanta/Quanta.swift:254-259 | the sorted key list is empty exactly when the dictionary is |
| Facade.ArgStringSplit | Sources/Quanta/Quanta.swift:250-262 | the argument string splits on U+001F into the sorted keys alternating with their values |
| Facade.EncodeArguments | Sources/Quanta/Quanta.swift:252-259 | the loop builds exactly that argument string (empty for no arguments) |
| Facade.Quanta.constructor | Sources/Quanta/Quanta.swift:17-22 | at launch the id is empty, nothing is overridden, the launch event is on, and the saved id is what the defaults hold |
| Facade.Quanta.SetId | Sources/Quanta/Quanta.swift:78-89 | only the first assignment to an empty id sticks, and it is stored in its Quanta-id form |
| Facade.Quanta.AppId | Sources/Quanta/Quanta.swift:25-28 | the override wins over the plist |
| Facade.Quanta.SetAppId | Sources/Quanta/Quanta.swift:320-331 | after setting, the app id is the stored form of the new value, whatever the plist says |
| Facade.Quanta.UserUpdateNow | Sources/Quanta/Quanta.swift:188-214 | the user update carries the current id and app id, the environment's device, OS, language and debug flags, and the first min(50, length) characters of the bundle id and version (overrides first) |
| Facade.Quanta.LogNow | Sources/Quanta/Quanta.swift:267-314 | the event carries the current id and app id and the budgeted event and arguments |
| Facade.Quanta.StartupTasks | Sources/Quanta/Quanta.swift:108-111 | outside previews, the first start sends the user update and then, when enabled, the "launch" event with revenue 0 |
| Facade.Quanta.EnqueueUserUpdate | Sources/Quanta/Quanta.swift:188-215 | one user update is handed to the queue, none in previews |
| Facade.Quanta.EnqueueLog | Sources/Quanta/Quanta.swift:267-315 | one event is handed to the queue, none in previews |
| Facade.Quanta.SettleId | Sources/Quanta/Quanta.swift:101-106 | the id becomes the saved one, else a fresh Quanta id that is then saved; an id already set is kept and is what gets saved |
| Facade.Quanta.Initialize | Sources/Quanta/Quanta.swift:95-112 | the first call settles and saves the id and enqueues the startup tasks; later calls change nothing |
| Facade.Quanta.SendUserUpdate | Sources/Quanta/Quanta.swift:185-216 | initialises if needed, then hands one user update to the queue (none in previews) |
| Facade.Quanta.Log | Sources/Quanta/Quanta.swift:243-248 | initialises if needed, then hands the budgeted event to the queue (none in previews) |
| Facade.Quanta.LogArguments | Sources/Quanta/Quanta.swift:250-262 | same, with the arguments encoded as the sorted, U+001F-joined argument string |
| Facade.Quanta.SetAbJson | Sources/Quanta/AB.swift:34-37 | the stored letters and names are those of the decoded experiments for the current id |
| Screen.Paused | Sources/Quanta/View+track.swift:360-366 | pausing a running session banks the elapsed time and records the pause; pausing a paused one changes nothing |
| Screen.Resumed | Sources/Quanta/View+track.swift:368-374 | resuming restarts the clock and keeps the banked time; resuming a running one changes nothing |
| Screen.DurationAt | Sources/Quanta/View+track.swift:376-384 | a paused session's duration is its banked time; a running one adds the time since it started |
| Screen.PauseFreezesDuration | Sources/Quanta/View+track.swift:360-384 | after a pause the duration stays what it was at the pause |
| Screen.PauseResumeKeepsDuration | Sources/Quanta/View+track.swift:360-384 | pausing and resuming does not change the duration |
| Screen.PauseIdempotent | Sources/Quanta/View+track.swift:360-366 | a second pause changes nothing |
| Screen.ResumeIdempotent | Sources/Quanta/View+track.swift:368-374 | a second resume changes nothing |
| Screen.RunningDurationGrows | Sources/Quanta/View+track.swift:376-384 | a running session's duration grows exactly with the clock |
| Screen.FreshSessionTimed | Sources/Quanta/View+track.swift:331-346 | a new session, paused or not, starts with the timing invariant |
| Screen.ApplyTimed | Sources/Quanta/View+track.swift:360-374 | a pause or resume at a later time keeps the invariant |
| Screen.ReplayTimed | Sources/Quanta/View+track.swift:360-374 | any time-ordered run of pauses and resumes keeps the invariant |
| Screen.TimedDurationBounds | Sources/Quanta/View+track.swift:376-384 | under the invariant, the duration lies between 0 and the time since the start, and never decreases |
| Screen.TimelineDurationBounds | Sources/Quanta/View+track.swift:331-384 | whatever pauses and resumes happen in time order, a session's duration is never negative and never exceeds the time since it began |
| Screen.MergeArguments | Sources/Quanta/View+track.swift:348-358 | new arguments overwrite old ones key by key, keep the other old keys, and start the map when there was none |
| Screen.MergeIdempotent | Sources/Quanta/View+track.swift:348-358 | merging the same arguments twice is the same as once |
| Screen.ScreenSession.constructor | Sources/Quanta/View+track.swift:331-346 | a session starts at the given time with the given banked time, and is paused at once when asked |
| Screen.ScreenSession.Pause | Sources/Quanta/View+track.swift:360-366 | the clock becomes the paused clock |
| Screen.ScreenSession.Resume | Sources/Quanta/View+track.swift:368-374 | the clock becomes the resumed clock |
| Screen.ScreenSession.CalculateDuration | Sources/Quanta/View+track.swift:376-384 | the duration of the current clock |
| Screen.ScreenSession.UpdateArguments | Sources/Quanta/View+track.swift:348-358 | the arguments become the merge of old and new |
| Screen.PersistedDuration | Sources/Quanta/View+track.swift:264-275 | an actual-only save keeps the real duration; otherwise it is raised to at least 5 seconds |
| Screen.PersistedEntry | Sources/Quanta/View+track.swift:264-284 | a saved record holds the screen, its arguments and the persisted duration, and is marked estimated exactly when that duration differs from the real one |
| Screen.WithoutScreen | Sources/Quanta/View+track.swift:232-235 | the kept records are exactly the old ones for other screens |
| Screen.CountWithoutScreen | Sources/Quanta/View+track.swift:232-235 | no record of that screen is left |
| Screen.WithoutScreenConcat | Sources/Quanta/View+track.swift:232-235 | the filter distributes over concatenation, so kept records stay in order |
| Screen.WithoutScreenKeepsOthers | Sources/Quanta/View+track.swift:232-235 | records that do not name the screen are all kept, in their order |
| Screen.WithEstimateSingleRecord | Sources/Quanta/View+track.swift:227-251 | afterwards there is exactly one record for the screen, the new estimate, at the end, preceded by exactly the filtered old records |
| Screen.OnePerSessionFromIds | Sources/Quanta/View+track.swift:254-290 | one record per distinct active screen, covering every screen, is the required persisted set |
| Screen.ScreenTimeTracker.constructor | Sources/Quanta/View+track.swift:63-69 | no active screens, the stored records as given, nothing reported |
| Screen.ScreenTimeTracker.StartScreenView | Sources/Quanta/View+track.swift:172-188 | an active screen only takes the merged arguments, keeping its clock and the stored records; a new screen gets a fresh running session, and its old records are replaced by one estimate; other screens are untouched |
| Screen.ScreenTimeTracker.PersistSessionWithEstimatedDuration | Sources/Quanta/View+track.swift:227-251 | the screen's old records are replaced by one estimated record |
| Screen.ScreenTimeTracker.EndScreenView | Sources/Quanta/View+track.swift:191-209 | an unknown screen changes nothing; a known one is removed, its real duration is reported and the remaining sessions are persisted |
| Screen.ScreenTimeTracker.SendAnalytics | Sources/Quanta/View+track.swift:293-313 | a view is reported exactly when it lasted at least half a second |
| Screen.ScreenTimeTracker.PersistAllSessions | Sources/Quanta/View+track.swift:254-290 | with no sessions and not on disappearance nothing is written; otherwise the stored records are exactly one per active session |
| Screen.ScreenTimeTracker.CurrentRecords | Sources/Quanta/View+track.swift:264-285 | the loop builds one persisted record per active session |

## Left out

- Backoff duration: the `pow(1.5, failures - 1)` half-second delays and the 100 ms pause are not timed. The model records only that a backoff sleep precedes each retry, in `sleeps`.
- Concurrency: the actor's suspension points are modelled as batches of calls (enqueue, load, a second `processQueue`) that run between steps. `Task {}` hand-offs from the facade are modelled as arriving in call order, though the runtime may reorder them.
- `NSClassFromString`: it is a closed lookup over the three task class names. Reflection over other classes is not modelled.
- JSON, `UserDefaults`, `URLSession`, the property list and the `Date` formatter are parameters or plain fields. Their own behaviour is outside the model.
- MD5 in `stringToNumber` is the `digest` parameter, the hash's four-byte prefix as a number.
- `stringFor` and `shortString`: floating-point formatting is not modelled. Revenue reaches the model as already formatted text, and is "0" for the launch event.
- Environment lookups (device model, OS version, language, bundle, debug/simulator/TestFlight/preview flags, a fresh `UUID()`, the clock) are fields of `Env` or plain parameters.
- `initializeAfterDelay`: the `QUANTA_LOAD` environment check and its three-second delay are not modelled.
- The `ScreenTimeTracker` lifecycle is not modelled: notifications, the persistence timer and `periodicPersistence`, `handleAppBackground`/`handleAppForeground`, `pauseScreenView`/`resumeScreenView` and `processRestoredSessions`. The session and tracker operations they call are modelled.
- `Quanta.log(event:at:)`, called by `sendAnalytics`, is not part of this model. A sent screen view is recorded as a `ViewReport`.
- Screen.ScreenTimeTracker.SendAnalytics: records the screen id, duration, arguments and start time. It does not add the "screen" and "seconds" entries to the arguments, because "seconds" needs `shortString`. It also does not compute a start time as now minus the duration when none is given, since the tracker always passes one.
- Diagnostics: `warn` and `print` are not modelled.
- Ab.GetAbLetters: in Swift, a chosen variant index of 26 or more traps on the letter lookup. The model requires that this does not happen (`Ab.InRange`), and so do Ab.ChooseLetter and Facade.Quanta.SetAbJson.
- Text.Lowercased: lower-cases ASCII letters only. Swift's full Unicode case mapping is not modelled.
- Order.SortedKeys: orders keys by character code. Swift's `String` comparison on Unicode grapheme clusters is not modelled.
- QuantaId.UuidFromQuantaId: the base64 decoder accepts non-zero bits in the final group's unused positions, where Foundation may reject them. This affects only ids that no `shorten` produces.
- Bytes and text: UTF-8 conversion of the task type name is identified with its characters.
- Text.Take: counts Unicode scalars, where Swift's `count` and `prefix(n)` count Characters (grapheme clusters). Text whose Characters are built from several scalars, such as "e" followed by a combining accent or a flag emoji, is cut shorter in the model than in Swift. Every length limit below inherits this.
- Facade.Budget: the 200-character budget for event and arguments is measured in Unicode scalars, not Swift Characters (see Text.Take).
- Facade.BudgetKeepsShortInput: input "fits" when it has at most 200 Unicode scalars, not 200 Swift Characters (see Text.Take).
- Facade.Quanta.UserUpdateNow: the 50-character cut of the bundle id and the version counts Unicode scalars, not Swift Characters (see Text.Take).
- UserUpdates.UserDataSplit: the 50-character bound on the bundle id and the version counts Unicode scalars, not Swift Characters (see Text.Take). The same holds for `UserUpdates.UserData.ToString`.
- Ab.ChooseLetter: the running total `limit += variant` is an unbounded integer. In Swift an `Int` overflow there traps; the model instead goes on to pick a variant. Ab.GetAbLetters and Facade.Quanta.SetAbJson inherit this.
- Facade.Quanta.EnqueueUserUpdate: the `Task {}` closure reads `id`, `appId` and the clock when it runs, which may be after later changes. The model reads them when the call is made.
- Facade.Quanta.EnqueueLog: the `Task {}` closure reads `id`, `appId` and the clock when it runs, which may be after later changes. The model reads them when the call is made.
- Time precision: the clock is a whole number of milliseconds for screen sessions and of seconds for tasks, where Swift uses `Double` seconds. Sub-unit differences at the half-second report threshold, the 5-second estimate and the 172800-second age limit are not modelled, and `Int(epoch)` truncation is taken as given.
- Queue.QuantaQueue.Interleave: the initializer's `loadTasks` is the only load, so a `LoadCall` is required to come at most once and only before the queue is loaded (`Queue.LoadsOnce`).
