/**
 * Sources/Quanta/QuantaQueue.swift: the persisted, single-flight delivery
 * queue. The `QuantaTask` protocol becomes a closed sum of the three task
 * kinds; the JSON codec is an abstract `Codec`; the `UserDefaults` slot is the
 * `store` field; the outcome of each `run()` and the clock reading after it are
 * parameters indexed by attempt number; other actor calls that interleave at the
 * loop's suspension points are parameters too.
 */
module Queue {

  import opened Wrappers
  import opened Text
  import opened LogTasks
  import opened UserUpdates

  // ---------------------------------------------------------------------------
  // Tasks and their persisted form

  datatype Task =
    | Log(log: LogTask)
    | UserLog(userLog: UserLogTask)
    | UserUpdate(update: UserUpdateTask)
  {
    /** The task's creation time, in seconds. */
    function Time(): int
    {
      match this
      case Log(t) => t.time
      case UserLog(t) => t.time
      case UserUpdate(t) => t.time
    }
  }

  /** What a stored type name resolves to; anything but the three class names is unknown. */
  datatype Kind = LogKind | UserLogKind | UserUpdateKind | UnknownKind

  function KindOf(t: Task): (k: Kind)
    ensures k != UnknownKind
  {
    match t
    case Log(_) => LogKind
    case UserLog(_) => UserLogKind
    case UserUpdate(_) => UserUpdateKind
  }

  /** The class name `String(describing: type(of: task))` stores in the "type" entry,
      as UTF-8: "LogTask", "UserLogTask", "UserUpdateTask". */
  function TypeName(k: Kind): seq<byte>
    requires k != UnknownKind
  {
    match k
    case LogKind => [0x4C, 0x6F, 0x67, 0x54, 0x61, 0x73, 0x6B]
    case UserLogKind => [0x55, 0x73, 0x65, 0x72, 0x4C, 0x6F, 0x67, 0x54, 0x61, 0x73, 0x6B]
    case UserUpdateKind => [0x55, 0x73, 0x65, 0x72, 0x55, 0x70, 0x64, 0x61, 0x74, 0x65, 0x54, 0x61, 0x73, 0x6B]
  }

  /** The class lookup done at load time: only the three class names resolve. */
  function KindFromName(name: seq<byte>): (k: Kind)
    ensures k != UnknownKind ==> name == TypeName(k)
    ensures forall j :: j != UnknownKind && name == TypeName(j) ==> k == j
  {
    if name == TypeName(LogKind) then LogKind
    else if name == TypeName(UserLogKind) then UserLogKind
    else if name == TypeName(UserUpdateKind) then UserUpdateKind
    else UnknownKind
  }

  /** The per-class JSON encoders and decoders, left abstract. */
  datatype Codec = Codec(
    encodeLog: LogTask -> Option<seq<byte>>, decodeLog: seq<byte> -> Option<LogTask>,
    encodeUserLog: UserLogTask -> Option<seq<byte>>, decodeUserLog: seq<byte> -> Option<UserLogTask>,
    encodeUserUpdate: UserUpdateTask -> Option<seq<byte>>, decodeUserUpdate: seq<byte> -> Option<UserUpdateTask>)

  /** Decoding gives back whatever encoding produced. */
  ghost predicate RoundTrips(c: Codec)
  {
    && (forall x :: c.encodeLog(x).Some? ==> c.decodeLog(c.encodeLog(x).value) == Some(x))
    && (forall x :: c.encodeUserLog(x).Some? ==> c.decodeUserLog(c.encodeUserLog(x).value) == Some(x))
    && (forall x :: c.encodeUserUpdate(x).Some? ==> c.decodeUserUpdate(c.encodeUserUpdate(x).value) == Some(x))
  }

  function EncodeTask(c: Codec, t: Task): Option<seq<byte>>
  {
    match t
    case Log(x) => c.encodeLog(x)
    case UserLog(x) => c.encodeUserLog(x)
    case UserUpdate(x) => c.encodeUserUpdate(x)
  }

  /** Decodes bytes as a task of the given kind; an unknown kind never decodes. */
  function DecodeTask(c: Codec, k: Kind, data: seq<byte>): (r: Option<Task>)
    ensures r.Some? ==> k != UnknownKind && KindOf(r.value) == k
  {
    match k
    case LogKind => (match c.decodeLog(data) case Some(x) => Some(Log(x)) case None => None)
    case UserLogKind => (match c.decodeUserLog(data) case Some(x) => Some(UserLog(x)) case None => None)
    case UserUpdateKind => (match c.decodeUserUpdate(data) case Some(x) => Some(UserUpdate(x)) case None => None)
    case UnknownKind => None
  }

  /** One element of the persisted array: a `[String: Data]` dictionary. */
  type Entry = map<string, seq<byte>>

  /** The persisted slot: nothing stored, something that is not an array of
      dictionaries, or an array of dictionaries. */
  datatype Blob = Missing | Corrupt | Stored(entries: seq<Entry>)

  /** `saveTasks`' per-task dictionary; a task that fails to encode is stored with empty data. */
  function EncodeEntry(c: Codec, t: Task): (e: Entry)
    ensures e.Keys == {"type", "data"}
    ensures e["type"] == TypeName(KindOf(t))
    ensures EncodeTask(c, t).Some? ==> e["data"] == EncodeTask(c, t).value
    ensures EncodeTask(c, t).None? ==> e["data"] == []
  {
    map["type" := TypeName(KindOf(t)), "data" := EncodeTask(c, t).GetOr([])]
  }

  function EncodeEntries(c: Codec, ts: seq<Task>): (es: seq<Entry>)
    ensures |es| == |ts|
    ensures forall i :: 0 <= i < |ts| ==> es[i] == EncodeEntry(c, ts[i])
  {
    seq(|ts|, i requires 0 <= i < |ts| => EncodeEntry(c, ts[i]))
  }

  /** `loadTasks`' per-entry step: a missing key, an unknown type name or data that
      does not decode gives no task. */
  function DecodeEntry(c: Codec, e: Entry): (r: Option<Task>)
    ensures r.Some? <==> "type" in e && "data" in e && KindFromName(e["type"]) != UnknownKind
                         && DecodeTask(c, KindFromName(e["type"]), e["data"]).Some?
    ensures r.Some? ==> e["type"] == TypeName(KindOf(r.value))
  {
    if "type" in e && "data" in e then DecodeTask(c, KindFromName(e["type"]), e["data"]) else None
  }

  /** The `compactMap` of `loadTasks`: the entries that decode, in stored order. */
  function DecodeEntries(c: Codec, es: seq<Entry>): (ts: seq<Task>)
    ensures |ts| <= |es|
  {
    if es == [] then []
    else
      match DecodeEntry(c, es[0])
      case Some(t) => [t] + DecodeEntries(c, es[1..])
      case None => DecodeEntries(c, es[1..])
  }

  /** Some stored entry decodes to `t`. */
  ghost predicate DecodedFrom(c: Codec, es: seq<Entry>, t: Task)
  {
    exists i :: 0 <= i < |es| && DecodeEntry(c, es[i]) == Some(t)
  }

  /** Every loaded task is what some stored entry decodes to. */
  lemma {:induction false} DecodeEntriesFrom(c: Codec, es: seq<Entry>)
    ensures forall t :: t in DecodeEntries(c, es) ==> DecodedFrom(c, es, t)
  {
    if es != [] {
      var rest := DecodeEntries(c, es[1..]);
      DecodeEntriesFrom(c, es[1..]);
      var ts := DecodeEntries(c, es);
      assert ts == if DecodeEntry(c, es[0]).Some? then [DecodeEntry(c, es[0]).value] + rest else rest;
      forall t | t in ts
        ensures DecodedFrom(c, es, t)
      {
        if DecodeEntry(c, es[0]) == Some(t) {
          assert DecodeEntry(c, es[0]) == Some(t);
        } else {
          assert t in rest;
          assert DecodedFrom(c, es[1..], t);
          var i :| 0 <= i < |es[1..]| && DecodeEntry(c, es[1..][i]) == Some(t);
          assert es[i + 1] == es[1..][i];
        }
      }
    }
  }

  /** Every entry that decodes is loaded: nothing decodable is dropped. */
  lemma {:induction false} DecodeEntriesKeeps(c: Codec, es: seq<Entry>, i: nat)
    requires i < |es| && DecodeEntry(c, es[i]).Some?
    ensures DecodeEntry(c, es[i]).value in DecodeEntries(c, es)
  {
    DecodeEntriesConcat(c, es[..i], es[i..]);
    assert es == es[..i] + es[i..];
    assert es[i..][0] == es[i];
  }

  /** Decoding a concatenation decodes each part: survivors keep their stored order. */
  lemma {:induction false} DecodeEntriesConcat(c: Codec, xs: seq<Entry>, ys: seq<Entry>)
    ensures DecodeEntries(c, xs + ys) == DecodeEntries(c, xs) + DecodeEntries(c, ys)
  {
    if xs == [] {
      assert xs + ys == ys;
    } else {
      assert (xs + ys)[1..] == xs[1..] + ys;
      DecodeEntriesConcat(c, xs[1..], ys);
    }
  }

  /** An entry that does not decode is dropped and the rest are kept in place. */
  lemma DecodeEntriesDropsBad(c: Codec, xs: seq<Entry>, bad: Entry, ys: seq<Entry>)
    requires DecodeEntry(c, bad) == None
    ensures DecodeEntries(c, xs + [bad] + ys) == DecodeEntries(c, xs) + DecodeEntries(c, ys)
  {
    DecodeEntriesConcat(c, xs + [bad], ys);
    DecodeEntriesConcat(c, xs, [bad]);
  }

  /** An entry naming a class other than the three task classes is dropped. */
  lemma UnknownTypeIsDropped(c: Codec, name: seq<byte>, data: seq<byte>)
    requires name != TypeName(LogKind) && name != TypeName(UserLogKind) && name != TypeName(UserUpdateKind)
    ensures DecodeEntries(c, [map["type" := name, "data" := data]]) == []
  {
    var e: Entry := map["type" := name, "data" := data];
    assert KindFromName(e["type"]) == UnknownKind;
    assert [e][1..] == [];
  }

  /** An entry lacking its "data" key is dropped. */
  lemma MissingDataIsDropped(c: Codec, e: Entry)
    requires "data" !in e
    ensures DecodeEntries(c, [e]) == []
  {
    assert [e][1..] == [];
  }

  /** Saving then loading gives back the same tasks when every task encodes and the
      codec round-trips. */
  lemma {:induction false} SaveLoadRoundTrip(c: Codec, ts: seq<Task>)
    requires RoundTrips(c)
    requires forall i :: 0 <= i < |ts| ==> EncodeTask(c, ts[i]).Some?
    ensures DecodeEntries(c, EncodeEntries(c, ts)) == ts
  {
    if ts != [] {
      var es := EncodeEntries(c, ts);
      assert es == [EncodeEntry(c, ts[0])] + EncodeEntries(c, ts[1..]);
      var e := EncodeEntry(c, ts[0]);
      assert KindFromName(e["type"]) == KindOf(ts[0]);
      assert DecodeEntry(c, e) == Some(ts[0]);
      SaveLoadRoundTrip(c, ts[1..]);
      DecodeEntriesConcat(c, [e], EncodeEntries(c, ts[1..]));
      assert [e][1..] == [];
      assert ts == [ts[0]] + ts[1..];
    }
  }

  /** What the entries loaded from a blob are; a missing or corrupt blob gives none. */
  function Loaded(c: Codec, b: Blob): (ts: seq<Task>)
    ensures b.Missing? || b.Corrupt? ==> ts == []
    ensures b.Stored? ==> ts == DecodeEntries(c, b.entries)
  {
    match b
    case Stored(es) => DecodeEntries(c, es)
    case _ => []
  }

  // ---------------------------------------------------------------------------
  // The retry schedule

  const MaxFailures: nat := 27
  const MaxAge: int := 60 * 60 * 48

  /** The removal test after a run: success, `failures` earlier failed runs, or an age
      strictly above 48 hours. */
  predicate ShouldRemove(success: bool, failures: nat, age: int)
  {
    success || failures >= MaxFailures || age > MaxAge
  }

  /** How many runs a task at the head gets when its first run is attempt `n` and it has
      already failed `failures` times: attempt `n` is run with outcome `outcome(n)` and the
      clock then reads `clock(n)`. */
  function RunsUntilRemoved(t: Task, n: nat, failures: nat, outcome: nat -> bool, clock: nat -> int): (k: nat)
    requires failures <= MaxFailures
    ensures 1 <= k <= MaxFailures + 1 - failures
    decreases MaxFailures - failures
  {
    if ShouldRemove(outcome(n), failures, clock(n) - t.Time()) then 1
    else 1 + RunsUntilRemoved(t, n + 1, failures + 1, outcome, clock)
  }

  function Sum(cs: seq<nat>): nat
  {
    if cs == [] then 0 else Sum(cs[..|cs| - 1]) + cs[|cs| - 1]
  }

  /** The run counts of a sequence of tasks removed in order, the first run of the first
      being attempt 0: each task reaches the head once all runs of the tasks before it
      are done, with no failures yet. */
  function Schedule(ts: seq<Task>, outcome: nat -> bool, clock: nat -> int): (cs: seq<nat>)
    ensures |cs| == |ts|
    decreases |ts|
  {
    if ts == [] then []
    else
      var before := Schedule(ts[..|ts| - 1], outcome, clock);
      before + [RunsUntilRemoved(ts[|ts| - 1], Sum(before), 0, outcome, clock)]
  }

  /** Every task in the schedule is run at least once and at most 28 times. */
  lemma {:induction false} ScheduleBounds(ts: seq<Task>, outcome: nat -> bool, clock: nat -> int)
    ensures forall i :: 0 <= i < |ts| ==> 1 <= Schedule(ts, outcome, clock)[i] <= MaxFailures + 1
    decreases |ts|
  {
    if ts != [] {
      ScheduleBounds(ts[..|ts| - 1], outcome, clock);
    }
  }

  lemma SumSnoc(cs: seq<nat>, k: nat)
    ensures Sum(cs + [k]) == Sum(cs) + k
  {
    assert (cs + [k])[..|cs|] == cs;
  }

  /** The schedule after one more task is removed following `k` runs. */
  lemma ScheduleSnoc(ts: seq<Task>, t: Task, counts: seq<nat>, k: nat, outcome: nat -> bool, clock: nat -> int)
    requires counts == Schedule(ts, outcome, clock)
    requires k == RunsUntilRemoved(t, Sum(counts), 0, outcome, clock)
    ensures Schedule(ts + [t], outcome, clock) == counts + [k]
    ensures Sum(counts + [k]) == Sum(counts) + k
  {
    assert (ts + [t])[..|ts|] == ts;
    SumSnoc(counts, k);
  }

  /** One more failed run of the head: the remaining count shrinks by one. */
  lemma RunsAfterFailure(t: Task, n: nat, failures: nat, outcome: nat -> bool, clock: nat -> int)
    requires failures <= MaxFailures
    requires !ShouldRemove(outcome(n), failures, clock(n) - t.Time())
    ensures failures + 1 <= MaxFailures
    ensures RunsUntilRemoved(t, n, failures, outcome, clock) == 1 + RunsUntilRemoved(t, n + 1, failures + 1, outcome, clock)
  {
  }

  /** A task whose runs all fail and that never ages past 48 hours is run exactly 28 times. */
  lemma {:induction false} AlwaysFailingRunsTwentyEightTimes(t: Task, n: nat, failures: nat, outcome: nat -> bool, clock: nat -> int)
    requires failures <= MaxFailures
    requires forall m :: !outcome(m) && clock(m) - t.Time() <= MaxAge
    ensures RunsUntilRemoved(t, n, failures, outcome, clock) == MaxFailures + 1 - failures
    decreases MaxFailures - failures
  {
    if failures < MaxFailures {
      AlwaysFailingRunsTwentyEightTimes(t, n + 1, failures + 1, outcome, clock);
    }
  }

  /** A first run that succeeds removes the task after that one run. */
  lemma SuccessRunsOnce(t: Task, n: nat, outcome: nat -> bool, clock: nat -> int)
    requires outcome(n)
    ensures RunsUntilRemoved(t, n, 0, outcome, clock) == 1
  {
  }

  /** A task already older than 48 hours at its first check is removed after one run. */
  lemma ExpiredRunsOnce(t: Task, n: nat, outcome: nat -> bool, clock: nat -> int)
    requires clock(n) - t.Time() > MaxAge
    ensures RunsUntilRemoved(t, n, 0, outcome, clock) == 1
  {
  }

  /** Where a drain of the queue stands: `removed` are gone and `pending` remain;
      `counts` holds the runs of each removed task, `failures` the
      failed runs of the current head, and `attempt` the number of runs so far. */
  ghost predicate Progress(removed: seq<Task>, pending: seq<Task>, counts: seq<nat>,
                           failures: nat, attempt: nat, outcome: nat -> bool, clock: nat -> int)
  {
    && failures <= MaxFailures
    && counts == Schedule(removed, outcome, clock)
    && attempt == Sum(counts) + failures
    && (pending == [] ==> failures == 0)
    && (pending != [] ==> FailedRuns(pending[0], Sum(counts), failures, outcome, clock))
  }

  /** The task that reached the head at attempt `start` failed its first `failures` runs
      without meeting the removal test. */
  ghost predicate FailedRuns(t: Task, start: nat, failures: nat, outcome: nat -> bool, clock: nat -> int)
    decreases failures
  {
    failures == 0 ||
    (FailedRuns(t, start, failures - 1, outcome, clock)
     && !ShouldRemove(outcome(start + failures - 1), failures - 1, clock(start + failures - 1) - t.Time()))
  }

  /** After `failures` failed runs, the runs left are the total less those already made. */
  lemma {:induction false} FailedRunsRemaining(t: Task, start: nat, failures: nat, outcome: nat -> bool, clock: nat -> int)
    requires failures <= MaxFailures
    requires FailedRuns(t, start, failures, outcome, clock)
    ensures RunsUntilRemoved(t, start, 0, outcome, clock)
         == failures + RunsUntilRemoved(t, start + failures, failures, outcome, clock)
    decreases failures
  {
    if failures > 0 {
      FailedRunsRemaining(t, start, failures - 1, outcome, clock);
      RunsAfterFailure(t, start + failures - 1, failures - 1, outcome, clock);
    }
  }

  lemma AppendEmpty<T>(s: seq<T>)
    ensures s + [] == s && [] + s == s
  {
  }

  /** The queue order kept across a removal between two rounds of appends. */
  lemma RemovedHead<T>(origin: seq<T>, arrived: seq<T>, removed: seq<T>, before: seq<T>, added1: seq<T>, added2: seq<T>)
    requires before != []
    requires removed + before == origin + arrived
    ensures removed + [before[0]] + ((before + added1)[1..] + added2) == origin + (arrived + (added1 + added2))
  {
    assert before + added1 == [before[0]] + (before + added1)[1..];
    calc {
      removed + [before[0]] + ((before + added1)[1..] + added2);
      removed + ([before[0]] + (before + added1)[1..]) + added2;
      (removed + before) + added1 + added2;
      (origin + arrived) + added1 + added2;
    }
  }

  /** The queue order kept when the head stays between two rounds of appends. */
  lemma KeptHead<T>(origin: seq<T>, arrived: seq<T>, removed: seq<T>, before: seq<T>, added1: seq<T>, added2: seq<T>)
    requires removed + before == origin + arrived
    ensures removed + (before + added1 + added2) == origin + (arrived + (added1 + added2))
  {
    calc {
      removed + (before + added1 + added2);
      (removed + before) + added1 + added2;
      (origin + arrived) + added1 + added2;
    }
  }

  /** A head that failed `failures` times and is then removed ran `failures + 1` times. */
  lemma FailedRunsThenRemoved(t: Task, start: nat, failures: nat, outcome: nat -> bool, clock: nat -> int)
    requires failures <= MaxFailures
    requires FailedRuns(t, start, failures, outcome, clock)
    requires ShouldRemove(outcome(start + failures), failures, clock(start + failures) - t.Time())
    ensures RunsUntilRemoved(t, start, 0, outcome, clock) == failures + 1
  {
    FailedRunsRemaining(t, start, failures, outcome, clock);
    RunsWhenRemoved(t, start + failures, failures, outcome, clock);
  }

  /** A run after which the head is removed is its last. */
  lemma RunsWhenRemoved(t: Task, n: nat, failures: nat, outcome: nat -> bool, clock: nat -> int)
    requires failures <= MaxFailures
    requires ShouldRemove(outcome(n), failures, clock(n) - t.Time())
    ensures RunsUntilRemoved(t, n, failures, outcome, clock) == 1
  {
  }

  /** Tasks appended by other callers join the pending ones. */
  lemma ProgressAppend(removed: seq<Task>, pending: seq<Task>, counts: seq<nat>,
                       failures: nat, attempt: nat, outcome: nat -> bool, clock: nat -> int, added: seq<Task>)
    requires Progress(removed, pending, counts, failures, attempt, outcome, clock)
    ensures Progress(removed, pending + added, counts, failures, attempt, outcome, clock)
  {
    if pending != [] {
      assert (pending + added)[0] == pending[0];
    }
  }

  /** A run of the head after which it is removed. */
  lemma ProgressRemove(removed: seq<Task>, pending: seq<Task>, counts: seq<nat>,
                       failures: nat, attempt: nat, outcome: nat -> bool, clock: nat -> int)
    requires Progress(removed, pending, counts, failures, attempt, outcome, clock)
    requires pending != []
    requires ShouldRemove(outcome(attempt), failures, clock(attempt) - pending[0].Time())
    ensures Progress(removed + [pending[0]], pending[1..], counts + [failures + 1], 0,
                     attempt + 1, outcome, clock)
  {
    ProgressAfterRemoval(removed, pending[0], pending[1..], counts, failures, attempt, outcome, clock);
  }

  /** Once the head is removed, the next task starts with no failures, whatever is pending. */
  lemma ProgressAfterRemoval(removed: seq<Task>, head: Task, rest: seq<Task>, counts: seq<nat>,
                             failures: nat, attempt: nat, outcome: nat -> bool, clock: nat -> int)
    requires failures <= MaxFailures && counts == Schedule(removed, outcome, clock)
    requires attempt == Sum(counts) + failures
    requires FailedRuns(head, Sum(counts), failures, outcome, clock)
    requires ShouldRemove(outcome(attempt), failures, clock(attempt) - head.Time())
    ensures Progress(removed + [head], rest, counts + [failures + 1], 0, attempt + 1, outcome, clock)
  {
    FailedRunsThenRemoved(head, Sum(counts), failures, outcome, clock);
    ScheduleSnoc(removed, head, counts, failures + 1, outcome, clock);
  }

  /** A failed run of the head that keeps it. */
  lemma ProgressFail(removed: seq<Task>, pending: seq<Task>, counts: seq<nat>,
                     failures: nat, attempt: nat, outcome: nat -> bool, clock: nat -> int)
    requires Progress(removed, pending, counts, failures, attempt, outcome, clock)
    requires pending != []
    requires !ShouldRemove(outcome(attempt), failures, clock(attempt) - pending[0].Time())
    ensures Progress(removed, pending, counts, failures + 1, attempt + 1, outcome, clock)
  {
  }

  /** One iteration of the loop in which the head is removed: `first` arrives, the
      head runs and is removed, then `second` arrives. */
  lemma ProgressRemoveStep(removed: seq<Task>, before: seq<Task>, added1: seq<Task>, added2: seq<Task>,
                           counts: seq<nat>, failures: nat, attempt: nat, outcome: nat -> bool, clock: nat -> int)
    requires Progress(removed, before, counts, failures, attempt, outcome, clock)
    requires before != []
    requires ShouldRemove(outcome(attempt), failures, clock(attempt) - before[0].Time())
    ensures Progress(removed + [before[0]], (before + added1)[1..] + added2, counts + [failures + 1], 0,
                     attempt + 1, outcome, clock)
  {
    var after := before + added1;
    ProgressAppend(removed, before, counts, failures, attempt, outcome, clock, added1);
    assert after[0] == before[0];
    ProgressRemove(removed, after, counts, failures, attempt, outcome, clock);
    ProgressAppend(removed + [after[0]], after[1..], counts + [failures + 1], 0, attempt + 1, outcome, clock, added2);
  }

  /** One iteration of the loop in which the head fails and is kept. */
  lemma ProgressFailStep(removed: seq<Task>, before: seq<Task>, added1: seq<Task>, added2: seq<Task>,
                         counts: seq<nat>, failures: nat, attempt: nat, outcome: nat -> bool, clock: nat -> int)
    requires Progress(removed, before, counts, failures, attempt, outcome, clock)
    requires before != []
    requires !ShouldRemove(outcome(attempt), failures, clock(attempt) - before[0].Time())
    ensures Progress(removed, before + added1 + added2, counts, failures + 1, attempt + 1, outcome, clock)
  {
    var after := before + added1;
    ProgressAppend(removed, before, counts, failures, attempt, outcome, clock, added1);
    assert after[0] == before[0];
    ProgressFail(removed, after, counts, failures, attempt, outcome, clock);
    ProgressAppend(removed, after, counts, failures + 1, attempt + 1, outcome, clock, added2);
  }

  /** One iteration of the loop, whichever way the removal test goes: `ran` was the head
      of `before`, and the new removed tasks, pending tasks, run counts and failures are
      as the loop body leaves them. */
  lemma ProgressStep(removed: seq<Task>, before: seq<Task>, counts: seq<nat>, failures: nat, attempt: nat,
                     outcome: nat -> bool, clock: nat -> int, ran: Task, added1: seq<Task>, added2: seq<Task>,
                     removed': seq<Task>, pending': seq<Task>, counts': seq<nat>, failures': nat)
    requires Progress(removed, before, counts, failures, attempt, outcome, clock)
    requires before != [] && ran == before[0]
    requires ShouldRemove(outcome(attempt), failures, clock(attempt) - ran.Time())
             ==> removed' == removed + [ran] && counts' == counts + [failures + 1] && failures' == 0
                 && pending' == (before + added1)[1..] + added2
    requires !ShouldRemove(outcome(attempt), failures, clock(attempt) - ran.Time())
             ==> removed' == removed && counts' == counts && failures' == failures + 1
                 && pending' == before + added1 + added2
    ensures Progress(removed', pending', counts', failures', attempt + 1, outcome, clock)
  {
    if ShouldRemove(outcome(attempt), failures, clock(attempt) - ran.Time()) {
      ProgressRemoveStep(removed, before, added1, added2, counts, failures, attempt, outcome, clock);
    } else {
      ProgressFailStep(removed, before, added1, added2, counts, failures, attempt, outcome, clock);
    }
  }

  // ---------------------------------------------------------------------------
  // The actor

  /** A call that another task makes on the actor while `processQueue` is suspended. */
  datatype ActorCall =
    | EnqueueCall(task: Task)
    /** The initializer's `loadTasks`. */
    | LoadCall
    /** A `processQueue` started by an `enqueue`: it returns at once while one is running. */
    | ProcessCall

  /** The initializer's `loadTasks` is the only load: a `LoadCall` happens at most once,
      and only while the queue is not yet loaded. */
  predicate LoadsOnce(calls: seq<ActorCall>, loaded: bool)
    decreases |calls|
  {
    calls == [] || ((calls[0].LoadCall? ==> !loaded) && LoadsOnce(calls[1..], loaded || calls[0].LoadCall?))
  }

  /** Whether the queue is loaded after `calls`. */
  predicate LoadedAfter(calls: seq<ActorCall>, loaded: bool)
    decreases |calls|
  {
    if calls == [] then loaded else LoadedAfter(calls[1..], loaded || calls[0].LoadCall?)
  }

  /** The tasks that `calls` append, in order: an enqueue its task, the load the stored
      tasks `stored`, a second `processQueue` nothing. */
  function Arrivals(calls: seq<ActorCall>, loaded: bool, stored: seq<Task>): seq<Task>
    requires LoadsOnce(calls, loaded)
    decreases |calls|
  {
    if calls == [] then [] else Appended(calls[0], stored) + Arrivals(calls[1..], loaded || calls[0].LoadCall?, stored)
  }

  /** What one call appends. */
  function Appended(c: ActorCall, stored: seq<Task>): seq<Task>
  {
    match c
    case EnqueueCall(t) => [t]
    case LoadCall => stored
    case ProcessCall => []
  }

  lemma {:induction false} LoadsOnceConcat(a: seq<ActorCall>, b: seq<ActorCall>, loaded: bool)
    requires LoadsOnce(a + b, loaded)
    ensures LoadsOnce(a, loaded) && LoadsOnce(b, LoadedAfter(a, loaded))
    decreases |a|
  {
    if a == [] {
      assert a + b == b;
    } else {
      assert (a + b)[0] == a[0];
      assert (a + b)[1..] == a[1..] + b;
      LoadsOnceConcat(a[1..], b, loaded || a[0].LoadCall?);
    }
  }

  lemma {:induction false} ArrivalsConcat(a: seq<ActorCall>, b: seq<ActorCall>, loaded: bool, stored: seq<Task>)
    requires LoadsOnce(a + b, loaded)
    ensures LoadsOnce(a, loaded) && LoadsOnce(b, LoadedAfter(a, loaded))
    ensures Arrivals(a + b, loaded, stored) == Arrivals(a, loaded, stored) + Arrivals(b, LoadedAfter(a, loaded), stored)
    decreases |a|
  {
    LoadsOnceConcat(a, b, loaded);
    if a == [] {
      assert a + b == b;
    } else {
      var c, l' := a[0], loaded || a[0].LoadCall?;
      assert (a + b)[0] == c;
      assert (a + b)[1..] == a[1..] + b;
      ArrivalsConcat(a[1..], b, l', stored);
      var x, y, z := Appended(c, stored), Arrivals(a[1..], l', stored), Arrivals(b, LoadedAfter(a, loaded), stored);
      assert Arrivals(a + b, loaded, stored) == x + (y + z);
      assert Arrivals(a, loaded, stored) == x + y;
      assert x + (y + z) == (x + y) + z;
    }
  }

  lemma {:induction false} LoadedAfterConcat(a: seq<ActorCall>, b: seq<ActorCall>, loaded: bool)
    ensures LoadedAfter(a + b, loaded) == LoadedAfter(b, LoadedAfter(a, loaded))
    decreases |a|
  {
    if a == [] {
      assert a + b == b;
    } else {
      assert (a + b)[0] == a[0];
      assert (a + b)[1..] == a[1..] + b;
      LoadedAfterConcat(a[1..], b, loaded || a[0].LoadCall?);
    }
  }

  /** A queue that is loaded stays loaded. */
  lemma {:induction false} LoadedAfterKeeps(calls: seq<ActorCall>, loaded: bool)
    ensures loaded ==> LoadedAfter(calls, loaded)
    decreases |calls|
  {
    if calls != [] {
      LoadedAfterKeeps(calls[1..], loaded || calls[0].LoadCall?);
    }
  }

  /** The bookkeeping of `processQueue`'s loop: `made` are the calls interleaved so far and
      `rest` those still to come, the queue is loaded exactly when it was or one of `made` is
      the load, and `arrived` is what `made` appended. */
  ghost predicate ArrivalsSoFar(made: seq<ActorCall>, rest: seq<ActorCall>, total: seq<ActorCall>, before: bool,
                                loaded: bool, arrived: seq<Task>, stored: seq<Task>)
  {
    made + rest == total && LoadsOnce(total, before) && LoadsOnce(made, before)
    && LoadsOnce(rest, loaded) && loaded == LoadedAfter(made, before)
    && arrived == Arrivals(made, before, stored)
  }

  lemma ArrivalsStart(total: seq<ActorCall>, before: bool, stored: seq<Task>)
    requires LoadsOnce(total, before)
    ensures ArrivalsSoFar([], total, total, before, before, [], stored)
  {
    assert [] + total == total;
  }

  /** One iteration of `processQueue` moves `batch` from the calls still to come to those
      already made; what they append extends the arrivals in order. */
  lemma ArrivalsStep(made: seq<ActorCall>, batch: seq<ActorCall>, rest: seq<ActorCall>, total: seq<ActorCall>,
                     before: bool, loaded: bool, arrived: seq<Task>, stored: seq<Task>)
    requires ArrivalsSoFar(made, batch + rest, total, before, loaded, arrived, stored)
    ensures LoadsOnce(batch, loaded)
    ensures ArrivalsSoFar(made + batch, rest, total, before, LoadedAfter(batch, loaded),
                          arrived + Arrivals(batch, loaded, stored), stored)
  {
    assert made + (batch + rest) == (made + batch) + rest;
    ArrivalsConcat(made + batch, rest, before, stored);
    ArrivalsConcat(made, batch, before, stored);
    LoadedAfterConcat(made, batch, before);
  }

  class QuantaQueue {
    var tasks: seq<Task>
    var isProcessing: bool
    var loaded: bool
    /** The `UserDefaults` slot under "tools.quanta.queue.tasks". */
    var store: Blob
    const codec: Codec
    /** What the slot held when the queue was created. */
    ghost const initialStore: Blob

    /** Nothing is written to the slot before it has been read. */
    ghost predicate Valid()
      reads this
    {
      !loaded ==> store == initialStore
    }

    /** The slot holds exactly the in-memory tasks, encoded: what `saveTasks` leaves behind. */
    ghost predicate Saved()
      reads this
    {
      store == Stored(EncodeEntries(codec, tasks))
    }

    /** The actor's initial state; the initializer's background task is `Start`. */
    constructor(codec: Codec, store: Blob)
      ensures Valid()
      ensures tasks == [] && !isProcessing && !loaded
      ensures this.store == store && this.codec == codec
    {
      this.tasks := [];
      this.isProcessing := false;
      this.loaded := false;
      this.store := store;
      this.codec := codec;
      this.initialStore := store;
    }

    /** `saveTasks`: once loaded, the slot holds the encoded in-memory tasks; before, nothing is written. */
    method SaveTasks()
      requires Valid()
      modifies this`store
      ensures Valid()
      ensures loaded ==> store == Stored(EncodeEntries(codec, tasks))
      ensures !loaded ==> store == old(store)
    {
      if !loaded {
        return;
      }
      var entries := [];
      var i := 0;
      while i < |tasks|
        invariant 0 <= i <= |tasks|
        invariant entries == EncodeEntries(codec, tasks[..i])
      {
        entries := entries + [EncodeEntry(codec, tasks[i])];
        i := i + 1;
      }
      assert tasks[..i] == tasks;
      store := Stored(entries);
    }

    /** `loadTasks`: the decodable stored tasks are appended after those already in memory,
        and the queue counts as loaded on every path. */
    method LoadTasks()
      requires Valid()
      modifies this`tasks, this`loaded
      ensures Valid()
      ensures loaded
      ensures tasks == old(tasks) + Loaded(codec, store)
    {
      match store
      case Stored(es) =>
        var i := 0;
        var decoded := [];
        while i < |es|
          invariant 0 <= i <= |es|
          invariant decoded == DecodeEntries(codec, es[..i])
          invariant tasks == old(tasks)
        {
          var entry := DecodeEntry(codec, es[i]);
          DecodeEntriesConcat(codec, es[..i], [es[i]]);
          assert es[..i + 1] == es[..i] + [es[i]];
          assert [es[i]][1..] == [];
          if entry.Some? {
            decoded := decoded + [entry.value];
          }
          i := i + 1;
        }
        assert es[..i] == es;
        assert Loaded(codec, store) == decoded;
        tasks := tasks + decoded;
        loaded := true;
      case _ =>
        loaded := true;
    }

    /** `enqueue`: the task goes to the tail, the queue is saved, and a processing task is
        spawned exactly when none is running. */
    method Enqueue(t: Task) returns (spawn: bool)
      requires Valid()
      modifies this`tasks, this`store
      ensures Valid()
      ensures tasks == old(tasks) + [t]
      ensures loaded ==> store == Stored(EncodeEntries(codec, tasks))
      ensures !loaded ==> store == old(store)
      ensures spawn <==> !isProcessing
    {
      tasks := tasks + [t];
      SaveTasks();
      spawn := !isProcessing;
    }

    /** One call made while `processQueue` is suspended: an enqueue appends its task, the
        initializer's load appends the stored tasks, and a second `processQueue` returns at once. */
    method Apply(c: ActorCall) returns (ghost added: seq<Task>)
      requires Valid() && isProcessing
      requires c.LoadCall? ==> !loaded
      modifies this
      ensures Valid() && isProcessing
      ensures loaded == (old(loaded) || c.LoadCall?)
      ensures tasks == old(tasks) + added
      ensures added == Appended(c, Loaded(codec, initialStore))
      ensures old(loaded) && (c.EnqueueCall? || old(Saved())) ==> Saved()
      decreases 0, 2
    {
      match c {
        case EnqueueCall(t) =>
          var spawn := Enqueue(t);
          assert !spawn;
          added := [t];
        case LoadCall =>
          LoadTasks();
          added := Loaded(codec, initialStore);
        case ProcessCall =>
          var removed, runs, sleeps, arrived, interleaved := ProcessQueue(_ => false, _ => 0, []);
          added := [];
      }
    }

    /** The calls other tasks make while `processQueue` is suspended, in order. */
    method Interleave(calls: seq<ActorCall>) returns (ghost added: seq<Task>)
      requires Valid() && isProcessing
      requires LoadsOnce(calls, loaded)
      modifies this
      ensures Valid() && isProcessing
      ensures old(loaded) ==> loaded
      ensures loaded == LoadedAfter(calls, old(loaded))
      ensures tasks == old(tasks) + added
      ensures added == Arrivals(calls, old(loaded), Loaded(codec, initialStore))
      ensures calls == [] ==> added == []
      ensures old(loaded) && old(Saved()) ==> Saved()
      decreases 0, 3, |calls|
    {
      if calls == [] {
        return [];
      }
      ghost var first := Apply(calls[0]);
      ghost var rest := Interleave(calls[1..]);
      added := first + rest;
      LoadedAfterKeeps(calls, old(loaded));
    }

    /** Whether a backoff sleep precedes the next run, as 0 or 1. */
    static function Backoff(failures: nat): nat
    {
      if failures > 0 then 1 else 0
    }

    /** The calls interleaved at suspension point `j`, none once `during` is used up. */
    static function Batch(during: seq<seq<ActorCall>>, j: nat): seq<ActorCall>
    {
      if j < |during| then during[j] else []
    }

    /** All calls interleaved from suspension point `j` on, in order. */
    static ghost function Calls(during: seq<seq<ActorCall>>, j: nat): seq<ActorCall>
      decreases |during| - j
    {
      if j < |during| then during[j] + Calls(during, j + 1) else []
    }

    static lemma CallsStep(during: seq<seq<ActorCall>>, j: nat)
      ensures Calls(during, j) == (Batch(during, j) + Batch(during, j + 1)) + Calls(during, j + 2)
    {
      if j < |during| {
        assert Calls(during, j) == during[j] + Calls(during, j + 1);
        if j + 1 < |during| {
          assert Calls(during, j + 1) == during[j + 1] + Calls(during, j + 2);
        }
      }
    }

    /** `processQueue`. Single-flight: it returns at once while another run is in progress.
        Otherwise it drains the queue, running only the head: attempt `n` (counting from 0)
        succeeds when `outcome(n)` holds, and its removal test reads the clock as `clock(n)`.
        `during[2*i]` are the calls interleaved while iteration `i`'s `run()` is awaited and
        `during[2*i+1]` those during the 100 ms pause after it (calls during a backoff sleep
        are the same as calls during the pause before it).
        Every task ever queued (`old(tasks) + arrived`) is removed, in queue order, and
        `runs[i]` is how often `removed[i]` was run, as the retry schedule gives it;
        `sleeps` counts the backoff sleeps, one before every run but a task's first.
        `interleaved` are the calls that happened before the queue ran dry (the leading
        batches of `during`), and `arrived` is exactly what they appended. */
    method ProcessQueue(outcome: nat -> bool, clock: nat -> int, during: seq<seq<ActorCall>>)
      returns (removed: seq<Task>, runs: seq<nat>, sleeps: nat, ghost arrived: seq<Task>,
               ghost interleaved: seq<ActorCall>)
      requires Valid()
      requires LoadsOnce(Calls(during, 0), loaded)
      modifies this
      ensures Valid()
      ensures old(loaded) ==> loaded
      ensures old(isProcessing) ==> isProcessing && tasks == old(tasks) && removed == [] && sleeps == 0
                                     && unchanged(this`store, this`loaded)
      ensures !old(isProcessing) ==> !isProcessing && tasks == [] && removed == old(tasks) + arrived
      ensures runs == Schedule(removed, outcome, clock)
      ensures sleeps + |removed| == Sum(runs)
      ensures interleaved <= Calls(during, 0) && LoadsOnce(interleaved, old(loaded))
      ensures arrived == Arrivals(interleaved, old(loaded), Loaded(codec, initialStore))
      ensures during == [] ==> arrived == []
      ensures !old(isProcessing) && old(loaded) && removed != [] ==> store == Stored([])
      decreases if isProcessing then 0 else 1, 1
    {
      removed, runs, sleeps, arrived, interleaved := [], [], 0, [], [];
      if isProcessing {
        return;
      }
      isProcessing := true;
      var failures: nat := 0;
      var attempt: nat := 0;
      var j: nat := 0;
      AppendEmpty(tasks);
      ArrivalsStart(Calls(during, 0), loaded, Loaded(codec, initialStore));
      ghost var origin, wasLoaded := tasks, loaded;
      while tasks != []
        invariant Draining(origin, wasLoaded, during, outcome, clock, failures, attempt, j, removed, runs, sleeps,
                           arrived, interleaved)
        decreases if j < |during| then |during| - j else 0, |tasks|, MaxFailures - failures
      {
        failures, attempt, j, removed, runs, sleeps, arrived, interleaved :=
          Step(origin, wasLoaded, during, outcome, clock, failures, attempt, j, removed, runs, sleeps,
               arrived, interleaved);
      }
      LoadedAfterKeeps(interleaved, wasLoaded);
      AppendEmpty(removed);
      assert EncodeEntries(codec, tasks) == [];
      isProcessing := false;
    }

    /** The loop invariant of `processQueue`: the removed tasks and those still queued are
        the original ones followed by the arrivals, the retry schedule so far holds, one
        backoff sleep preceded every run but a task's first, and `interleaved` are the
        calls made before suspension point `j`. */
    ghost predicate Draining(origin: seq<Task>, wasLoaded: bool, during: seq<seq<ActorCall>>,
                             outcome: nat -> bool, clock: nat -> int, failures: nat, attempt: nat, j: nat,
                             removed: seq<Task>, runs: seq<nat>, sleeps: nat, arrived: seq<Task>,
                             interleaved: seq<ActorCall>)
      reads this
    {
      && Valid() && isProcessing
      && removed + tasks == origin + arrived
      && Progress(removed, tasks, runs, failures, attempt, outcome, clock)
      && sleeps + |removed| + Backoff(failures) == attempt
      && (wasLoaded && removed != [] ==> Saved())
      && ArrivalsSoFar(interleaved, Calls(during, j), Calls(during, 0), wasLoaded, loaded, arrived,
                       Loaded(codec, initialStore))
    }

    /** One iteration of `processQueue`'s loop, with its bookkeeping. */
    method Step(ghost origin: seq<Task>, ghost wasLoaded: bool, during: seq<seq<ActorCall>>,
                outcome: nat -> bool, clock: nat -> int, failures: nat, attempt: nat, j: nat,
                removed: seq<Task>, runs: seq<nat>, sleeps: nat, ghost arrived: seq<Task>,
                ghost interleaved: seq<ActorCall>)
      returns (failures': nat, attempt': nat, j': nat, removed': seq<Task>, runs': seq<nat>, sleeps': nat,
               ghost arrived': seq<Task>, ghost interleaved': seq<ActorCall>)
      requires tasks != []
      requires Draining(origin, wasLoaded, during, outcome, clock, failures, attempt, j, removed, runs, sleeps,
                        arrived, interleaved)
      modifies this
      ensures Draining(origin, wasLoaded, during, outcome, clock, failures', attempt', j', removed', runs', sleeps',
                       arrived', interleaved')
      ensures j' == j + 2 && failures' <= MaxFailures
      ensures j >= |during| ==>
              |tasks| < old(|tasks|) || (|tasks| == old(|tasks|) && failures' == failures + 1)
      decreases 0, 5
    {
      ghost var before := tasks;
      ghost var batch := Batch(during, j) + Batch(during, j + 1);
      LoadedAfterKeeps(interleaved, wasLoaded);
      LoadedAfterKeeps(Batch(during, j), loaded);
      ghost var wasSaved := wasLoaded && removed != [];
      CallsStep(during, j);
      ArrivalsStep(interleaved, batch, Calls(during, j + 2), Calls(during, 0), wasLoaded, loaded, arrived,
                   Loaded(codec, initialStore));
      var ran;
      ghost var added1, added2;
      ran, failures', removed', runs', sleeps', arrived', added1, added2 :=
        RunHead(outcome, clock, Batch(during, j), Batch(during, j + 1), failures, attempt, removed, runs, sleeps,
                origin, arrived);
      ProgressStep(removed, before, runs, failures, attempt, outcome, clock, ran, added1, added2,
                   removed', tasks, runs', failures');
      assert wasLoaded && removed' != [] ==> Saved() by {
        if wasLoaded && removed' != [] && !wasSaved {
          assert removed' != removed;
        }
      }
      interleaved' := interleaved + batch;
      attempt' := attempt + 1;
      j' := j + 2;
    }

    /** One iteration of `processQueue`'s loop: a backoff sleep after failures, a run of
        the head (with `first` interleaved while it is awaited), then the removal of that
        same task or one more failure, then the pause (with `second` interleaved). What the
        interleaved calls append extends `arrived`, so the tasks queued since `origin`
        stay in order. */
    method RunHead(outcome: nat -> bool, clock: nat -> int, first: seq<ActorCall>, second: seq<ActorCall>,
                   failures: nat, attempt: nat, removed: seq<Task>, counts: seq<nat>, sleeps: nat,
                   ghost origin: seq<Task>, ghost arrived: seq<Task>)
      returns (ran: Task, failures': nat, removed': seq<Task>, counts': seq<nat>, sleeps': nat,
               ghost arrived': seq<Task>, ghost added1: seq<Task>, ghost added2: seq<Task>)
      requires Valid() && isProcessing && tasks != []
      requires removed + tasks == origin + arrived
      requires LoadsOnce(first + second, loaded)
      modifies this
      ensures Valid() && isProcessing
      ensures old(loaded) ==> loaded
      ensures loaded == LoadedAfter(first + second, old(loaded))
      ensures removed' + tasks == origin + arrived'
      ensures arrived' == arrived + (added1 + added2)
      ensures added1 + added2 == Arrivals(first + second, old(loaded), Loaded(codec, initialStore))
      ensures ran == old(tasks)[0]
      ensures sleeps' == sleeps + Backoff(failures)
      ensures sleeps' + |removed'| + Backoff(failures') == sleeps + |removed| + Backoff(failures) + 1
      ensures ShouldRemove(outcome(attempt), failures, clock(attempt) - ran.Time())
              ==> removed' == removed + [ran] && counts' == counts + [failures + 1] && failures' == 0
                  && tasks == (old(tasks) + added1)[1..] + added2
      ensures !ShouldRemove(outcome(attempt), failures, clock(attempt) - ran.Time())
              ==> removed' == removed && counts' == counts && failures' == failures + 1
                  && tasks == old(tasks) + added1 + added2
      ensures ShouldRemove(outcome(attempt), failures, clock(attempt) - ran.Time()) && LoadedAfter(first, old(loaded))
              ==> Saved()
      ensures old(loaded) && old(Saved()) ==> Saved()
      ensures first == [] ==> added1 == []
      ensures second == [] ==> added2 == []
      ensures first == [] && second == [] ==>
              |tasks| < |old(tasks)| || (|tasks| == |old(tasks)| && failures' == failures + 1)
      decreases 0, 4
    {
      sleeps' := sleeps;
      if failures > 0 {
        sleeps' := sleeps + 1;
      }
      ran := tasks[0];
      var success := outcome(attempt);
      ghost var before := tasks;
      ArrivalsConcat(first, second, loaded, Loaded(codec, initialStore));
      LoadedAfterConcat(first, second, loaded);
      added1 := Interleave(first);
      // the head examined after the `await` is the one that was run
      assert tasks[0] == ran;
      if ShouldRemove(success, failures, clock(attempt) - ran.Time()) {
        tasks := tasks[1..];
        removed', counts', failures' := removed + [ran], counts + [failures + 1], 0;
        SaveTasks();
        added2 := Interleave(second);
        arrived' := arrived + (added1 + added2);
        RemovedHead(origin, arrived, removed, before, added1, added2);
      } else {
        removed', counts', failures' := removed, counts, failures + 1;
        added2 := Interleave(second);
        arrived' := arrived + (added1 + added2);
        KeptHead(origin, arrived, removed, before, added1, added2);
      }
    }

    /** The initializer's background task: load, then process. It is stated for the
        schedule where no processor has started yet. An `enqueue` that runs before this
        task's `loadTasks` may start a processor first; that schedule is the one where
        `LoadCall` and `ProcessCall` arrive through `Interleave` while that processor is
        suspended. Since this task does the one load, no `LoadCall` is interleaved here. */
    method Start(outcome: nat -> bool, clock: nat -> int, during: seq<seq<ActorCall>>)
      returns (removed: seq<Task>, runs: seq<nat>, ghost interleaved: seq<ActorCall>)
      requires Valid() && !isProcessing
      requires LoadsOnce(Calls(during, 0), true)
      modifies this
      ensures Valid() && loaded && !isProcessing && tasks == []
      ensures |removed| >= |old(tasks) + Loaded(codec, old(store))|
      ensures removed[..|old(tasks) + Loaded(codec, old(store))|] == old(tasks) + Loaded(codec, old(store))
      ensures interleaved <= Calls(during, 0) && LoadsOnce(interleaved, true)
      ensures removed == old(tasks) + Loaded(codec, old(store)) + Arrivals(interleaved, true, Loaded(codec, initialStore))
      ensures during == [] ==> removed == old(tasks) + Loaded(codec, old(store))
      ensures removed != [] ==> store == Stored([])
      ensures runs == Schedule(removed, outcome, clock)
    {
      LoadTasks();
      var sleeps;
      ghost var arrived;
      removed, runs, sleeps, arrived, interleaved := ProcessQueue(outcome, clock, during);
    }
  }
}
