/**
 * Sources/Quanta/Quanta.swift: the public facade. Its static state (the user id,
 * the app id override, the initialised flag, the settings and the A/B results)
 * is the class `Quanta`; `UserDefaults` is a field holding the saved id, and the
 * tasks handed to the upload queue are kept in the order they are handed over.
 * Everything the facade asks of the platform (the clock, the device and system
 * strings, the build flags, Quanta.plist, a fresh random UUID) arrives in `Env`.
 */
module Facade {

  import opened Wrappers
  import opened Text
  import opened Order
  import opened QuantaId
  import opened UserUpdates
  import opened LogTasks
  import Queue
  import Ab

  // ---------------------------------------------------------------------------
  // Ids

  /** What the id and app id setters store: the Quanta id of a textual UUID, any other text as it is. */
  function StoredId(value: string): (r: string)
    ensures ParseUuid(value).Some? ==> |r| == 22 && UuidFromQuantaId(r) == Ok(ParseUuid(value).value)
    ensures ParseUuid(value).None? ==> r == value
  {
    match ParseUuid(value)
    case Some(u) => ShortenRoundTrip(u); Shorten(u)
    case None => value
  }

  /** Storing a stored id again changes nothing: a Quanta id never parses as a UUID. */
  lemma StoredIdIdempotent(value: string)
    ensures StoredId(StoredId(value)) == StoredId(value)
  {
    match ParseUuid(value)
    case Some(u) => ShortenIsNotUuidText(u);
    case None =>
  }

  /** A UUID written out in its canonical text is stored as its Quanta id. */
  lemma StoredUuidText(u: Uuid)
    ensures StoredId(FormatUuid(u)) == Shorten(u)
    ensures UuidFromQuantaId(StoredId(FormatUuid(u))) == Ok(u)
  {
    FormatParseRoundTrip(u);
  }

  /** A freshly shortened UUID is stored unchanged. */
  lemma StoredShortId(u: Uuid)
    ensures StoredId(Shorten(u)) == Shorten(u)
  {
    ShortenIsNotUuidText(u);
  }

  /** `plistAppId`: the AppId entry of Quanta.plist, stored like an id; "" when the
      file or the entry is missing (`plist` is None then). */
  function PlistAppId(plist: Option<string>): (r: string)
    ensures plist.None? ==> r == ""
    ensures plist.Some? ==> r == StoredId(plist.value)
  {
    match plist
    case None => ""
    case Some(value) => StoredId(value)
  }

  // ---------------------------------------------------------------------------
  // Debug flags

  /** `debugFlags`: bit 0 for a debug build, bit 1 for the simulator, bit 2 for TestFlight. */
  function DebugFlags(isDebug: bool, isSimulator: bool, isTestFlight: bool): (flags: int)
    ensures 0 <= flags < 8
    ensures flags % 2 == 1 <==> isDebug
    ensures (flags / 2) % 2 == 1 <==> isSimulator
    ensures flags / 4 == 1 <==> isTestFlight
  {
    var f: bv8 := 0;
    var f := if isDebug then f | 1 else f;
    var f := if isSimulator then f | 2 else f;
    var f := if isTestFlight then f | 4 else f;
    f as int
  }

  /** No two builds share their flags. */
  lemma DebugFlagsInjective(d: bool, s: bool, t: bool, d': bool, s': bool, t': bool)
    requires DebugFlags(d, s, t) == DebugFlags(d', s', t')
    ensures d == d' && s == s' && t == t'
  {
  }

  // ---------------------------------------------------------------------------
  // The event and argument budget of `log_`

  /** Event name plus arguments are at most this long. */
  const MaxEventLength: nat := 200

  /** The event name cut to 200 characters, and the arguments cut to what is left of
      the 200 (nothing once the name takes all of it). */
  function Budget(event: string, addedArguments: string): (r: (string, string))
    ensures r.0 <= event && r.1 <= addedArguments
    ensures |r.0| + |r.1| <= MaxEventLength
    ensures |r.0| == if |event| <= MaxEventLength then |event| else MaxEventLength
    ensures |r.0| == MaxEventLength ==> r.1 == ""
    ensures |r.0| < MaxEventLength ==>
      |r.1| == if |r.0| + |addedArguments| <= MaxEventLength then |addedArguments| else MaxEventLength - |r.0|
  {
    var e := Take(event, MaxEventLength);
    var a := if |e| >= MaxEventLength then "" else Take(addedArguments, MaxEventLength - |e|);
    (e, a)
  }

  /** Within the budget nothing is cut. */
  lemma BudgetKeepsShortInput(event: string, addedArguments: string)
    requires |event| + |addedArguments| <= MaxEventLength
    ensures Budget(event, addedArguments) == (event, addedArguments)
  {
    var r := Budget(event, addedArguments);
    assert r.0 == event[..|r.0|];
    assert r.1 == addedArguments[..|r.1|];
  }

  // ---------------------------------------------------------------------------
  // `log(event:revenue:addedArguments:)` with a dictionary

  /** A key or value with the unit separator removed. */
  function Strip(s: string): (r: string)
    ensures UnitSeparator !in r
  {
    RemoveChar(s, UnitSeparator)
  }

  /** The stripped key, value, key, value, ... of the given keys. */
  function ArgFields(keys: seq<string>, args: map<string, string>): (r: seq<string>)
    requires forall k :: k in keys ==> k in args
    ensures |r| == 2 * |keys|
    ensures forall i :: 0 <= i < |keys| ==> r[2 * i] == Strip(keys[i]) && r[2 * i + 1] == Strip(args[keys[i]])
    ensures forall i :: 0 <= i < |r| ==> UnitSeparator !in r[i]
  {
    if keys == [] then []
    else
      var k := keys[|keys| - 1];
      ArgFields(keys[..|keys| - 1], args) + [Strip(k), Strip(args[k])]
  }

  /** What the loop accumulates: "key US value US" for each key in turn. */
  function Pairs(keys: seq<string>, args: map<string, string>): string
    requires forall k :: k in keys ==> k in args
  {
    if keys == [] then ""
    else
      var k := keys[|keys| - 1];
      Pairs(keys[..|keys| - 1], args) + Strip(k) + [UnitSeparator] + Strip(args[k]) + [UnitSeparator]
  }

  /** The arguments as sent: keys in ascending order, separator-free keys and values, all
      joined by the unit separator; the empty string for no arguments. */
  ghost function ArgString(args: map<string, string>): string
  {
    if args == map[] then "" else Join(ArgFields(SortedKeys(args.Keys), args), UnitSeparator)
  }

  lemma PairsAreJoinedFields(keys: seq<string>, args: map<string, string>)
    requires forall k :: k in keys ==> k in args
    requires keys != []
    ensures Pairs(keys, args) == Join(ArgFields(keys, args), UnitSeparator) + [UnitSeparator]
    decreases |keys|
  {
    var init, k := keys[..|keys| - 1], keys[|keys| - 1];
    if init != [] {
      PairsAreJoinedFields(init, args);
    }
    PairStep(Pairs(init, args), ArgFields(init, args), Strip(k), Strip(args[k]), UnitSeparator);
  }

  /** One more key and value, in the accumulated text and in the joined fields. */
  lemma PairStep(p: string, f: seq<string>, x: string, y: string, d: char)
    requires if f == [] then p == "" else p == Join(f, d) + [d]
    ensures p + x + [d] + y + [d] == Join(f + [x, y], d) + [d]
  {
    if f == [] {
      assert f + [x, y] == [x] + [y];
      JoinSnoc([x], y, d);
    } else {
      JoinSnoc(f, x, d);
      JoinSnoc(f + [x], y, d);
      assert f + [x] + [y] == f + [x, y];
    }
  }

  /** No keys exactly when there are no arguments. */
  lemma SortedKeysEmpty(args: map<string, string>)
    ensures SortedKeys(args.Keys) == [] <==> args == map[]
  {
    if args != map[] {
      var k :| k in args;
      assert k in SortedKeys(args.Keys);
    }
  }

  /** The separators come back out: splitting the argument string gives the stripped keys
      and values, keys in ascending order. */
  lemma ArgStringSplit(args: map<string, string>)
    requires args != map[]
    ensures var keys := SortedKeys(args.Keys);
      Split(ArgString(args), UnitSeparator) == ArgFields(keys, args)
      && StrictlySorted(keys) && (forall k :: k in keys <==> k in args)
  {
    var keys := SortedKeys(args.Keys);
    SortedKeysEmpty(args);
    var f := ArgFields(keys, args);
    SplitJoinFields(f, UnitSeparator);
  }

  /** The dictionary `log`: concatenate "key US value US" over the sorted keys, then drop
      the final separator. */
  method EncodeArguments(args: map<string, string>) returns (argString: string)
    ensures argString == ArgString(args)
  {
    var keys := SortKeys(args.Keys);
    argString := "";
    var i := 0;
    while i < |keys|
      invariant 0 <= i <= |keys|
      invariant argString == Pairs(keys[..i], args)
    {
      var key := keys[i];
      assert keys[..i + 1][..i] == keys[..i];
      argString := argString + Strip(key) + [UnitSeparator] + Strip(args[key]) + [UnitSeparator];
      i := i + 1;
    }
    assert keys[..i] == keys;
    if |argString| > 0 {
      argString := argString[..|argString| - 1];
    }
    SortedKeysEmpty(args);
    if keys != [] {
      PairsAreJoinedFields(keys, args);
    }
  }

  // ---------------------------------------------------------------------------
  // The facade

  /** What the facade reads from the platform at the time of a call. */
  datatype Env = Env(now: int, device: string, os: string, language: string,
                     systemBundleId: string, systemAppVersion: string,
                     isDebug: bool, isSimulator: bool, isTestFlight: bool, isPreview: bool,
                     plist: Option<string>, freshUuid: Uuid)

  /** The revenue text `log_` sends for the default revenue of 0. */
  const ZeroRevenue: string := "0"

  /** The launch event `initialize` logs. */
  const LaunchEvent: string := "launch"

  class Quanta {
    var id_: string
    var initialized: bool
    var overrideAppId_: Option<string>
    var bundleId: Option<string>
    var appVersion: Option<string>
    var sendLaunchEvent: bool
    var abLetters: string
    var abNames: seq<seq<string>>
    /** The "tools.quanta.id" entry of the user defaults. */
    var savedId: Option<string>
    /** The tasks handed to the upload queue, in order. */
    var outbox: seq<Queue.Task>

    /** Once initialised, the id has been saved. */
    ghost predicate Valid()
      reads this
    {
      initialized ==> savedId.Some?
    }

    /** The state at launch; `saved` is what the user defaults hold from earlier runs. */
    constructor(saved: Option<string>)
      ensures Valid()
      ensures id_ == "" && !initialized && overrideAppId_.None? && bundleId.None? && appVersion.None?
      ensures sendLaunchEvent && abLetters == "" && abNames == [] && savedId == saved && outbox == []
    {
      id_ := "";
      initialized := false;
      overrideAppId_ := None;
      bundleId := None;
      appVersion := None;
      sendLaunchEvent := true;
      abLetters := "";
      abNames := [];
      savedId := saved;
      outbox := [];
    }

    /** The `id` setter: only the first non-empty assignment sticks. */
    method SetId(newValue: string)
      modifies this`id_
      ensures id_ == if old(id_) == "" then StoredId(newValue) else old(id_)
    {
      if id_ == "" {
        id_ := StoredId(newValue);
      }
    }

    /** The `appId` getter: the override, else Quanta.plist. */
    function AppId(plist: Option<string>): (r: string)
      reads this
      ensures overrideAppId_.Some? ==> r == overrideAppId_.value
      ensures overrideAppId_.None? ==> r == PlistAppId(plist)
    {
      overrideAppId_.GetOr(PlistAppId(plist))
    }

    /** The `appId` setter, through `overrideAppId`. */
    method SetAppId(newValue: string)
      modifies this`overrideAppId_
      ensures overrideAppId_ == Some(StoredId(newValue))
      ensures forall plist :: AppId(plist) == StoredId(newValue)
    {
      overrideAppId_ := Some(StoredId(newValue));
    }

    /** The user update `sendUserUpdate` would enqueue now. */
    function UserUpdateNow(env: Env): (t: UserUpdateTask)
      reads this
      ensures t.bundleId <= bundleId.GetOr(env.systemBundleId)
      ensures |t.bundleId| == if |bundleId.GetOr(env.systemBundleId)| <= MaxFieldLength
                              then |bundleId.GetOr(env.systemBundleId)| else MaxFieldLength
      ensures t.version <= appVersion.GetOr(env.systemAppVersion)
      ensures |t.version| == if |appVersion.GetOr(env.systemAppVersion)| <= MaxFieldLength
                             then |appVersion.GetOr(env.systemAppVersion)| else MaxFieldLength
      ensures t.id == id_ && t.appId == AppId(env.plist) && t.time == env.now
      ensures t.device == env.device && t.os == env.os && t.language == env.language
      ensures t.debugFlags == DebugFlags(env.isDebug, env.isSimulator, env.isTestFlight)
    {
      UserUpdateTask(env.now, id_, AppId(env.plist), env.device, env.os,
                     Take(bundleId.GetOr(env.systemBundleId), MaxFieldLength),
                     DebugFlags(env.isDebug, env.isSimulator, env.isTestFlight),
                     Take(appVersion.GetOr(env.systemAppVersion), MaxFieldLength),
                     env.language)
    }

    /** The event `log_` would enqueue now. */
    function LogNow(event: string, revenue: string, addedArguments: string, env: Env): (t: LogTask)
      reads this
      ensures t.event == Budget(event, addedArguments).0 && t.addedArguments == Budget(event, addedArguments).1
      ensures |t.event| + |t.addedArguments| <= MaxEventLength
      ensures t.userId == id_ && t.appId == AppId(env.plist) && t.revenue == revenue && t.time == env.now
    {
      var (e, a) := Budget(event, addedArguments);
      LogTask(AppId(env.plist), id_, e, revenue, a, env.now)
    }

    /** The tasks the first `initialize` enqueues once the id is set. */
    function StartupTasks(env: Env): (ts: seq<Queue.Task>)
      reads this
      ensures env.isPreview ==> ts == []
      ensures !env.isPreview ==> |ts| == (if sendLaunchEvent then 2 else 1) && ts[0] == Queue.UserUpdate(UserUpdateNow(env))
      ensures !env.isPreview && sendLaunchEvent ==> ts[1] == Queue.Log(LogNow(LaunchEvent, ZeroRevenue, "", env))
    {
      if env.isPreview then []
      else [Queue.UserUpdate(UserUpdateNow(env))]
           + (if sendLaunchEvent then [Queue.Log(LogNow(LaunchEvent, ZeroRevenue, "", env))] else [])
    }

    /** The part of `sendUserUpdate` after its `initialize()` call. */
    method EnqueueUserUpdate(env: Env)
      modifies this`outbox
      ensures outbox == old(outbox) + (if env.isPreview then [] else [Queue.UserUpdate(UserUpdateNow(env))])
    {
      var bundleId := Take(this.bundleId.GetOr(env.systemBundleId), MaxFieldLength);
      var version := Take(appVersion.GetOr(env.systemAppVersion), MaxFieldLength);
      if env.isPreview {
        return;
      }
      var t := UserUpdateTask(env.now, id_, AppId(env.plist), env.device, env.os, bundleId,
                              DebugFlags(env.isDebug, env.isSimulator, env.isTestFlight), version, env.language);
      outbox := outbox + [Queue.UserUpdate(t)];
    }

    /** The part of `log_` after its `initialize()` call; `revenue` is the formatted amount. */
    method EnqueueLog(event: string, revenue: string, addedArguments: string, env: Env)
      modifies this`outbox
      ensures outbox == old(outbox) + (if env.isPreview then [] else [Queue.Log(LogNow(event, revenue, addedArguments, env))])
    {
      var event' := Take(event, MaxEventLength);
      var arguments := if |event'| >= MaxEventLength then "" else Take(addedArguments, MaxEventLength - |event'|);
      if env.isPreview {
        return;
      }
      outbox := outbox + [Queue.Log(LogTask(AppId(env.plist), id_, event', revenue, arguments, env.now))];
    }

    /** `initialize`: the first call settles the id (the saved one, else a fresh Quanta id
        that is then saved), sends the user update and the launch event; later calls do
        nothing. The nested `initialize()` inside `sendUserUpdate` and `log_` returns at once. */
    method Initialize(env: Env)
      requires Valid()
      modifies this`id_, this`initialized, this`savedId, this`outbox
      ensures Valid() && initialized
      ensures old(initialized) ==> id_ == old(id_) && savedId == old(savedId) && outbox == old(outbox)
      ensures !old(initialized) ==>
        id_ == (if old(id_) != "" then old(id_) else StoredId(old(savedId).GetOr(Shorten(env.freshUuid))))
        && savedId == (if old(savedId).Some? then old(savedId) else Some(id_))
        && outbox == old(outbox) + StartupTasks(env)
    {
      if initialized {
        return;
      }
      initialized := true;
      SettleId(env);
      ghost var before := outbox;
      EnqueueUserUpdate(env);
      if sendLaunchEvent {
        EnqueueLog(LaunchEvent, ZeroRevenue, "", env);
        ghost var u, l := Queue.UserUpdate(UserUpdateNow(env)), Queue.Log(LogNow(LaunchEvent, ZeroRevenue, "", env));
        assert before + [u] + [l] == before + ([u] + [l]);
      }
    }

    /** The id step of the first `initialize`: the saved id, else a fresh Quanta id that is then saved. */
    method SettleId(env: Env)
      modifies this`id_, this`savedId
      ensures id_ == (if old(id_) != "" then old(id_) else StoredId(old(savedId).GetOr(Shorten(env.freshUuid))))
      ensures savedId == (if old(savedId).Some? then old(savedId) else Some(id_))
    {
      match savedId {
        case Some(previousId) =>
          SetId(previousId);
        case None =>
          SetId(Shorten(env.freshUuid));
          savedId := Some(id_);
      }
    }

    /** `sendUserUpdate`. */
    method SendUserUpdate(env: Env)
      requires Valid()
      modifies this`id_, this`initialized, this`savedId, this`outbox
      ensures Valid() && initialized
      ensures old(initialized) ==> id_ == old(id_) && savedId == old(savedId)
      ensures outbox == old(outbox) + (if old(initialized) then [] else StartupTasks(env))
                       + (if env.isPreview then [] else [Queue.UserUpdate(UserUpdateNow(env))])
    {
      Initialize(env);
      EnqueueUserUpdate(env);
    }

    /** `log_` (and `log` with a string of arguments, which only adds a warning). */
    method Log(event: string, revenue: string, addedArguments: string, env: Env)
      requires Valid()
      modifies this`id_, this`initialized, this`savedId, this`outbox
      ensures Valid() && initialized
      ensures old(initialized) ==> id_ == old(id_) && savedId == old(savedId)
      ensures outbox == old(outbox) + (if old(initialized) then [] else StartupTasks(env))
                       + (if env.isPreview then [] else [Queue.Log(LogNow(event, revenue, addedArguments, env))])
    {
      Initialize(env);
      EnqueueLog(event, revenue, addedArguments, env);
    }

    /** `log` with a dictionary of arguments. */
    method LogArguments(event: string, revenue: string, addedArguments: map<string, string>, env: Env)
      requires Valid()
      modifies this`id_, this`initialized, this`savedId, this`outbox
      ensures Valid() && initialized
      ensures old(initialized) ==> id_ == old(id_) && savedId == old(savedId)
      ensures outbox == old(outbox) + (if old(initialized) then [] else StartupTasks(env))
                       + (if env.isPreview then [] else [Queue.Log(LogNow(event, revenue, ArgString(addedArguments), env))])
    {
      var argString := EncodeArguments(addedArguments);
      Log(event, revenue, argString, env);
    }

    /** `setAbJson` (AB.swift): the letters and names of the decoded experiments for this user. */
    method SetAbJson(abJson: string, decode: string -> Option<seq<Ab.Experiment>>, digest: string -> nat)
      requires decode(abJson).Some? ==> Ab.InRange(decode(abJson).value, id_, digest)
      modifies this`abLetters, this`abNames
      ensures abLetters == Ab.AbLetters(decode(abJson), id_, digest)
      ensures abNames == Ab.AbNames(decode(abJson))
    {
      abLetters := Ab.GetAbLetters(abJson, decode, id_, digest);
      abNames := Ab.AbNames(decode(abJson));
    }
  }
}
