/**
 * Sources/Quanta/LogTask.swift: the deprecated single-event upload `LogTask`
 * (everything in the URL path) and the combined user-and-event upload
 * `UserLogTask` (a record-separated POST body).
 */
module LogTasks {

  import opened Wrappers
  import opened Text
  import opened Http
  import opened UserUpdates

  datatype LogTask = LogTask(appId: string, userId: string, event: string, revenue: string,
                             addedArguments: string, time: int)

  const LogEndpoint: string := "https://analytics-ingress.quanta.tools/e/"

  /** Whether the URL carries a revenue segment. */
  predicate HasRevenueSegment(t: LogTask)
  {
    t.revenue != "0" || t.addedArguments != ""
  }

  /** The URL `LogTask.run` posts to, appended to piece by piece. */
  function LogUrl(t: LogTask, formatDate: int -> string, encode: string -> string): string
  {
    var url := LogEndpoint + t.appId + "/" + t.userId + "/" + formatDate(t.time) + "/" + encode(t.event);
    var url := if HasRevenueSegment(t) then url + "/" + encode(t.revenue) else url;
    if t.addedArguments != "" then url + "/" + encode(t.addedArguments) else url
  }

  /** The path segments after the endpoint: four fixed ones, then revenue and arguments when present. */
  function LogSegments(t: LogTask, formatDate: int -> string, encode: string -> string): (g: seq<string>)
    ensures |g| == 4 + (if HasRevenueSegment(t) then 1 else 0) + (if t.addedArguments != "" then 1 else 0)
    ensures t.addedArguments != "" ==> |g| == 6 && g[4] == encode(t.revenue) && g[5] == encode(t.addedArguments)
    ensures t.addedArguments == "" && HasRevenueSegment(t) ==> g[4] == encode(t.revenue)
    ensures g[..4] == [t.appId, t.userId, formatDate(t.time), encode(t.event)]
  {
    [t.appId, t.userId, formatDate(t.time), encode(t.event)]
    + (if HasRevenueSegment(t) then [encode(t.revenue)] else [])
    + (if t.addedArguments != "" then [encode(t.addedArguments)] else [])
  }

  lemma JoinFour(a0: string, a1: string, a2: string, a3: string, d: char)
    ensures a0 + [d] + a1 + [d] + a2 + [d] + a3 == Join([a0, a1, a2, a3], d)
  {
    var f1 := [a0];
    var f2 := f1 + [a1];
    var f3 := f2 + [a2];
    var f4 := f3 + [a3];
    JoinSnoc(f1, a1, d);
    JoinSnoc(f2, a2, d);
    JoinSnoc(f3, a3, d);
    assert f4 == [a0, a1, a2, a3];
  }

  /** The URL is the endpoint followed by the segments joined with '/'. */
  lemma LogUrlLayout(t: LogTask, formatDate: int -> string, encode: string -> string)
    ensures LogUrl(t, formatDate, encode) == LogEndpoint + Join(LogSegments(t, formatDate, encode), '/')
  {
    var d := '/';
    var fixed := [t.appId, t.userId, formatDate(t.time), encode(t.event)];
    JoinFour(t.appId, t.userId, formatDate(t.time), encode(t.event), d);
    var base := LogEndpoint + t.appId + "/" + t.userId + "/" + formatDate(t.time) + "/" + encode(t.event);
    assert base == LogEndpoint + Join(fixed, d);
    var withRevenue := if HasRevenueSegment(t) then fixed + [encode(t.revenue)] else fixed;
    var url1 := if HasRevenueSegment(t) then base + "/" + encode(t.revenue) else base;
    if HasRevenueSegment(t) {
      JoinSnoc(fixed, encode(t.revenue), d);
    }
    assert url1 == LogEndpoint + Join(withRevenue, d);
    if t.addedArguments != "" {
      JoinSnoc(withRevenue, encode(t.addedArguments), d);
      assert LogSegments(t, formatDate, encode) == withRevenue + [encode(t.addedArguments)];
    } else {
      assert LogSegments(t, formatDate, encode) == withRevenue;
    }
  }

  /** When no segment holds a '/', the path after the endpoint splits back into the segments. */
  lemma LogUrlSplit(t: LogTask, formatDate: int -> string, encode: string -> string)
    requires forall g :: g in LogSegments(t, formatDate, encode) ==> '/' !in g
    ensures var url := LogUrl(t, formatDate, encode);
      |url| >= |LogEndpoint| && url[..|LogEndpoint|] == LogEndpoint
      && Split(url[|LogEndpoint|..], '/') == LogSegments(t, formatDate, encode)
  {
    LogUrlLayout(t, formatDate, encode);
    var g := LogSegments(t, formatDate, encode);
    var url := LogUrl(t, formatDate, encode);
    assert url[|LogEndpoint|..] == Join(g, '/');
    assert forall i :: 0 <= i < |g| ==> '/' !in g[i] by {
      assert forall i :: 0 <= i < |g| ==> g[i] in g;
    }
    SplitJoinFields(g, '/');
  }

  /** `LogTask.run`: true only when the URL parses and the response is HTTP 200. */
  function LogRun(t: LogTask, formatDate: int -> string, encode: string -> string,
                  isValidUrl: string -> bool, response: Response): (ok: bool)
    ensures ok ==> isValidUrl(LogUrl(t, formatDate, encode))
    ensures ok ==> response.Received? && response.head.Some? && response.head.value.status == 200
    ensures isValidUrl(LogUrl(t, formatDate, encode)) && Accepted(response) ==> ok
  {
    isValidUrl(LogUrl(t, formatDate, encode)) && Accepted(response)
  }

  // ---------------------------------------------------------------------------

  datatype UserLogTask = UserLogTask(appId: string, userData: string, event: string, revenue: string,
                                     addedArguments: string, time: int, abLetters: Option<string>)

  const UserLogEndpoint: string := "https://analytics-ingress.quanta.tools/ee/"

  /** The POST body of `UserLogTask.run`, appended to piece by piece. */
  function UserLogBody(t: UserLogTask): string
  {
    var rs := [RecordSeparator];
    var body := t.appId + rs + IntToString(t.time) + rs + Safe(t.event, false) + rs + Safe(t.revenue, false)
                + rs + Safe(t.addedArguments, true) + rs + t.userData;
    match t.abLetters
    case Some(ab) => body + rs + ab
    case None => body
  }

  /** The body's fields: six fixed ones and the A/B letters when there are any. */
  function UserLogFields(t: UserLogTask): (f: seq<string>)
    ensures |f| == if t.abLetters.Some? then 7 else 6
    ensures t.abLetters.Some? ==> f[6] == t.abLetters.value
  {
    [t.appId, IntToString(t.time), Safe(t.event, false), Safe(t.revenue, false), Safe(t.addedArguments, true), t.userData]
    + (match t.abLetters case Some(ab) => [ab] case None => [])
  }

  lemma JoinSix(a0: string, a1: string, a2: string, a3: string, a4: string, a5: string, d: char)
    ensures a0 + [d] + a1 + [d] + a2 + [d] + a3 + [d] + a4 + [d] + a5 == Join([a0, a1, a2, a3, a4, a5], d)
  {
    var f1 := [a0];
    var f2 := f1 + [a1];
    var f3 := f2 + [a2];
    var f4 := f3 + [a3];
    var f5 := f4 + [a4];
    var f6 := f5 + [a5];
    JoinSnoc(f1, a1, d);
    JoinSnoc(f2, a2, d);
    JoinSnoc(f3, a3, d);
    JoinSnoc(f4, a4, d);
    JoinSnoc(f5, a5, d);
    assert f6 == [a0, a1, a2, a3, a4, a5];
  }

  /** The body is its fields joined by the record separator. */
  lemma UserLogBodyLayout(t: UserLogTask)
    ensures UserLogBody(t) == Join(UserLogFields(t), RecordSeparator)
  {
    var f := UserLogFields(t);
    var fixed := f[..6];
    JoinSix(f[0], f[1], f[2], f[3], f[4], f[5], RecordSeparator);
    assert fixed == [f[0], f[1], f[2], f[3], f[4], f[5]];
    if t.abLetters.Some? {
      JoinSnoc(fixed, t.abLetters.value, RecordSeparator);
      assert f == fixed + [t.abLetters.value];
    } else {
      assert f == fixed;
    }
  }

  /** Splitting the body: app id, time, event, revenue and arguments, then the pieces of
      the user data (itself record-separated), then the A/B letters when present. */
  lemma UserLogBodySplit(t: UserLogTask)
    requires RecordSeparator !in t.appId
    requires t.abLetters.Some? ==> RecordSeparator !in t.abLetters.value
    ensures Split(UserLogBody(t), RecordSeparator)
         == [t.appId, IntToString(t.time), Safe(t.event, false), Safe(t.revenue, false), Safe(t.addedArguments, true)]
            + Split(t.userData, RecordSeparator)
            + (match t.abLetters case Some(ab) => [ab] case None => [])
  {
    var d := RecordSeparator;
    var rs := [d];
    var a0, a1, a2, a3, a4 := t.appId, IntToString(t.time), Safe(t.event, false), Safe(t.revenue, false), Safe(t.addedArguments, true);
    assert d !in a1;
    var body := a0 + rs + a1 + rs + a2 + rs + a3 + rs + a4 + rs + t.userData;
    SplitFiveThen(a0, a1, a2, a3, a4, t.userData, d);
    if t.abLetters.Some? {
      SplitConcat(body, t.abLetters.value, d);
      SplitWithoutSeparator(t.abLetters.value, d);
    }
  }

  /** Five separator-free fields followed by a last piece split into the fields and that piece's own split. */
  lemma SplitFiveThen(a0: string, a1: string, a2: string, a3: string, a4: string, u: string, d: char)
    requires d !in a0 && d !in a1 && d !in a2 && d !in a3 && d !in a4
    ensures Split(a0 + [d] + a1 + [d] + a2 + [d] + a3 + [d] + a4 + [d] + u, d) == [a0, a1, a2, a3, a4] + Split(u, d)
  {
    var x1 := a0 + [d] + a1;
    var x2 := x1 + [d] + a2;
    var x3 := x2 + [d] + a3;
    var x4 := x3 + [d] + a4;
    SplitWithoutSeparator(a0, d);
    SplitWithoutSeparator(a1, d);
    SplitWithoutSeparator(a2, d);
    SplitWithoutSeparator(a3, d);
    SplitWithoutSeparator(a4, d);
    SplitConcat(a0, a1, d);
    SplitConcat(x1, a2, d);
    SplitConcat(x2, a3, d);
    SplitConcat(x3, a4, d);
    SplitConcat(x4, u, d);
  }

  /** A combined deployment: with a UserData string as its user data, the body splits into
      five event fields, the eight user fields and the optional letters. */
  lemma UserLogBodyWithUserData(t: UserLogTask, u: UserData)
    requires t.userData == u.ToString()
    requires RecordSeparator !in t.appId
    requires t.abLetters.Some? ==> RecordSeparator !in t.abLetters.value
    requires RecordSeparator !in u.id && RecordSeparator !in u.appId && RecordSeparator !in u.language
    ensures |Split(UserLogBody(t), RecordSeparator)| == if t.abLetters.Some? then 14 else 13
    ensures Split(UserLogBody(t), RecordSeparator)[5..13] == u.Fields()
  {
    UserLogBodySplit(t);
    UserDataSplit(u);
  }

  /** The request `UserLogTask.run` sends: the stored A/B version, if any, goes in the X-AB-Version header. */
  datatype Request = Request(url: string, body: string, abVersionHeader: Option<string>)

  function UserLogRequest(t: UserLogTask, storedAbVersion: Option<string>): (r: Request)
    ensures r.url == UserLogEndpoint && r.body == UserLogBody(t) && r.abVersionHeader == storedAbVersion
  {
    Request(UserLogEndpoint, UserLogBody(t), storedAbVersion)
  }

  /** What `UserLogTask.run` reports and what it writes back: the A/B configuration to store
      and apply, and the A/B version header to store. */
  datatype UserLogOutcome = UserLogOutcome(success: bool, abJson: Option<string>, abVersion: Option<string>)

  function UserLogRun(response: Response): (o: UserLogOutcome)
    ensures o.success <==> Accepted(response)
    ensures o.abJson.Some? <==> response.Received? && response.json.Some? && response.json.value != ""
    ensures o.abJson.Some? ==> o.abJson.value == response.json.value
    ensures o.abVersion.Some? <==> response.Received? && response.head.Some? && response.head.value.abVersion.Some?
    ensures o.abVersion.Some? ==> o.abVersion == response.head.value.abVersion
  {
    match response
    case TransportError => UserLogOutcome(false, None, None)
    case Received(json, head) =>
      var ab := if json.Some? && json.value != "" then json else None;
      match head
      case None => UserLogOutcome(false, ab, None)
      case Some(h) => UserLogOutcome(h.status == 200, ab, h.abVersion)
  }

  /** The configuration is applied whatever the status: any reply other than 200 that
      carries JSON fails the run and still hands the JSON on. */
  lemma AbConfigAppliedOnFailure(json: string, status: int, abVersion: Option<string>)
    requires json != "" && status != 200
    ensures var o := UserLogRun(Received(Some(json), Some(HttpHead(status, abVersion))));
      !o.success && o.abJson == Some(json) && o.abVersion == abVersion
  {
  }
}
