/**
 * Sources/Quanta/UserUpdateTask.swift: the separator-stripping `safe`, the
 * record-separated user description `UserData.string`, and the legacy
 * user-profile upload `UserUpdateTask`.
 */
module UserUpdates {

  import opened Text
  import opened Http

  /** `safe(value, keepUnitSeparator:)`: strips record separators, and unit separators too unless told to keep them. */
  function Safe(value: string, keepUnitSeparator: bool): (r: string)
    ensures RecordSeparator !in r
    ensures !keepUnitSeparator ==> UnitSeparator !in r
    ensures forall x :: x != RecordSeparator && (keepUnitSeparator || x != UnitSeparator) ==> (x in r <==> x in value)
    ensures RecordSeparator !in value && (keepUnitSeparator || UnitSeparator !in value) ==> r == value
    ensures |r| <= |value|
  {
    if keepUnitSeparator then RemoveChar(value, RecordSeparator)
    else RemoveChar(RemoveChar(value, RecordSeparator), UnitSeparator)
  }

  lemma SafeIdempotent(value: string, keepUnitSeparator: bool)
    ensures Safe(Safe(value, keepUnitSeparator), keepUnitSeparator) == Safe(value, keepUnitSeparator)
  {
  }

  /** The longest bundle id and version that are sent unshortened. */
  const MaxFieldLength: nat := 50

  datatype UserData = UserData(id: string, appId: string, device: string, os: string, bundleId: string,
                               debugFlags: int, version: string, language: string)
  {
    /** The eight fields, in wire order, as `string` writes them. */
    function Fields(): seq<string>
    {
      [id, appId, Safe(device, false), Safe(os, false), Safe(Take(bundleId, MaxFieldLength), false),
       IntToString(debugFlags), Safe(Take(version, MaxFieldLength), false), language]
    }

    /** `UserData.string`. */
    function ToString(): string
    {
      var bundleId := Take(this.bundleId, MaxFieldLength);
      var version := Take(this.version, MaxFieldLength);
      id + [RecordSeparator] + appId + [RecordSeparator] + Safe(device, false)
      + [RecordSeparator] + Safe(os, false) + [RecordSeparator] + Safe(bundleId, false)
      + [RecordSeparator] + IntToString(debugFlags) + [RecordSeparator] + Safe(version, false)
      + [RecordSeparator] + language
    }
  }

  /** `string` is the eight fields joined by the record separator. */
  lemma UserDataLayout(u: UserData)
    ensures u.ToString() == Join(u.Fields(), RecordSeparator)
  {
    var f := u.Fields();
    JoinEight(f[0], f[1], f[2], f[3], f[4], f[5], f[6], f[7], RecordSeparator);
    assert f == [f[0], f[1], f[2], f[3], f[4], f[5], f[6], f[7]];
  }

  lemma JoinEight(a0: string, a1: string, a2: string, a3: string, a4: string, a5: string, a6: string, a7: string, d: char)
    ensures a0 + [d] + a1 + [d] + a2 + [d] + a3 + [d] + a4 + [d] + a5 + [d] + a6 + [d] + a7
         == Join([a0, a1, a2, a3, a4, a5, a6, a7], d)
  {
    var f1 := [a0];
    var f2 := f1 + [a1];
    var f3 := f2 + [a2];
    var f4 := f3 + [a3];
    var f5 := f4 + [a4];
    var f6 := f5 + [a5];
    var f7 := f6 + [a6];
    var f8 := f7 + [a7];
    JoinSnoc(f1, a1, d);
    JoinSnoc(f2, a2, d);
    JoinSnoc(f3, a3, d);
    JoinSnoc(f4, a4, d);
    JoinSnoc(f5, a5, d);
    JoinSnoc(f6, a6, d);
    JoinSnoc(f7, a7, d);
    assert f8 == [a0, a1, a2, a3, a4, a5, a6, a7];
  }

  /** When id, app id and language hold no record separator, splitting `string` on
      it gives back exactly the eight fields, with bundle id and version cut to 50. */
  lemma UserDataSplit(u: UserData)
    requires RecordSeparator !in u.id && RecordSeparator !in u.appId && RecordSeparator !in u.language
    ensures Split(u.ToString(), RecordSeparator) == u.Fields()
    ensures |Split(u.ToString(), RecordSeparator)| == 8
    ensures |Split(u.ToString(), RecordSeparator)[4]| <= MaxFieldLength
    ensures |Split(u.ToString(), RecordSeparator)[6]| <= MaxFieldLength
  {
    var flags := IntToString(u.debugFlags);
    assert RecordSeparator !in flags by {
      assert forall k :: 0 <= k < |flags| ==> flags[k] != RecordSeparator;
    }
    var f := u.Fields();
    SplitEight(f[0], f[1], f[2], f[3], f[4], f[5], f[6], f[7], RecordSeparator);
    assert f == [f[0], f[1], f[2], f[3], f[4], f[5], f[6], f[7]];
    assert |f[4]| <= |Take(u.bundleId, MaxFieldLength)| <= MaxFieldLength;
    assert |f[6]| <= |Take(u.version, MaxFieldLength)| <= MaxFieldLength;
  }

  lemma SplitEight(a0: string, a1: string, a2: string, a3: string, a4: string, a5: string, a6: string, a7: string, d: char)
    requires d !in a0 && d !in a1 && d !in a2 && d !in a3 && d !in a4 && d !in a5 && d !in a6 && d !in a7
    ensures Split(a0 + [d] + a1 + [d] + a2 + [d] + a3 + [d] + a4 + [d] + a5 + [d] + a6 + [d] + a7, d)
         == [a0, a1, a2, a3, a4, a5, a6, a7]
  {
    var f := [a0, a1, a2, a3, a4, a5, a6, a7];
    JoinEight(a0, a1, a2, a3, a4, a5, a6, a7, d);
    assert forall i :: 0 <= i < |f| ==> d !in f[i] by {
      assert forall i :: 0 <= i < |f| ==> f[i] in f;
    }
    SplitJoinFields(f, d);
  }

  /** The deprecated user-profile upload. */
  datatype UserUpdateTask = UserUpdateTask(time: int, id: string, appId: string, device: string, os: string,
                                           bundleId: string, debugFlags: int, version: string, language: string)

  const UserUpdateEndpoint: string := "https://analytics-ingress.quanta.tools/u/"

  /** The URL `run` posts to; `formatDate` is the ISO-8601 formatter and `encode`
      the percent-encoding for URL hosts. */
  function UserUpdateUrl(t: UserUpdateTask, formatDate: int -> string, encode: string -> string): string
  {
    UserUpdateEndpoint + formatDate(t.time) + "/" + t.id + "/" + t.appId + "/" + encode(t.device)
    + "/" + encode(t.os) + "/" + encode(t.bundleId) + "/" + IntToString(t.debugFlags)
    + "/" + encode(t.version) + "/" + t.language
  }

  /** The nine path segments after the endpoint, in order. */
  function UserUpdateSegments(t: UserUpdateTask, formatDate: int -> string, encode: string -> string): seq<string>
  {
    [formatDate(t.time), t.id, t.appId, encode(t.device), encode(t.os), encode(t.bundleId),
     IntToString(t.debugFlags), encode(t.version), t.language]
  }

  lemma UserUpdateUrlLayout(t: UserUpdateTask, formatDate: int -> string, encode: string -> string)
    ensures UserUpdateUrl(t, formatDate, encode)
         == UserUpdateEndpoint + Join(UserUpdateSegments(t, formatDate, encode), '/')
  {
    var e, d := UserUpdateEndpoint, '/';
    var g1 := [formatDate(t.time)];
    var g2 := g1 + [t.id];
    var g3 := g2 + [t.appId];
    var g4 := g3 + [encode(t.device)];
    var g5 := g4 + [encode(t.os)];
    var g6 := g5 + [encode(t.bundleId)];
    var g7 := g6 + [IntToString(t.debugFlags)];
    var g8 := g7 + [encode(t.version)];
    var g9 := g8 + [t.language];
    JoinPiece(e, g1, t.id, d);
    JoinPiece(e, g2, t.appId, d);
    JoinPiece(e, g3, encode(t.device), d);
    JoinPiece(e, g4, encode(t.os), d);
    JoinPiece(e, g5, encode(t.bundleId), d);
    JoinPiece(e, g6, IntToString(t.debugFlags), d);
    JoinPiece(e, g7, encode(t.version), d);
    JoinPiece(e, g8, t.language, d);
    assert g9 == UserUpdateSegments(t, formatDate, encode);
  }

  /** When no segment holds a '/', the path after the endpoint splits back into the nine segments. */
  lemma UserUpdateUrlSplit(t: UserUpdateTask, formatDate: int -> string, encode: string -> string)
    requires forall g :: g in UserUpdateSegments(t, formatDate, encode) ==> '/' !in g
    ensures var url := UserUpdateUrl(t, formatDate, encode);
      |url| >= |UserUpdateEndpoint| && url[..|UserUpdateEndpoint|] == UserUpdateEndpoint
      && Split(url[|UserUpdateEndpoint|..], '/') == UserUpdateSegments(t, formatDate, encode)
  {
    UserUpdateUrlLayout(t, formatDate, encode);
    var g := UserUpdateSegments(t, formatDate, encode);
    var url := UserUpdateUrl(t, formatDate, encode);
    assert url[|UserUpdateEndpoint|..] == Join(g, '/');
    assert forall i :: 0 <= i < |g| ==> '/' !in g[i] by {
      assert forall i :: 0 <= i < |g| ==> g[i] in g;
    }
    SplitJoinFields(g, '/');
  }

  /** `UserUpdateTask.run`: true only when the URL parses and the response is HTTP 200. */
  function UserUpdateRun(t: UserUpdateTask, formatDate: int -> string, encode: string -> string,
                         isValidUrl: string -> bool, response: Response): (ok: bool)
    ensures ok ==> isValidUrl(UserUpdateUrl(t, formatDate, encode))
    ensures ok ==> response.Received? && response.head.Some? && response.head.value.status == 200
    ensures isValidUrl(UserUpdateUrl(t, formatDate, encode)) && Accepted(response) ==> ok
  {
    isValidUrl(UserUpdateUrl(t, formatDate, encode)) && Accepted(response)
  }
}
