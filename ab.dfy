/**
 * Sources/Quanta/AB.swift: choosing one variant letter per A/B experiment by
 * cumulative weight, and the lower-cased experiment names. The JSON decoder
 * is a parameter (`decode`, None when the text is not a list of experiments),
 * and so is the MD5 digest behind `stringToNumber` (`digest`, the first four
 * bytes of the hash read as a big-endian number).
 */
module Ab {

  import opened Wrappers
  import opened Text

  /** `ABExperiment`: the name path and the variant weights. */
  datatype Experiment = Experiment(name: seq<string>, variants: seq<int>)

  /** The letter of variant k: the k-th of "ABCDEFGHIJKLMNOPQRSTUVWXYZ". */
  function VariantLetter(k: nat): (c: char)
    requires k < 26
    ensures 'A' <= c <= 'Z'
  {
    (65 + k) as char
  }

  /** `stringToNumber` (Hash.swift): the digest's four-byte prefix modulo 100. */
  function Bucket(key: string, digest: string -> nat): (b: nat)
    ensures b < 100
    ensures digest(key) < 100 ==> b == digest(key)
  {
    digest(key) % 100
  }

  /** The hashed key: the user id, a dot, and the last name component (empty when there is none). */
  function BucketKey(id: string, name: seq<string>): (key: string)
    ensures |key| > |id| && key[..|id|] == id && key[|id|] == '.'
    ensures key[|id| + 1..] == if name == [] then "" else name[|name| - 1]
  {
    id + "." + (if name == [] then "" else name[|name| - 1])
  }

  /** The sum of the first n weights. */
  function PrefixSum(vs: seq<int>, n: nat): int
    requires n <= |vs|
  {
    if n == 0 then 0 else PrefixSum(vs, n - 1) + vs[n - 1]
  }

  /** The running total once variant j has been added (`limit` after step j). */
  function RunningTotal(vs: seq<int>, j: nat): int
    requires j < |vs|
  {
    PrefixSum(vs, j + 1)
  }

  /** The first index at or after i whose running total passes the bucket. */
  function FirstExceeding(vs: seq<int>, bucket: int, i: nat): (r: Option<nat>)
    requires i <= |vs|
    ensures r.Some? ==> i <= r.value < |vs| && RunningTotal(vs, r.value) > bucket
    ensures r.Some? ==> forall j :: i <= j < r.value ==> RunningTotal(vs, j) <= bucket
    ensures r.None? ==> forall j :: i <= j < |vs| ==> RunningTotal(vs, j) <= bucket
    decreases |vs| - i
  {
    if i == |vs| then None
    else if RunningTotal(vs, i) > bucket then Some(i)
    else FirstExceeding(vs, bucket, i + 1)
  }

  /** The chosen variant: the smallest index whose running total passes the bucket,
      or none when no running total does. */
  function VariantIndex(vs: seq<int>, bucket: int): (r: Option<nat>)
    ensures r.Some? ==> r.value < |vs| && RunningTotal(vs, r.value) > bucket
                        && forall j :: 0 <= j < r.value ==> RunningTotal(vs, j) <= bucket
    ensures r.None? <==> forall j :: 0 <= j < |vs| ==> RunningTotal(vs, j) <= bucket
  {
    FirstExceeding(vs, bucket, 0)
  }

  /** The variant chosen for one experiment and one user. */
  function Choice(e: Experiment, id: string, digest: string -> nat): Option<nat>
  {
    VariantIndex(e.variants, Bucket(BucketKey(id, e.name), digest))
  }

  /** The letter lookup does not trap: every chosen index names a letter. */
  predicate InRange(exps: seq<Experiment>, id: string, digest: string -> nat)
  {
    forall i :: 0 <= i < |exps| ==> Choice(exps[i], id, digest).Some? ==> Choice(exps[i], id, digest).value < 26
  }

  /** What one experiment contributes: its variant's letter, or nothing. An index past
      'Z' traps in the source; `GetAbLetters` requires that it does not happen, and the
      empty string stands in for it here only so that the specification is total. */
  function LetterOf(e: Experiment, id: string, digest: string -> nat): (r: string)
    ensures Choice(e, id, digest).None? ==> r == ""
    ensures Choice(e, id, digest).Some? && Choice(e, id, digest).value < 26
            ==> r == [VariantLetter(Choice(e, id, digest).value)]
  {
    match Choice(e, id, digest)
    case None => ""
    case Some(k) => if k < 26 then [VariantLetter(k)] else ""
  }

  /** The letters of the experiments, in order. */
  function Letters(exps: seq<Experiment>, id: string, digest: string -> nat): (r: string)
    ensures |r| <= |exps|
    ensures forall k :: 0 <= k < |r| ==> 'A' <= r[k] <= 'Z'
  {
    if exps == [] then ""
    else Letters(exps[..|exps| - 1], id, digest) + LetterOf(exps[|exps| - 1], id, digest)
  }

  /** `getAbLetters(for:)` as a value: no letters for undecodable JSON. */
  function AbLetters(parsed: Option<seq<Experiment>>, id: string, digest: string -> nat): (r: string)
    ensures parsed.None? ==> r == ""
    ensures parsed.Some? ==> |r| <= |parsed.value|
  {
    match parsed
    case None => ""
    case Some(exps) => Letters(exps, id, digest)
  }

  /** One more experiment adds its letter at the end. */
  lemma LettersSnoc(exps: seq<Experiment>, e: Experiment, id: string, digest: string -> nat)
    ensures Letters(exps + [e], id, digest) == Letters(exps, id, digest) + LetterOf(e, id, digest)
  {
    assert (exps + [e])[..|exps|] == exps;
  }

  /** The letters of one more experiment of a list. */
  lemma LettersPrefix(exps: seq<Experiment>, i: nat, id: string, digest: string -> nat)
    requires i < |exps|
    ensures Letters(exps[..i + 1], id, digest) == Letters(exps[..i], id, digest) + LetterOf(exps[i], id, digest)
  {
    assert exps[..i + 1] == exps[..i] + [exps[i]];
    LettersSnoc(exps[..i], exps[i], id, digest);
  }

  lemma SplitLast<T>(a: seq<T>, b: seq<T>)
    requires b != []
    ensures a + b == (a + b[..|b| - 1]) + [b[|b| - 1]]
  {
    assert b == b[..|b| - 1] + [b[|b| - 1]];
  }

  lemma AppendAssoc(x: string, y: string, z: string)
    ensures (x + y) + z == x + (y + z)
  {
  }

  /** Letters of two runs of experiments are the letters of each, in order. */
  lemma {:induction false} LettersConcat(a: seq<Experiment>, b: seq<Experiment>, id: string, digest: string -> nat)
    ensures Letters(a + b, id, digest) == Letters(a, id, digest) + Letters(b, id, digest)
    decreases |b|
  {
    if b == [] {
      assert a + b == a;
    } else {
      var init, last := b[..|b| - 1], b[|b| - 1];
      LettersConcat(a, init, id, digest);
      SplitLast(a, b);
      LettersSnoc(a + init, last, id, digest);
      AppendAssoc(Letters(a, id, digest), Letters(init, id, digest), LetterOf(last, id, digest));
    }
  }

  /** The inner loop of `getAbLetters(for:)`: add up the weights until the total
      passes the user's bucket, and give that variant's letter. */
  method ChooseLetter(exp: Experiment, id: string, digest: string -> nat) returns (letter: string)
    requires Choice(exp, id, digest).Some? ==> Choice(exp, id, digest).value < 26
    ensures letter == LetterOf(exp, id, digest)
  {
    var key := BucketKey(id, exp.name);
    var bucket := Bucket(key, digest);
    var limit := 0;
    var idx := 0;
    letter := "";
    while idx < |exp.variants|
      invariant 0 <= idx <= |exp.variants|
      invariant limit == PrefixSum(exp.variants, idx)
      invariant FirstExceeding(exp.variants, bucket, idx) == Choice(exp, id, digest)
    {
      limit := limit + exp.variants[idx];
      if limit > bucket {
        letter := [VariantLetter(idx)];
        return;
      }
      idx := idx + 1;
    }
  }

  /** `getAbLetters(for:)`: each experiment in turn appends its variant's letter. */
  method GetAbLetters(abJson: string, decode: string -> Option<seq<Experiment>>, id: string, digest: string -> nat)
    returns (abLetters: string)
    requires decode(abJson).Some? ==> InRange(decode(abJson).value, id, digest)
    ensures abLetters == AbLetters(decode(abJson), id, digest)
  {
    var parsed := decode(abJson);
    if parsed.None? {
      return "";
    }
    var experiments := parsed.value;
    abLetters := "";
    var i := 0;
    while i < |experiments|
      invariant 0 <= i <= |experiments|
      invariant abLetters == Letters(experiments[..i], id, digest)
    {
      var exp := experiments[i];
      var letter := ChooseLetter(exp, id, digest);
      LettersPrefix(experiments, i, id, digest);
      abLetters := abLetters + letter;
      i := i + 1;
    }
    assert experiments[..i] == experiments;
  }

  /** `getAbNames(for:)`: every experiment's name with each component lower-cased. */
  function AbNames(parsed: Option<seq<Experiment>>): (r: seq<seq<string>>)
    ensures parsed.None? ==> r == []
    ensures parsed.Some? ==> |r| == |parsed.value|
    ensures parsed.Some? ==> forall i :: 0 <= i < |r| ==> |r[i]| == |parsed.value[i].name|
    ensures parsed.Some? ==> forall i, j :: 0 <= i < |r| && 0 <= j < |r[i]| ==> r[i][j] == Lowercased(parsed.value[i].name[j])
  {
    match parsed
    case None => []
    case Some(exps) => seq(|exps|, i requires 0 <= i < |exps| => LowerNames(exps[i].name))
  }

  function LowerNames(name: seq<string>): (r: seq<string>)
    ensures |r| == |name|
    ensures forall j :: 0 <= j < |r| ==> r[j] == Lowercased(name[j])
  {
    seq(|name|, j requires 0 <= j < |name| => Lowercased(name[j]))
  }

  /** The names hold no upper-case letter, so decoding the same JSON again and
      lower-casing its names gives the same list. */
  lemma AbNamesLowercase(parsed: Option<seq<Experiment>>)
    ensures var r := AbNames(parsed);
      forall i, j, k :: 0 <= i < |r| && 0 <= j < |r[i]| && 0 <= k < |r[i][j]| ==> !IsUpper(r[i][j][k])
    ensures var r := AbNames(parsed);
      forall i, j :: 0 <= i < |r| && 0 <= j < |r[i]| ==> Lowercased(r[i][j]) == r[i][j]
  {
  }
}
