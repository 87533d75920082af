/** The response side of the `exec_cmd` tool: the decoded envelope is
    searched for the output member of a known device-driver family, highest
    priority first, and the `result` of the first one found is returned;
    an envelope from any other family is returned whole. */
module ExecResponse {
  import opened Wrappers
  import opened JsonValues

  /** Output member written by the IOS-XR driver family. */
  const IosXrKey := "tailf-ned-cisco-ios-xr-stats:output"
  /** Output member written by the IOS driver family. */
  const IosKey := "tailf-ned-cisco-ios-stats:output"
  /** Member of a family's output object that holds the command output. */
  const ResultField := "result"

  /** The recognised families' output members, highest priority first. */
  const KnownFamilies: seq<string> := [IosXrKey, IosKey]

  /** A recognised family's member was found but its `result` could not be
      read from it. `family` records which of the two subscripts failed, that
      is, which family member was selected. The exception raised for this
      (a `KeyError` on `result` or a `TypeError`) does not itself carry the
      family name. */
  datatype ExecError = ExecError(family: string, cause: LookupError)

  /** The command output held in a family's output value `v`. It fails,
      naming `family`, exactly when `v` is not an object with a `result`
      member; it never falls back to anything else. */
  function FamilyResult(family: string, v: Json): (r: Result<Json, ExecError>)
    ensures r.Ok? <==> HasMember(v, ResultField)
    ensures r.Ok? ==> r.value == v.fields[ResultField]
    ensures r.Err? ==> r.error.family == family
    ensures r.Err? ==> (r.error.cause == KeyMissing <==> v.JObj?)
  {
    match Subscript(v, ResultField)
    case Ok(x) => Ok(x)
    case Err(e) => Err(ExecError(family, e))
  }

  /** Index of the first of `keys` that is a member of `env`, or None when
      none of them is. */
  function FirstPresent(keys: seq<string>, env: map<string, Json>): (r: Option<nat>)
    ensures r.Some? ==> r.value < |keys| && keys[r.value] in env
    ensures r.Some? ==> forall j :: 0 <= j < r.value ==> keys[j] !in env
    ensures r.None? <==> forall j :: 0 <= j < |keys| ==> keys[j] !in env
    decreases |keys|
  {
    if |keys| == 0 then None
    else if keys[0] in env then Some(0)
    else
      match FirstPresent(keys[1..], env)
      case None => None
      case Some(i) => Some(i + 1)
  }

  /** Reference normalizer over any priority list: the first listed member
      present decides the outcome; with none present the envelope itself is
      the output. */
  function NormalizeByPriority(keys: seq<string>, env: map<string, Json>): Result<Json, ExecError>
  {
    match FirstPresent(keys, env)
    case None => Ok(JObj(env))
    case Some(i) => FamilyResult(keys[i], env[keys[i]])
  }

  /** Normalizes the decoded envelope of an exec call. It agrees with the
      first-match search over the known families in priority order; it
      returns the envelope unchanged exactly when no known family's member
      is present; and any failure names a known family that is present. */
  function NormalizeExec(env: map<string, Json>): (r: Result<Json, ExecError>)
    ensures r == NormalizeByPriority(KnownFamilies, env)
    ensures r == Ok(JObj(env)) <==> (IosXrKey !in env && IosKey !in env)
    ensures r.Err? ==> r.error.family in KnownFamilies && r.error.family in env
  {
    KnownFamiliesSearch(env);
    if IosXrKey in env then
      ResultIsSmaller(env, IosXrKey);
      FamilyResult(IosXrKey, env[IosXrKey])
    else if IosKey in env then
      ResultIsSmaller(env, IosKey);
      FamilyResult(IosKey, env[IosKey])
    else
      Ok(JObj(env))
  }

  /** The first-match search over the known families picks IOS-XR when it
      is present, IOS when only that is present, and nothing otherwise. */
  lemma KnownFamiliesSearch(env: map<string, Json>)
    ensures FirstPresent(KnownFamilies, env) ==
      (if IosXrKey in env then Some(0) else if IosKey in env then Some(1) else None)
  {
  }

  /** A family's `result` is a proper part of the envelope, so it can never
      be mistaken for the envelope returned by the fallback. */
  lemma ResultIsSmaller(env: map<string, Json>, family: string)
    requires family in env
    ensures HasMember(env[family], ResultField) ==> env[family].fields[ResultField] != JObj(env)
  {
    if HasMember(env[family], ResultField) {
      var v := env[family];
      assert v.fields[ResultField] < v;
      assert v < JObj(env);
    }
  }

  /** The output member a driver family writes around its command output. */
  function WrapOutput(family: string, output: Json): map<string, Json>
  {
    map[family := JObj(map[ResultField := output])]
  }

  /** Round trip: an envelope in which known family number `i` wrapped
      `output`, and no family of higher priority appears, normalizes to
      `output`, whatever other members the envelope has. */
  lemma WrappedOutputRoundTrip(i: nat, output: Json, extra: map<string, Json>)
    requires i < |KnownFamilies|
    requires forall j :: 0 <= j < i ==> KnownFamilies[j] !in extra
    ensures NormalizeExec(extra + WrapOutput(KnownFamilies[i], output)) == Ok(output)
  {
  }

  /** IOS-XR output is taken when present. */
  lemma IosXrOutputTaken(env: map<string, Json>)
    requires IosXrKey in env && HasMember(env[IosXrKey], ResultField)
    ensures NormalizeExec(env) == Ok(env[IosXrKey].fields[ResultField])
  {
  }

  /** IOS output is taken when it is present and IOS-XR output is not. */
  lemma IosOutputTaken(env: map<string, Json>)
    requires IosXrKey !in env && IosKey in env && HasMember(env[IosKey], ResultField)
    ensures NormalizeExec(env) == Ok(env[IosKey].fields[ResultField])
  {
  }

  /** Priority: once IOS-XR output is present, the IOS member, whatever
      it holds or whether it is there at all, makes no difference. */
  lemma IosXrTakesPriority(env: map<string, Json>, v: Json)
    requires IosXrKey in env
    ensures NormalizeExec(env[IosKey := v]) == NormalizeExec(env)
    ensures NormalizeExec(env - {IosKey}) == NormalizeExec(env)
  {
  }

  /** A recognised family whose output has no readable `result` makes
      normalization fail; it does not fall back to the raw envelope. */
  lemma RecognisedWithoutResultFails(env: map<string, Json>)
    requires IosXrKey in env || IosKey in env
    requires var family := if IosXrKey in env then IosXrKey else IosKey;
             !HasMember(env[family], ResultField)
    ensures NormalizeExec(env).Err?
    ensures NormalizeExec(env).error.family == (if IosXrKey in env then IosXrKey else IosKey)
  {
  }

  /** Once a known family is present, members outside the known families
      do not influence the outcome. */
  lemma UnrelatedMembersIgnored(env: map<string, Json>, key: string, v: Json)
    requires IosXrKey in env || IosKey in env
    requires key !in KnownFamilies
    ensures NormalizeExec(env[key := v]) == NormalizeExec(env)
  {
  }
}
