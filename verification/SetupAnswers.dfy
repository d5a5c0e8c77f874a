/** What a setup request, role defaults, a clear and a start-up do, told by the fields of the request. */
module SetupAnswers {
  import opened Text
  import opened EnvFile
  import opened EnvValues
  import opened ManagedFile
  import opened MarkersInValues
  import opened SetupEnv
  import opened StartUp
  import opened LaterSteps

  // ---------- values ----------

  /** Not empty and at most 2048 characters without the spaces around it, and on one line. */
  predicate GoodText(v: string) {
    && 0 < |Trim(v)| <= 2048
    && forall i :: 0 <= i < |Trim(v)| ==> Trim(v)[i] != '\r' && Trim(v)[i] != '\n'
  }

  predicate GoodOpenText(checks: Checks, v: string) {
    GoodText(v) && !checks.secretLike(Trim(v))
  }

  /** An override is good when it is blank, too. */
  predicate GoodModel(checks: Checks, v: string) {
    Trim(v) == "" || GoodOpenText(checks, v)
  }

  predicate GoodSetup(checks: Checks, input: SetupInput) {
    && GoodText(input.apiKey) && |Trim(input.apiKey)| >= 8
    && GoodOpenText(checks, input.baseUrl) && checks.baseUrl(Trim(input.baseUrl)).Ok?
    && GoodOpenText(checks, input.model)
  }

  /** The models of the single perspectives matter only when they are switched on. */
  predicate GoodDefaults(checks: Checks, d: RoleDefaults) {
    && GoodModel(checks, d.model) && GoodModel(checks, d.reviewModel)
    && (d.custom ==> GoodModel(checks, d.a) && GoodModel(checks, d.b) && GoodModel(checks, d.c))
  }

  lemma TextAnswers(v: string)
    ensures NormalizeText(v) == if GoodText(v) then Ok(Trim(v)) else Err(ValueInvalid)
  {
    hide TrimStart, TrimEnd;
  }

  lemma OpenTextAnswers(checks: Checks, v: string)
    ensures NormalizeNonSecret(checks, v) == if GoodOpenText(checks, v) then Ok(Trim(v)) else Err(ValueInvalid)
  {
    hide Trim, NormalizeText, GoodText;
    TextAnswers(v);
  }

  lemma ModelAnswers(checks: Checks, v: string)
    ensures NormalizeModel(checks, v) == if GoodModel(checks, v) then Ok(Trim(v)) else Err(ValueInvalid)
  {
    hide Trim, NormalizeNonSecret, NormalizeText;
    TrimIsIdempotent(v);
    OpenTextAnswers(checks, Trim(v));
  }

  lemma {:induction false} SetupIsTaken(checks: Checks, input: SetupInput)
    ensures NormalizeSetup(checks, input) ==
      if GoodSetup(checks, input) then
        Ok(Setup(Trim(input.apiKey), checks.baseUrl(Trim(input.baseUrl)).value, Trim(input.model),
                 input.structuredReview != Some(false)))
      else Err(ValueInvalid)
  {
    hide Trim, NormalizeText, NormalizeNonSecret, GoodText, GoodOpenText;
    TextAnswers(input.apiKey);
    OpenTextAnswers(checks, input.baseUrl);
    OpenTextAnswers(checks, input.model);
  }

  lemma {:induction false} DefaultsAreTaken(checks: Checks, d: RoleDefaults)
    ensures NormalizeRoleDefaults(checks, d) ==
      if GoodDefaults(checks, d) then
        Ok(RoleDefaults(if d.perspectiveCount == 3 then 3 else 2, Trim(d.model), Trim(d.reviewModel), d.custom,
                        if d.custom then Trim(d.a) else "", if d.custom then Trim(d.b) else "",
                        if d.custom then Trim(d.c) else ""))
      else Err(ValueInvalid)
  {
    hide Trim, NormalizeModel, GoodModel;
    ModelAnswers(checks, d.model);
    ModelAnswers(checks, d.reviewModel);
    ModelAnswers(checks, d.a);
    ModelAnswers(checks, d.b);
    ModelAnswers(checks, d.c);
  }

  // ---------- the file ----------

  /** The file is absent or blank, or it holds neither marker of the block, or BEGIN and then END. */
  predicate FileFits(file: Option<string>, kind: Kind) {
    || file.None? || IsBlank(file.value)
    || FoundInOrder(IndexOf(file.value, MarkersOf(kind).begin), IndexOf(file.value, MarkersOf(kind).finish))
  }

  lemma FileAnswers(file: Option<string>, kind: Kind, op: Op)
    requires IsStepOf(op, kind)
    ensures Step(file, op).Ok? <==> FileFits(file, kind)
    ensures Step(file, op).Err? ==> Step(file, op) == Err(FileInvalid)
    ensures FileFits(file, kind) && op.Save? ==> Step(file, op).value.Some?
  {
    hide MarkersOf, BlockText, InnerOf, IndexOf, IsBlank;
  }

  // ---------- a setup ----------

  predicate Sets(env: Env, name: string, value: string) {
    name in env && env[name] == value
  }

  /** The switches are on and the provider is the main one, everywhere. */
  predicate SwitchedOn(env: Env) {
    && Sets(env, ENABLE + "PROFILE", "true") && Sets(env, ENABLE + "EXTRACTION", "true")
    && Sets(env, ENABLE + "REVIEW", "true") && Sets(env, ENABLE + "FINALIZATION", "true")
    && Sets(env, OPENAI + "EXTRACTION_PROVIDER_CONFIG_ID", "openai-main")
    && Sets(env, OPENAI + "REVIEW_PROVIDER_CONFIG_ID", "openai-main")
    && Sets(env, OPENAI + "FINAL_CANDIDATE_PROVIDER_CONFIG_ID", "openai-main")
    && Sets(env, OPENAI + "FINAL_AUDIT_PROVIDER_CONFIG_ID", "openai-main")
  }

  /** The variables of a structured review. */
  predicate ReviewsStructured(env: Env) {
    && Sets(env, OPENAI + "EXTRACTION_RESPONSE_FORMAT", "json_object")
    && Sets(env, OPENAI + "REVIEW_RESPONSE_FORMAT", "json_object")
    && Sets(env, OPENAI + "FINAL_CANDIDATE_RESPONSE_FORMAT", "json_object")
    && Sets(env, OPENAI + "FINAL_AUDIT_RESPONSE_FORMAT", "json_object")
    && Sets(env, OPENAI + "TOKEN_PARAMETER", "max_completion_tokens")
    && Sets(env, OPENAI + "MAX_COMPLETION_TOKENS", "4096")
    && Sets(env, OPENAI + "TEMPERATURE", "0")
  }

  lemma SetIs(env: Env, name: string, value: string)
    requires Lookup(env, name) == value && value != ""
    ensures Sets(env, name, value)
  {
  }

  lemma SwitchesAre(s: Setup)
    ensures |ProviderBlock(s)| >= 8
    ensures ProviderBlock(s)[0] == Assignment(ENABLE + "PROFILE", "true")
    ensures ProviderBlock(s)[1] == Assignment(ENABLE + "EXTRACTION", "true")
    ensures ProviderBlock(s)[2] == Assignment(ENABLE + "REVIEW", "true")
    ensures ProviderBlock(s)[3] == Assignment(ENABLE + "FINALIZATION", "true")
  {
  }

  lemma ExtractionConfigId()
    ensures "EXTRACTION" + CONFIG_ID == "EXTRACTION_PROVIDER_CONFIG_ID"
  {
  }

  lemma ReviewConfigId()
    ensures "REVIEW" + CONFIG_ID == "REVIEW_PROVIDER_CONFIG_ID"
  {
  }

  lemma CandidateConfigId()
    ensures "FINAL_CANDIDATE" + CONFIG_ID == "FINAL_CANDIDATE_PROVIDER_CONFIG_ID"
  {
  }

  lemma AuditConfigId()
    ensures "FINAL_AUDIT" + CONFIG_ID == "FINAL_AUDIT_PROVIDER_CONFIG_ID"
  {
  }

  lemma ConfigIdsAre(s: Setup)
    ensures |ProviderBlock(s)| >= 8
    ensures ProviderBlock(s)[4] == Assignment(OPENAI + "EXTRACTION_PROVIDER_CONFIG_ID", "openai-main")
    ensures ProviderBlock(s)[5] == Assignment(OPENAI + "REVIEW_PROVIDER_CONFIG_ID", "openai-main")
    ensures ProviderBlock(s)[6] == Assignment(OPENAI + "FINAL_CANDIDATE_PROVIDER_CONFIG_ID", "openai-main")
    ensures ProviderBlock(s)[7] == Assignment(OPENAI + "FINAL_AUDIT_PROVIDER_CONFIG_ID", "openai-main")
  {
    hide CONFIG_ID;
    ExtractionConfigId();
    ReviewConfigId();
    CandidateConfigId();
    AuditConfigId();
  }

  lemma FormatNamesAre()
    ensures "EXTRACTION" + FORMAT == "EXTRACTION_RESPONSE_FORMAT"
    ensures "REVIEW" + FORMAT == "REVIEW_RESPONSE_FORMAT"
    ensures "FINAL_CANDIDATE" + FORMAT == "FINAL_CANDIDATE_RESPONSE_FORMAT"
    ensures "FINAL_AUDIT" + FORMAT == "FINAL_AUDIT_RESPONSE_FORMAT"
  {
  }

  lemma ReviewVarsAre()
    ensures STRUCTURED ==
      [Assignment(OPENAI + "EXTRACTION_RESPONSE_FORMAT", "json_object"),
       Assignment(OPENAI + "REVIEW_RESPONSE_FORMAT", "json_object"),
       Assignment(OPENAI + "FINAL_CANDIDATE_RESPONSE_FORMAT", "json_object"),
       Assignment(OPENAI + "FINAL_AUDIT_RESPONSE_FORMAT", "json_object"),
       Assignment(OPENAI + "TOKEN_PARAMETER", "max_completion_tokens"),
       Assignment(OPENAI + "MAX_COMPLETION_TOKENS", "4096"), Assignment(OPENAI + "TEMPERATURE", "0")]
  {
    FormatNamesAre();
  }

  lemma ReviewIsBehind(s: Setup, i: nat)
    requires s.structuredReview && i < 7
    ensures |ProviderBlock(s)| == 18 && |STRUCTURED| == 7 && ProviderBlock(s)[8 + i] == STRUCTURED[i]
  {
  }

  lemma {:induction false} BlockIsSwitchedOn(env: Env, s: Setup)
    requires forall i :: 0 <= i < |ProviderBlock(s)| ==>
        Lookup(env, ProviderBlock(s)[i].name) == ProviderBlock(s)[i].value
    ensures SwitchedOn(env)
  {
    hide ProviderBlock, Lookup, Sets;
    SwitchesAre(s);
    ConfigIdsAre(s);
    forall i | 0 <= i < 8
      ensures Sets(env, ProviderBlock(s)[i].name, ProviderBlock(s)[i].value)
    {
      SetIs(env, ProviderBlock(s)[i].name, ProviderBlock(s)[i].value);
    }
    assert Sets(env, ProviderBlock(s)[0].name, ProviderBlock(s)[0].value);
    assert Sets(env, ProviderBlock(s)[1].name, ProviderBlock(s)[1].value);
    assert Sets(env, ProviderBlock(s)[2].name, ProviderBlock(s)[2].value);
    assert Sets(env, ProviderBlock(s)[3].name, ProviderBlock(s)[3].value);
    assert Sets(env, ProviderBlock(s)[4].name, ProviderBlock(s)[4].value);
    assert Sets(env, ProviderBlock(s)[5].name, ProviderBlock(s)[5].value);
    assert Sets(env, ProviderBlock(s)[6].name, ProviderBlock(s)[6].value);
    assert Sets(env, ProviderBlock(s)[7].name, ProviderBlock(s)[7].value);
  }

  lemma {:induction false} BlockReviews(env: Env, s: Setup)
    requires s.structuredReview
    requires forall i :: 0 <= i < |ProviderBlock(s)| ==>
        Lookup(env, ProviderBlock(s)[i].name) == ProviderBlock(s)[i].value
    ensures ReviewsStructured(env)
  {
    hide ProviderBlock, Lookup, Sets, STRUCTURED;
    ReviewVarsAre();
    forall i | 0 <= i < 7
      ensures Sets(env, STRUCTURED[i].name, STRUCTURED[i].value)
    {
      ReviewIsBehind(s, i);
      assert Lookup(env, ProviderBlock(s)[8 + i].name) == ProviderBlock(s)[8 + i].value;
      SetIs(env, STRUCTURED[i].name, STRUCTURED[i].value);
    }
    assert Sets(env, STRUCTURED[0].name, STRUCTURED[0].value) && Sets(env, STRUCTURED[1].name, STRUCTURED[1].value);
    assert Sets(env, STRUCTURED[2].name, STRUCTURED[2].value) && Sets(env, STRUCTURED[3].name, STRUCTURED[3].value);
    assert Sets(env, STRUCTURED[4].name, STRUCTURED[4].value) && Sets(env, STRUCTURED[5].name, STRUCTURED[5].value);
    assert Sets(env, STRUCTURED[6].name, STRUCTURED[6].value);
  }

  /** None of the variables of a structured review is set. */
  predicate ReviewsPlainly(env: Env) {
    && OPENAI + "EXTRACTION_RESPONSE_FORMAT" !in env && OPENAI + "REVIEW_RESPONSE_FORMAT" !in env
    && OPENAI + "FINAL_CANDIDATE_RESPONSE_FORMAT" !in env && OPENAI + "FINAL_AUDIT_RESPONSE_FORMAT" !in env
    && OPENAI + "TOKEN_PARAMETER" !in env && OPENAI + "MAX_COMPLETION_TOKENS" !in env && OPENAI + "TEMPERATURE" !in env
  }

  lemma NotNamed(env: Env)
    requires NamesOf(STRUCTURED) !! env.Keys
    ensures ReviewsPlainly(env)
  {
    hide STRUCTURED;
    ReviewVarsAre();
    forall i | 0 <= i < |STRUCTURED|
      ensures STRUCTURED[i].name !in env
    {
      assert STRUCTURED[i].name in NamesOf(STRUCTURED);
    }
    assert STRUCTURED[0].name !in env && STRUCTURED[1].name !in env && STRUCTURED[2].name !in env;
    assert STRUCTURED[3].name !in env && STRUCTURED[4].name !in env && STRUCTURED[5].name !in env;
    assert STRUCTURED[6].name !in env;
  }

  /** What an environment looks like in which a setup request is in force. */
  predicate ShowsSetup(checks: Checks, env: Env, input: SetupInput)
    requires checks.baseUrl(Trim(input.baseUrl)).Ok?
  {
    && Lookup(env, OPENAI + "API_KEY") == Trim(input.apiKey)
    && Lookup(env, OPENAI + "BASE_URL") == checks.baseUrl(Trim(input.baseUrl)).value
    && Lookup(env, OPENAI + "MODEL") == Trim(input.model)
    && SwitchedOn(env)
    && (if input.structuredReview == Some(false) then ReviewsPlainly(env) else ReviewsStructured(env))
  }

  predicate SameFor(a: Env, b: Env, n: string) {
    (n in a <==> n in b) && (n in a ==> a[n] == b[n])
  }

  lemma {:induction false} AppliedShows(env: Env, s: Setup)
    ensures SwitchedOn(AppliedSetup(env, s))
    ensures if s.structuredReview then ReviewsStructured(AppliedSetup(env, s)) else ReviewsPlainly(AppliedSetup(env, s))
    ensures Lookup(AppliedSetup(env, s), OPENAI + "API_KEY") == s.apiKey
    ensures Lookup(AppliedSetup(env, s), OPENAI + "BASE_URL") == s.baseUrl
    ensures Lookup(AppliedSetup(env, s), OPENAI + "MODEL") == s.model
  {
    hide ProviderBlock, Lookup, SwitchedOn, ReviewsStructured, ReviewsPlainly, AppliedSetup, NamesOf;
    var live := AppliedSetup(env, s);
    forall i | 0 <= i < |ProviderBlock(s)|
      ensures Lookup(live, ProviderBlock(s)[i].name) == ProviderBlock(s)[i].value
    {
      SetupIsApplied(env, s, i);
    }
    SwitchesAre(s);
    SetupIsApplied(env, s, 0);
    BlockIsSwitchedOn(live, s);
    if s.structuredReview {
      BlockReviews(live, s);
    } else {
      PlainKeys(env, s);
      NotNamed(live);
    }
  }

  lemma PlainKeys(env: Env, s: Setup)
    requires !s.structuredReview
    ensures NamesOf(STRUCTURED) !! AppliedSetup(env, s).Keys
  {
    hide NamesOf, AccessVars, AppliedSetup, Assigned, ProviderBlock;
    AppliedSetupIsOverlay(env, s);
    AssignedIsOverlay(map[], ProviderBlock(s));
    NamesOfProviderBlock(s);
    NamesApart();
    GroupsApart();
  }

  lemma OthersKept(env: Env, s: Setup, n: string)
    requires n !in ProviderVars()
    ensures SameFor(AppliedSetup(env, s), env, n)
  {
    hide NamesOf, AccessVars, AppliedSetup, Assigned, ProviderEnv;
    AppliedSetupIsOverlay(env, s);
    ProviderEnvKeys(Some(s));
  }

  /**
   * A setup request is refused as invalid exactly when one of its texts is no good, as a bad file exactly when its
   * texts are good and the file's markers are not in order, and accepted otherwise. Then the live environment has
   * the key and the model as given without the spaces around them, the base URL as rewritten, the switches on, and
   * the review variables unless they were declined; no other variable is touched.
   */
  lemma {:induction false} SetupAnswer(checks: Checks, st: State, input: SetupInput)
    ensures var r := Handle(checks, st, SaveSetup(input));
      && (r == Err(ValueInvalid) <==> !GoodSetup(checks, input))
      && (r == Err(FileInvalid) <==> GoodSetup(checks, input) && !FileFits(st.file, Provider))
      && (r.Ok? <==> GoodSetup(checks, input) && FileFits(st.file, Provider))
      && (r.Ok? ==>
            && checks.baseUrl(Trim(input.baseUrl)).Ok?
            && ShowsSetup(checks, r.value.env, input)
            && forall n :: n !in ProviderVars() ==> SameFor(r.value.env, st.env, n))
  {
    hide Trim, NormalizeSetup, GoodSetup, FileFits, Step, AppliedSetup, ProviderVars, Lookup, SwitchedOn, SameFor;
    hide ReviewsStructured, ReviewsPlainly, ProviderBlock;
    SetupIsTaken(checks, input);
    if GoodSetup(checks, input) {
      GoodUrl(checks, input);
      var s := NormalizeSetup(checks, input).value;
      FileAnswers(st.file, Provider, Save(Provider, ProviderBlock(s)));
      AppliedShows(st.env, s);
      forall n: string | n !in ProviderVars()
        ensures SameFor(AppliedSetup(st.env, s), st.env, n)
      {
        OthersKept(st.env, s, n);
      }
    }
  }

  lemma GoodUrl(checks: Checks, input: SetupInput)
    requires GoodSetup(checks, input)
    ensures checks.baseUrl(Trim(input.baseUrl)).Ok?
  {
  }

  lemma {:induction false} SetupHoldsNone(s: Setup, m: string)
    requires m == MarkersOf(Provider).finish && !Contains(s.apiKey, m) && !Contains(s.baseUrl, m) &&
        !Contains(s.model, m)
    ensures HoldsNone(ProviderBlock(s), m)
  {
    hide Contains, IsName, MarkersOf, SWITCHES, CONFIG_IDS, STRUCTURED;
    FixedBlocksAreOk();
  }

  lemma AppliedToNothing(s: Setup)
    ensures AppliedSetup(map[], s) == Assigned(map[], ProviderBlock(s))
  {
    hide NamesOf, Assigned, ProviderBlock, AppliedSetup;
    AppliedSetupIsOverlay(map[], s);
    var empty: Env := map[];
    assert (if s.structuredReview then empty else empty - NamesOf(STRUCTURED)) == empty;
  }

  /**
   * What the file says after an accepted setup without the block's END marker in a text, from any file a run can
   * reach: read back, its provider block sets exactly what the request asked for.
   */
  lemma {:induction false} SetupIsWritten(checks: Checks, st: State, d: Doc, input: SetupInput) returns (m: Env)
    requires Represents(st.file, d) && GoodSetup(checks, input)
    requires var f := MarkersOf(Provider).finish;
      && !Contains(Trim(input.apiKey), f) && !Contains(Trim(input.model), f)
      && !Contains(checks.baseUrl(Trim(input.baseUrl)).value, f)
    ensures var r := Handle(checks, st, SaveSetup(input));
      && r.Ok? && r.value.file.Some?
      && ParseBlock(r.value.file.value, MarkersOf(Provider)) == Ok(Some(m))
    ensures checks.baseUrl(Trim(input.baseUrl)).Ok? && ShowsSetup(checks, m, input) && m.Keys <= ProviderVars()
  {
    hide Trim, GoodSetup, Step, AppliedSetup, ProviderVars, Lookup, SwitchedOn, Contains, MarkersOf, HoldsNone, IsName;
    hide ReviewsStructured, ReviewsPlainly, ProviderBlock, Represents, NormalizeSetup, ParseBlock, InnerOf, WithBlock;
    hide NoneOf, Assigned;
    SetupIsTaken(checks, input);
    GoodUrl(checks, input);
    var s := NormalizeSetup(checks, input).value;
    var block := ProviderBlock(s);
    var pre, post := SavePlace(st.file, d, Provider);
    assert Step(st.file, Save(Provider, block))
        == Ok(Some(WithBlock(pre, MarkersOf(Provider), InnerOf(Provider, block), post)));
    ProviderBlockIsNamed(s);
    SetupHoldsNone(s, MarkersOf(Provider).finish);
    OwnParse(pre, Provider, block, post);
    m := Assigned(map[], block);
    AppliedToNothing(s);
    AppliedShows(map[], s);
    BlockKeys(s);
  }

  lemma BlockKeys(s: Setup)
    ensures Assigned(map[], ProviderBlock(s)).Keys <= ProviderVars()
  {
    hide NamesOf, AccessVars, Assigned, ProviderBlock;
    AssignedIsOverlay(map[], ProviderBlock(s));
    NamesOfProviderBlock(s);
  }

  // ---------- role defaults ----------

  /** The variable is set to the value, or not set when the value is empty. */
  predicate SetsIfAny(env: Env, name: string, value: string) {
    Lookup(env, name) == value && (name in env <==> value != "")
  }

  /** What an environment looks like in which role defaults are in force. */
  predicate ShowsDefaults(env: Env, d: RoleDefaults) {
    && SetsIfAny(env, OPENAI + "ROLE_DEFAULT_PERSPECTIVE_COUNT", if d.perspectiveCount == 3 then "3" else "2")
    && SetsIfAny(env, CUSTOM, if d.custom then "true" else "false")
    && SetsIfAny(env, OPENAI + "ROLE_DEFAULT_MODEL", Trim(d.model))
    && SetsIfAny(env, OPENAI + "ROLE_DEFAULT_REVIEW_MODEL", Trim(d.reviewModel))
    && SetsIfAny(env, OPENAI + "ROLE_DEFAULT_PERSPECTIVE_A_MODEL", if d.custom then Trim(d.a) else "")
    && SetsIfAny(env, OPENAI + "ROLE_DEFAULT_PERSPECTIVE_B_MODEL", if d.custom then Trim(d.b) else "")
    && SetsIfAny(env, OPENAI + "ROLE_DEFAULT_PERSPECTIVE_C_MODEL", if d.custom then Trim(d.c) else "")
  }

  lemma RoleNamesAre()
    ensures OPENAI + "ROLE_DEFAULT_PERSPECTIVE_COUNT" == COUNT
    ensures OPENAI + "ROLE_DEFAULT_MODEL" == ROLE_MODEL && OPENAI + "ROLE_DEFAULT_REVIEW_MODEL" == REVIEW_MODEL
  {
    assert ROLE + "PERSPECTIVE_COUNT" == "ROLE_DEFAULT_PERSPECTIVE_COUNT";
    assert ROLE + "MODEL" == "ROLE_DEFAULT_MODEL";
    assert ROLE + "REVIEW_MODEL" == "ROLE_DEFAULT_REVIEW_MODEL";
  }

  lemma PerspectiveA()
    ensures ROLE + "PERSPECTIVE_A_MODEL" == "ROLE_DEFAULT_PERSPECTIVE_A_MODEL"
  {
  }

  lemma PerspectiveB()
    ensures ROLE + "PERSPECTIVE_B_MODEL" == "ROLE_DEFAULT_PERSPECTIVE_B_MODEL"
  {
  }

  lemma PerspectiveC()
    ensures ROLE + "PERSPECTIVE_C_MODEL" == "ROLE_DEFAULT_PERSPECTIVE_C_MODEL"
  {
  }

  lemma PerspectiveNamesAre()
    ensures OPENAI + "ROLE_DEFAULT_PERSPECTIVE_A_MODEL" == MODEL_A
    ensures OPENAI + "ROLE_DEFAULT_PERSPECTIVE_B_MODEL" == MODEL_B
    ensures OPENAI + "ROLE_DEFAULT_PERSPECTIVE_C_MODEL" == MODEL_C
  {
    hide OPENAI, ROLE;
    PerspectiveA();
    PerspectiveB();
    PerspectiveC();
  }

  lemma {:induction false} NoEmptyOnes(env: Env, names: seq<string>, values: seq<string>)
    requires |names| == |values| && forall n :: n in names && n in env ==> env[n] != ""
    ensures forall n :: n in names && n in Assigned(env, SetOnes(names, values)) ==>
      Assigned(env, SetOnes(names, values))[n] != ""
    ensures forall n :: n !in names ==> SameFor(Assigned(env, SetOnes(names, values)), env, n)
    decreases |names|
  {
    if names != [] {
      var first := IfSet(names[0], values[0]);
      AssignedConcat(env, first, SetOnes(names[1..], values[1..]));
      OneSet(env, names[0], values[0]);
      var next := Assigned(env, first);
      assert names == [names[0]] + names[1..];
      NoEmptyOnes(next, names[1..], values[1..]);
    }
  }

  lemma OneSet(env: Env, name: string, value: string)
    ensures Assigned(env, IfSet(name, value)) == if value == "" then env else env[name := value]
  {
    assert [Assignment(name, value)][1..] == [];
  }

  lemma {:induction false} RolesAreSet(env: Env, d: RoleDefaults, i: nat)
    requires i < |ROLE_VARS|
    ensures |RoleValues(d)| == |ROLE_VARS| && SetsIfAny(AppliedRoles(env, d), ROLE_VARS[i], RoleValues(d)[i])
  {
    hide SetOnes, RoleValues, RoleVars;
    SevenValues(d);
    RoleLookup(env, d, i);
    RolesCleared(env);
    NoEmptyOnes(env - RoleVars(), ROLE_VARS, RoleValues(d));
    assert ROLE_VARS[i] in ROLE_VARS;
  }

  lemma RolesCleared(env: Env)
    ensures forall n :: n in ROLE_VARS ==> n !in env - RoleVars()
    ensures forall n :: n !in RoleVars() ==> SameFor(env - RoleVars(), env, n) && n !in ROLE_VARS
  {
  }

  /** The defaults as the request gives them. */
  function Given(d: RoleDefaults): RoleDefaults {
    RoleDefaults(if d.perspectiveCount == 3 then 3 else 2, Trim(d.model), Trim(d.reviewModel), d.custom,
                 if d.custom then Trim(d.a) else "", if d.custom then Trim(d.b) else "",
                 if d.custom then Trim(d.c) else "")
  }

  lemma RoleValuesAre(d: RoleDefaults)
    ensures RoleValues(Given(d)) ==
      [if d.perspectiveCount == 3 then "3" else "2", if d.custom then "true" else "false", Trim(d.model),
       Trim(d.reviewModel), if d.custom then Trim(d.a) else "", if d.custom then Trim(d.b) else "",
       if d.custom then Trim(d.c) else ""]
    ensures ROLE_VARS == [COUNT, CUSTOM, ROLE_MODEL, REVIEW_MODEL, MODEL_A, MODEL_B, MODEL_C]
  {
    hide Trim;
  }

  lemma {:induction false} AppliedDefaultsShow(env: Env, d: RoleDefaults)
    ensures ShowsDefaults(AppliedRoles(env, Given(d)), d)
    ensures forall n :: n !in RoleVars() ==> SameFor(AppliedRoles(env, Given(d)), env, n)
  {
    hide SetOnes, RoleValues, RoleVars, AppliedRoles, Trim, SetsIfAny, Given, COUNT, CUSTOM, ROLE_MODEL, REVIEW_MODEL;
    hide MODEL_A, MODEL_B, MODEL_C, ROLE_VARS;
    RoleValuesAre(d);
    RoleNamesAre();
    PerspectiveNamesAre();
    RolesAreSet(env, Given(d), 0);
    RolesAreSet(env, Given(d), 1);
    RolesAreSet(env, Given(d), 2);
    RolesAreSet(env, Given(d), 3);
    RolesAreSet(env, Given(d), 4);
    RolesAreSet(env, Given(d), 5);
    RolesAreSet(env, Given(d), 6);
    OthersOfRoles(env, Given(d));
  }

  lemma OthersOfRoles(env: Env, d: RoleDefaults)
    ensures forall n :: n !in RoleVars() ==> SameFor(AppliedRoles(env, d), env, n)
  {
    hide SetOnes, RoleValues, RoleVars;
    SevenValues(d);
    RolesCleared(env);
    NoEmptyOnes(env - RoleVars(), ROLE_VARS, RoleValues(d));
  }

  /**
   * Role defaults are refused as invalid exactly when one of their models is neither blank nor good, as a bad file
   * exactly when they are good and the file's markers are not in order, and accepted otherwise. Then the live
   * environment has the count, the switch, and each model as given, blank ones not at all, the perspectives' only
   * when they are switched on; no other variable is touched.
   */
  lemma {:induction false} DefaultsAnswer(checks: Checks, st: State, d: RoleDefaults)
    ensures var r := Handle(checks, st, SaveRoleDefaults(d));
      && (r == Err(ValueInvalid) <==> !GoodDefaults(checks, d))
      && (r == Err(FileInvalid) <==> GoodDefaults(checks, d) && !FileFits(st.file, Roles))
      && (r.Ok? <==> GoodDefaults(checks, d) && FileFits(st.file, Roles))
      && (r.Ok? ==>
            && ShowsDefaults(r.value.env, d)
            && forall n :: n !in RoleVars() ==> SameFor(r.value.env, st.env, n))
  {
    hide Trim, NormalizeRoleDefaults, GoodDefaults, FileFits, Step, AppliedRoles, RoleVars, SameFor, RolesBlock;
    hide ShowsDefaults;
    DefaultsAreTaken(checks, d);
    if GoodDefaults(checks, d) {
      FileAnswers(st.file, Roles, Save(Roles, RolesBlock(Given(d))));
      AppliedDefaultsShow(st.env, d);
    }
  }

  /** A clear is refused exactly for a bad file; otherwise all variables of the role defaults go, and no other. */
  lemma {:induction false} ClearAnswer(checks: Checks, st: State)
    ensures var r := Handle(checks, st, ClearRoleDefaults);
      && (r.Ok? <==> FileFits(st.file, Roles)) && (r.Err? ==> r == Err(FileInvalid))
      && (r.Ok? ==>
            && (forall n :: n in ROLE_VARS ==> n !in r.value.env)
            && forall n :: n !in RoleVars() ==> SameFor(r.value.env, st.env, n))
  {
    hide FileFits, Step;
    FileAnswers(st.file, Roles, ClearRoles);
  }

  lemma {:induction false} DefaultsHoldNone(d: RoleDefaults, m: string)
    requires m == MarkersOf(Roles).finish
    requires forall v :: v in [d.model, d.reviewModel, d.a, d.b, d.c] ==> !Contains(Trim(v), m)
    ensures HoldsNone(RolesBlock(Given(d)), m)
  {
    hide Contains, MarkersOf, Trim, SetOnes, ROLE_VARS, ValueOk;
    RoleValuesAre(d);
    ConstantsAreFree(Roles, "");
    ConstantsAreFree(Roles, if d.perspectiveCount == 3 then "3" else "2");
    ConstantsAreFree(Roles, if d.custom then "true" else "false");
    FreeOfEnd(m);
    assert d.model in [d.model, d.reviewModel, d.a, d.b, d.c];
    SetOnesHoldNone(ROLE_VARS, RoleValues(Given(d)), m);
  }

  lemma FreeOfEnd(m: string)
    requires m == MarkersOf(Roles).finish
    ensures forall v: string :: ValueOk(Roles, v) ==> !Contains(v, m)
  {
    hide Contains, MarkersOf;
  }

  lemma {:induction false} SetOnesHoldNone(names: seq<string>, values: seq<string>, m: string)
    requires |names| == |values| && forall v :: v in values ==> !Contains(v, m)
    ensures HoldsNone(SetOnes(names, values), m)
    decreases |names|
  {
    hide Contains;
    if names != [] {
      assert values[0] in values;
      SetOnesHoldNone(names[1..], values[1..], m);
    }
  }

  /** Read back, the role block of the file sets exactly what the accepted role defaults asked for. */
  lemma {:induction false} DefaultsAreWritten(checks: Checks, st: State, d: Doc, given: RoleDefaults) returns (m: Env)
    requires Represents(st.file, d) && GoodDefaults(checks, given)
    requires forall v :: v in [given.model, given.reviewModel, given.a, given.b, given.c] ==>
      !Contains(Trim(v), MarkersOf(Roles).finish)
    ensures var r := Handle(checks, st, SaveRoleDefaults(given));
      && r.Ok? && r.value.file.Some?
      && ParseBlock(r.value.file.value, MarkersOf(Roles)) == Ok(Some(m))
    ensures ShowsDefaults(m, given) && m.Keys <= RoleVars()
  {
    hide Trim, GoodDefaults, Step, AppliedRoles, RoleVars, Contains, MarkersOf, HoldsNone, IsName, ShowsDefaults, Given;
    hide RolesBlock, Represents, NormalizeRoleDefaults, ParseBlock, InnerOf, WithBlock, NoneOf, Assigned;
    DefaultsAreTaken(checks, given);
    TakenIsGiven(checks, given);
    var block := RolesBlock(Given(given));
    var pre, post := SavePlace(st.file, d, Roles);
    assert Step(st.file, Save(Roles, block)) == Ok(Some(WithBlock(pre, MarkersOf(Roles), InnerOf(Roles, block), post)));
    RolesBlockIsNamed(Given(given));
    DefaultsHoldNone(given, MarkersOf(Roles).finish);
    OwnParse(pre, Roles, block, post);
    m := Assigned(map[], block);
    RolesOfNothing(Given(given));
    AppliedDefaultsShow(map[], given);
  }

  lemma TakenIsGiven(checks: Checks, d: RoleDefaults)
    requires GoodDefaults(checks, d)
    ensures NormalizeRoleDefaults(checks, d) == Ok(Given(d))
  {
    hide Trim, NormalizeRoleDefaults, GoodDefaults;
    DefaultsAreTaken(checks, d);
  }

  lemma RolesOfNothing(d: RoleDefaults)
    ensures AppliedRoles(map[], d) == Assigned(map[], RolesBlock(d))
    ensures Assigned(map[], RolesBlock(d)).Keys <= RoleVars()
  {
    hide RolesBlock, RoleVars, Assigned, NamesOf;
    NamesOfRolesBlock(d);
    AssignedIsOverlay(map[], RolesBlock(d));
    var empty: Env := map[];
    assert empty - RoleVars() == empty;
  }

  /**
   * Reading the role defaults from any environment: there are none when the count is missing or empty; otherwise
   * they are refused exactly when a model that counts is neither blank nor good, and else read field by field.
   */
  lemma {:induction false} ReadingAnswers(checks: Checks, env: Env)
    ensures var r := ReadRoleDefaults(checks, env);
      var custom := Lookup(env, CUSTOM) == "true";
      && (r == Ok(None) <==> Lookup(env, COUNT) == "")
      && (r == Err(ValueInvalid) <==>
            && Lookup(env, COUNT) != ""
            && !(&& GoodModel(checks, Lookup(env, ROLE_MODEL)) && GoodModel(checks, Lookup(env, REVIEW_MODEL))
                 && (custom ==> GoodModel(checks, Lookup(env, MODEL_A)) && GoodModel(checks, Lookup(env, MODEL_B))
                                && GoodModel(checks, Lookup(env, MODEL_C)))))
      && (r.Ok? && r.value.Some? ==>
            var d := r.value.value;
            && d.perspectiveCount == (if Lookup(env, COUNT) == "3" then 3 else 2) && d.custom == custom
            && d.model == Trim(Lookup(env, ROLE_MODEL)) && d.reviewModel == Trim(Lookup(env, REVIEW_MODEL))
            && d.a == (if custom then Trim(Lookup(env, MODEL_A)) else "")
            && d.b == (if custom then Trim(Lookup(env, MODEL_B)) else "")
            && d.c == (if custom then Trim(Lookup(env, MODEL_C)) else ""))
  {
    hide Trim, NormalizeRoleDefaults, GoodModel, COUNT, CUSTOM, ROLE_MODEL, REVIEW_MODEL, MODEL_A, MODEL_B, MODEL_C;
    DefaultsAreTaken(checks,
                     RoleDefaults(if Lookup(env, COUNT) == "3" then 3 else 2, Lookup(env, ROLE_MODEL),
                                  Lookup(env, REVIEW_MODEL), Lookup(env, CUSTOM) == "true", Lookup(env, MODEL_A),
                                  Lookup(env, MODEL_B), Lookup(env, MODEL_C)));
  }

  // ---------- start-up ----------

  /**
   * Start-up sets a variable exactly when a block of the file names it, it is one of the variables the two blocks
   * are made of, and the environment has nothing but spaces for it; the role block's value counts before the
   * provider block's. Every other variable stays as it was; without blocks, or with a file it cannot read, all do.
   */
  lemma {:induction false} StartUpAnswers(env: Env, content: string, n: string)
    ensures LoadedFile(env, None) == Ok(env)
    ensures var p, r := ParseBlock(content, MarkersOf(Provider)), ParseBlock(content, MarkersOf(Roles));
      var loaded := LoadedFile(env, Some(content));
      && (loaded.Ok? <==> p.Ok? && r.Ok?) && (loaded.Err? ==> loaded == Err(FileInvalid))
      && (loaded.Ok? ==>
            var named := OrEmpty(p.value) + OrEmpty(r.value);
            var free := n !in env || Trim(env[n]) == "";
            if n in named && (n in ProviderVars() || n in RoleVars()) && free
            then n in loaded.value && loaded.value[n] == named[n]
            else SameFor(loaded.value, env, n))
  {
    hide ParseBlock, MarkersOf, ProviderVars, RoleVars, Trim;
  }
}
