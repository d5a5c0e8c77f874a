/**
 * The provider setup and the role model defaults: saved to the env file, applied to the running daemon, loaded
 * at start-up.
 */
module SetupEnv {
  import opened Text
  import opened EnvFile
  import opened EnvValues
  import opened ManagedFile

  // ---------- the variables ----------

  const ENABLE := "DELIBERUM_ENABLE_" + "OPENAI_COMPATIBLE_"
  const OPENAI := "DELIBERUM_OPENAI_"
  const ROLE := "ROLE_DEFAULT_"
  const CONFIG_ID := "_PROVIDER_CONFIG_ID"
  const FORMAT := "_RESPONSE_FORMAT"
  const OPENAI_MAIN := "openai-main"

  function Enabled(suffix: string): Assignment {
    Assignment(ENABLE + suffix, "true")
  }

  function OpenAI(suffix: string, value: string): Assignment {
    Assignment(OPENAI + suffix, value)
  }

  const SWITCHES: seq<Assignment> := [Enabled("PROFILE"), Enabled("EXTRACTION"), Enabled("REVIEW"),
      Enabled("FINALIZATION")]

  const CONFIG_IDS: seq<Assignment> :=
    [OpenAI("EXTRACTION" + CONFIG_ID, OPENAI_MAIN), OpenAI("REVIEW" + CONFIG_ID, OPENAI_MAIN),
     OpenAI("FINAL_CANDIDATE" + CONFIG_ID, OPENAI_MAIN), OpenAI("FINAL_AUDIT" + CONFIG_ID, OPENAI_MAIN)]

  const STRUCTURED: seq<Assignment> :=
    [OpenAI("EXTRACTION" + FORMAT, "json_object"), OpenAI("REVIEW" + FORMAT, "json_object"),
     OpenAI("FINAL_CANDIDATE" + FORMAT, "json_object"), OpenAI("FINAL_AUDIT" + FORMAT, "json_object"),
     OpenAI("TOKEN_PARAMETER", "max_completion_tokens"), OpenAI("MAX_COMPLETION_TOKENS", "4096"),
         OpenAI("TEMPERATURE", "0")]

  datatype Setup = Setup(apiKey: string, baseUrl: string, model: string, structuredReview: bool)

  function AccessBlock(s: Setup): seq<Assignment> {
    [OpenAI("BASE_URL", s.baseUrl), OpenAI("MODEL", s.model), OpenAI("API_KEY", s.apiKey)]
  }

  /** The assignments of the printed provider block, in order. */
  function ProviderBlock(s: Setup): seq<Assignment> {
    SWITCHES + CONFIG_IDS + (if s.structuredReview then STRUCTURED else []) + AccessBlock(s)
  }

  /** Empty texts stand for overrides that are not set. */
  datatype RoleDefaults =
    RoleDefaults(perspectiveCount: nat, model: string, reviewModel: string, custom: bool, a: string, b: string,
        c: string)

  const COUNT := OPENAI + (ROLE + "PERSPECTIVE_COUNT")
  const CUSTOM := OPENAI + (ROLE + "CUSTOM_PERSPECTIVE_MODELS")
  const ROLE_MODEL := OPENAI + (ROLE + "MODEL")
  const REVIEW_MODEL := OPENAI + (ROLE + "REVIEW_MODEL")
  const MODEL_A := OPENAI + (ROLE + "PERSPECTIVE_A_MODEL")
  const MODEL_B := OPENAI + (ROLE + "PERSPECTIVE_B_MODEL")
  const MODEL_C := OPENAI + (ROLE + "PERSPECTIVE_C_MODEL")

  const ROLE_VARS: seq<string> := [COUNT, CUSTOM, ROLE_MODEL, REVIEW_MODEL, MODEL_A, MODEL_B, MODEL_C]

  function IfSet(name: string, value: string): seq<Assignment> {
    if value == "" then [] else [Assignment(name, value)]
  }

  function CountText(count: nat): string {
    if count == 3 then "3" else "2"
  }

  function BoolText(b: bool): string {
    if b then "true" else "false"
  }

  function RoleValues(d: RoleDefaults): seq<string> {
    [CountText(d.perspectiveCount), BoolText(d.custom), d.model, d.reviewModel,
     if d.custom then d.a else "", if d.custom then d.b else "", if d.custom then d.c else ""]
  }

  /** One assignment for each value that is not empty. */
  function SetOnes(names: seq<string>, values: seq<string>): seq<Assignment>
    requires |names| == |values|
  {
    if names == [] then [] else IfSet(names[0], values[0]) + SetOnes(names[1..], values[1..])
  }

  /** The assignments of the printed role block, in order. */
  function RolesBlock(d: RoleDefaults): seq<Assignment> {
    SetOnes(ROLE_VARS, RoleValues(d))
  }

  // ---------- facts about the names ----------

  predicate NameText(t: string) {
    forall i :: 0 <= i < |t| ==> NameChar(t[i])
  }

  lemma EnableIsName()
    ensures NameText(ENABLE) && |ENABLE| == 35 && ENABLE[10] == 'E'
  {
    var first, second := "DELIBERUM_ENABLE_", "OPENAI_COMPATIBLE_";
    assert NameText(first) && |first| == 17 && first[10] == 'E';
    assert NameText(second) && |second| == 18;
    NameTextConcat(first, second);
  }

  lemma NameTextConcat(a: string, b: string)
    requires NameText(a) && NameText(b)
    ensures NameText(a + b)
  {
    hide NameChar;
  }

  lemma OpenAIIsName()
    ensures NameText(OPENAI) && |OPENAI| == 17 && OPENAI[10] == 'O'
  {
  }

  lemma RolePartsAreNames()
    ensures NameText(ROLE) && |ROLE| > 2 && ROLE[0] == 'R' && ROLE[1] == 'O'
    ensures NameText(CONFIG_ID) && NameText(FORMAT)
  {
  }

  lemma PrefixesAreNames()
    ensures NameText(ENABLE) && NameText(OPENAI) && NameText(ROLE) && NameText(CONFIG_ID) && NameText(FORMAT)
    ensures |ENABLE| == 35 && |OPENAI| == 17 && ENABLE[10] == 'E' && OPENAI[10] == 'O'
    ensures |ROLE| > 2 && ROLE[0] == 'R' && ROLE[1] == 'O'
  {
    hide NameText;
    EnableIsName();
    OpenAIIsName();
    RolePartsAreNames();
  }

  /** Which of the groups a name is in can be told from four of its characters. */
  predicate IsSwitch(n: string) {
    IsName(n) && |n| > 18 && n[10] == 'E'
  }

  predicate IsOpenAI(n: string) {
    IsName(n) && |n| > 18 && n[10] == 'O'
  }

  predicate IsConfigId(n: string) {
    IsOpenAI(n) && n[|n| - 1] == 'D' && !(n[17] == 'R' && n[18] == 'O')
  }

  predicate IsAccess(n: string) {
    IsOpenAI(n) && !(n[17] == 'R' && n[18] == 'O')
  }

  predicate IsStructured(n: string) {
    IsOpenAI(n) && n[|n| - 1] != 'D' && !(n[17] == 'R' && n[18] == 'O')
  }

  predicate IsRole(n: string) {
    IsOpenAI(n) && n[17] == 'R' && n[18] == 'O'
  }

  lemma SwitchName(suffix: string)
    requires NameText(suffix)
    ensures IsSwitch(ENABLE + suffix)
  {
    hide NameChar;
    PrefixesAreNames();
  }

  lemma OpenAIName(suffix: string)
    requires NameText(suffix) && |suffix| > 1
    ensures var n := OPENAI + suffix;
      IsOpenAI(n) && n[17] == suffix[0] && n[18] == suffix[1] && n[|n| - 1] == suffix[|suffix| - 1]
  {
    hide NameChar;
    PrefixesAreNames();
  }

  lemma StageName(stage: string, what: string)
    requires NameText(stage) && NameText(what) && |stage| > 1 && what != ""
    ensures var n := OPENAI + (stage + what);
      IsOpenAI(n) && n[17] == stage[0] && n[18] == stage[1] && n[|n| - 1] == what[|what| - 1]
  {
    hide NameChar;
    OpenAIName(stage + what);
  }

  lemma StagesAreNames()
    ensures NameText("EXTRACTION") && NameText("REVIEW") && NameText("FINAL_CANDIDATE") && NameText("FINAL_AUDIT")
  {
  }

  lemma SwitchNames(i: nat)
    requires i < |SWITCHES|
    ensures IsSwitch(SWITCHES[i].name) && SWITCHES[i].value == "true"
  {
    hide IsSwitch;
    StagesAreNames();
    assert NameText("PROFILE") && NameText("FINALIZATION");
    SwitchName("PROFILE");
    SwitchName("EXTRACTION");
    SwitchName("REVIEW");
    SwitchName("FINALIZATION");
  }

  lemma ConfigIdName(stage: string)
    requires NameText(stage) && |stage| > 1 && stage[1] != 'O'
    ensures IsConfigId(OPENAI + (stage + CONFIG_ID))
  {
    hide NameText, IsOpenAI;
    PrefixesAreNames();
    StageName(stage, CONFIG_ID);
  }

  lemma {:induction false} ConfigIdNames(i: nat)
    requires i < |CONFIG_IDS|
    ensures IsConfigId(CONFIG_IDS[i].name) && CONFIG_IDS[i].value == OPENAI_MAIN
  {
    hide IsConfigId, NameText;
    StagesAreNames();
    ConfigIdName("EXTRACTION");
    ConfigIdName("REVIEW");
    ConfigIdName("FINAL_CANDIDATE");
    ConfigIdName("FINAL_AUDIT");
  }

  lemma FormatName(stage: string)
    requires NameText(stage) && |stage| > 1 && stage[1] != 'O'
    ensures IsStructured(OPENAI + (stage + FORMAT))
  {
    hide NameText, IsOpenAI;
    PrefixesAreNames();
    StageName(stage, FORMAT);
  }

  lemma StructuredName(suffix: string)
    requires NameText(suffix) && |suffix| > 1 && suffix[0] != 'R' && suffix[|suffix| - 1] != 'D'
    ensures IsStructured(OPENAI + suffix)
  {
    hide NameText, IsOpenAI;
    OpenAIName(suffix);
  }

  lemma {:induction false} StructuredNames(i: nat)
    requires i < |STRUCTURED|
    ensures IsStructured(STRUCTURED[i].name)
    ensures STRUCTURED[i].value in ["json_object", "max_completion_tokens", "4096", "0"]
  {
    hide IsStructured, NameText;
    StagesAreNames();
    FormatName("EXTRACTION");
    FormatName("REVIEW");
    FormatName("FINAL_CANDIDATE");
    FormatName("FINAL_AUDIT");
    OtherStructuredNames();
  }

  lemma OtherStructuredNames()
    ensures IsStructured(OPENAI + "TOKEN_PARAMETER") && IsStructured(OPENAI + "MAX_COMPLETION_TOKENS")
    ensures IsStructured(OPENAI + "TEMPERATURE")
  {
    hide IsStructured;
    StructuredName("TOKEN_PARAMETER");
    StructuredName("MAX_COMPLETION_TOKENS");
    StructuredName("TEMPERATURE");
  }

  lemma AccessNames()
    ensures IsAccess(OPENAI + "BASE_URL") && IsAccess(OPENAI + "MODEL") && IsAccess(OPENAI + "API_KEY")
  {
    hide IsOpenAI;
    OpenAIName("BASE_URL");
    OpenAIName("MODEL");
    OpenAIName("API_KEY");
  }

  lemma RoleName(suffix: string)
    requires NameText(suffix)
    ensures IsRole(OPENAI + (ROLE + suffix)) && |OPENAI + (ROLE + suffix)| == 30 + |suffix|
  {
    hide NameChar;
    PrefixesAreNames();
    OpenAIName(ROLE + suffix);
  }

  lemma SuffixesAreNames()
    ensures NameText("PERSPECTIVE_COUNT") && NameText("MODEL") && NameText("REVIEW_MODEL")
    ensures NameText("PERSPECTIVE_A_MODEL") && NameText("PERSPECTIVE_B_MODEL") && NameText("PERSPECTIVE_C_MODEL")
  {
  }

  lemma CustomSuffix()
    ensures NameText("CUSTOM_PERSPECTIVE_MODELS")
  {
  }

  lemma {:induction false} RoleNames(n: string)
    requires n in ROLE_VARS
    ensures IsRole(n)
  {
    hide IsRole, NameText;
    SuffixesAreNames();
    CustomSuffix();
    RoleName("PERSPECTIVE_COUNT");
    RoleName("CUSTOM_PERSPECTIVE_MODELS");
    RoleName("MODEL");
    RoleName("REVIEW_MODEL");
    RoleName("PERSPECTIVE_A_MODEL");
    RoleName("PERSPECTIVE_B_MODEL");
    RoleName("PERSPECTIVE_C_MODEL");
  }

  /** The role variables are seven different ones. */
  lemma {:induction false} RoleVarsDiffer(i: nat, j: nat)
    requires i < j < |ROLE_VARS|
    ensures ROLE_VARS[i] != ROLE_VARS[j]
  {
    assert |COUNT| == 47 && |CUSTOM| == 55 && |ROLE_MODEL| == 35 && |REVIEW_MODEL| == 42;
    assert |MODEL_A| == 49 && |MODEL_B| == 49 && |MODEL_C| == 49;
    PerspectiveVarsDiffer();
  }

  lemma PerspectiveVarsDiffer()
    ensures MODEL_A != MODEL_B && MODEL_A != MODEL_C && MODEL_B != MODEL_C
  {
    assert MODEL_A[42] == 'A' && MODEL_B[42] == 'B' && MODEL_C[42] == 'C';
  }

  // ---------- normalizing what was asked for ----------

  /** Checks whose text lies outside the model: what looks like a secret, and how a base URL is rewritten. */
  datatype Checks = Checks(secretLike: string -> bool, baseUrl: string -> Result<string, EnvError>)

  datatype SetupInput = SetupInput(apiKey: string, baseUrl: string, model: string, structuredReview: Option<bool>)

  function NormalizeText(value: string): (r: Result<string, EnvError>)
    ensures r.Ok? ==> r.value == Trim(value) && 0 < |r.value| <= 2048 && NoNewline(r.value)
  {
    var t := Trim(value);
    if t == "" || |t| > 2048 || exists i :: 0 <= i < |t| && (t[i] == '\r' || t[i] == '\n') then Err(ValueInvalid)
    else Ok(t)
  }

  function NormalizeNonSecret(checks: Checks, value: string): Result<string, EnvError> {
    match NormalizeText(value)
    case Err(e) => Err(e)
    case Ok(t) => if checks.secretLike(t) then Err(ValueInvalid) else Ok(t)
  }

  function NormalizeSecret(value: string): Result<string, EnvError> {
    match NormalizeText(value)
    case Err(e) => Err(e)
    case Ok(t) => if |t| < 8 then Err(ValueInvalid) else Ok(t)
  }

  function NormalizeBaseUrl(checks: Checks, value: string): Result<string, EnvError> {
    match NormalizeNonSecret(checks, value)
    case Err(e) => Err(e)
    case Ok(t) => checks.baseUrl(t)
  }

  function NormalizeSetup(checks: Checks, input: SetupInput): Result<Setup, EnvError> {
    match (NormalizeSecret(input.apiKey), NormalizeBaseUrl(checks, input.baseUrl),
        NormalizeNonSecret(checks, input.model))
    case (Ok(key), Ok(url), Ok(model)) =>
      Ok(Setup(key, url, model, if input.structuredReview.Some? then input.structuredReview.value else true))
    case _ => Err(ValueInvalid)
  }

  /** An override may be left empty. */
  function NormalizeModel(checks: Checks, value: string): Result<string, EnvError> {
    if Trim(value) == "" then Ok("") else NormalizeNonSecret(checks, Trim(value))
  }

  function NormalizeRoleDefaults(checks: Checks, d: RoleDefaults): Result<RoleDefaults, EnvError> {
    var count := if d.perspectiveCount == 3 then 3 else 2;
    match (NormalizeModel(checks, d.model), NormalizeModel(checks, d.reviewModel))
    case (Ok(model), Ok(review)) =>
      if !d.custom then Ok(RoleDefaults(count, model, review, false, "", "", ""))
      else
        (match (NormalizeModel(checks, d.a), NormalizeModel(checks, d.b), NormalizeModel(checks, d.c))
         case (Ok(a), Ok(b), Ok(c)) => Ok(RoleDefaults(count, model, review, true, a, b, c))
         case _ => Err(ValueInvalid))
    case _ => Err(ValueInvalid)
  }

  lemma NormalizedModelIsStable(checks: Checks, value: string)
    requires NormalizeModel(checks, value).Ok?
    ensures NormalizeModel(checks, NormalizeModel(checks, value).value) == NormalizeModel(checks, value)
  {
    TrimIsIdempotent(value);
  }

  /** Normalizing twice is normalizing once. */
  lemma {:induction false} NormalizedDefaultsAreStable(checks: Checks, d: RoleDefaults)
    requires NormalizeRoleDefaults(checks, d).Ok?
    ensures NormalizeRoleDefaults(checks, NormalizeRoleDefaults(checks, d).value) == NormalizeRoleDefaults(checks, d)
  {
    hide NormalizeModel;
    EmptyModelIsStable(checks);
    NormalizedModelIsStable(checks, d.model);
    NormalizedModelIsStable(checks, d.reviewModel);
    if d.custom {
      NormalizedModelIsStable(checks, d.a);
      NormalizedModelIsStable(checks, d.b);
      NormalizedModelIsStable(checks, d.c);
    }
  }

  lemma EmptyModelIsStable(checks: Checks)
    ensures NormalizeModel(checks, "") == Ok("")
  {
  }

  // ---------- applying to and loading into an environment ----------

  function NamesOf(block: seq<Assignment>): set<string> {
    set i | 0 <= i < |block| :: block[i].name
  }

  function RoleVars(): set<string> {
    set n | n in ROLE_VARS
  }

  function AppliedSetup(env: Env, s: Setup): Env {
    var on := Assigned(env, SWITCHES + CONFIG_IDS);
    var reviewed := if s.structuredReview then Assigned(on, STRUCTURED) else on - NamesOf(STRUCTURED);
    Assigned(reviewed, AccessBlock(s))
  }

  function AppliedRoles(env: Env, d: RoleDefaults): Env {
    Assigned(env - RoleVars(), RolesBlock(d))
  }

  function ReadRoleDefaults(checks: Checks, env: Env): Result<Option<RoleDefaults>, EnvError> {
    if Lookup(env, COUNT) == "" then Ok(None)
    else
      var d := RoleDefaults(if env[COUNT] == "3" then 3 else 2, Lookup(env, ROLE_MODEL), Lookup(env, REVIEW_MODEL),
                            Lookup(env, CUSTOM) == "true", Lookup(env, MODEL_A), Lookup(env, MODEL_B),
                                Lookup(env, MODEL_C));
      match NormalizeRoleDefaults(checks, d)
      case Err(e) => Err(e)
      case Ok(n) => Ok(Some(n))
  }

  function Lookup(env: Env, name: string): string {
    if name in env then env[name] else ""
  }

  function ProviderVars(): set<string> {
    NamesOf(SWITCHES + CONFIG_IDS) + NamesOf(STRUCTURED) + AccessVars()
  }

  function AccessVars(): set<string> {
    {OPENAI + "BASE_URL", OPENAI + "MODEL", OPENAI + "API_KEY"}
  }

  predicate IsManaged(name: string) {
    name in ProviderVars() || name in RoleVars()
  }

  /** The assignments of both blocks; nothing when there are none. */
  function ParseBlocks(content: string): Result<Option<Env>, EnvError> {
    match (ParseBlock(content, MarkersOf(Provider)), ParseBlock(content, MarkersOf(Roles)))
    case (Ok(p), Ok(r)) =>
      var env: Env := OrEmpty(p) + OrEmpty(r);
      Ok(if env == map[] then None else Some(env))
    case _ => Err(FileInvalid)
  }

  function OrEmpty(block: Option<Env>): Env {
    if block.Some? then block.value else map[]
  }

  predicate Taken(env: Env, name: string) {
    name in env && !IsBlank(env[name])
  }

  predicate Loads(env: Env, name: string) {
    IsManaged(name) && !Taken(env, name)
  }

  /** Managed variables are set unless the environment already gives them a value that is not blank. */
  function Loaded(env: Env, assignments: Env): Env {
    env + map n | n in assignments && Loads(env, n) :: assignments[n]
  }

  /** The same for some of the names only. */
  function LoadedUpTo(env: Env, assignments: Env, names: seq<string>): Env {
    env + map n | n in names && n in assignments && Loads(env, n) :: assignments[n]
  }

  /** The names that are loaded, or those that are not, in their order. */
  function Those(names: seq<string>, env: Env, loaded: bool): (r: seq<string>)
    ensures forall n :: n in r <==> n in names && Loads(env, n) == loaded
  {
    if names == [] then []
    else (if Loads(env, names[0]) == loaded then [names[0]] else []) + Those(names[1..], env, loaded)
  }

  /** The names of both blocks, the provider block's first; a name in both stays where it is in the first. */
  function AllNames(a: seq<string>, b: seq<string>): seq<string>
    decreases |b|
  {
    if b == [] then a else AllNames(NameOnce(a, b[0]), b[1..])
  }

  function NamesInFile(content: string): seq<string> {
    AllNames(NamesOfBlock(content, MarkersOf(Provider)), NamesOfBlock(content, MarkersOf(Roles)))
  }

  function AssignmentsIn(file: Option<string>): Result<Option<Env>, EnvError> {
    if file.None? then Ok(None) else ParseBlocks(file.value)
  }

  function LoadedFile(env: Env, file: Option<string>): Result<Env, EnvError> {
    match AssignmentsIn(file)
    case Err(e) => Err(e)
    case Ok(None) => Ok(env)
    case Ok(Some(assignments)) => Ok(Loaded(env, assignments))
  }

  // ---------- requests ----------

  datatype Request = SaveSetup(setup: SetupInput) | SaveRoleDefaults(defaults: RoleDefaults) | ClearRoleDefaults

  /** The env file and the environment of the running daemon. */
  datatype State = State(file: Option<string>, env: Env)

  /** The write the file gets, or the error that stops the request before it. */
  function OpOf(checks: Checks, request: Request): Result<Op, EnvError> {
    match request
    case SaveSetup(input) =>
      (match NormalizeSetup(checks, input)
       case Err(e) => Err(e)
       case Ok(s) => Ok(Save(Provider, ProviderBlock(s))))
    case SaveRoleDefaults(d) =>
      (match NormalizeRoleDefaults(checks, d)
       case Err(e) => Err(e)
       case Ok(n) => Ok(Save(Roles, RolesBlock(n))))
    case ClearRoleDefaults => Ok(ClearRoles)
  }

  function AppliedRequest(checks: Checks, env: Env, request: Request): Env {
    match request
    case SaveSetup(input) =>
      (match NormalizeSetup(checks, input) case Err(_) => env case Ok(s) => AppliedSetup(env, s))
    case SaveRoleDefaults(d) =>
      (match NormalizeRoleDefaults(checks, d) case Err(_) => env case Ok(n) => AppliedRoles(env, n))
    case ClearRoleDefaults => env - RoleVars()
  }

  /** A request that is rejected changes nothing; any other changes the file first, then the environment. */
  function Handle(checks: Checks, st: State, request: Request): Result<State, EnvError> {
    match OpOf(checks, request)
    case Err(e) => Err(e)
    case Ok(op) =>
      (match Step(st.file, op)
       case Err(e) => Err(e)
       case Ok(file) => Ok(State(file, AppliedRequest(checks, st.env, request))))
  }

  function HandleAll(checks: Checks, st: State, requests: seq<Request>): State
    decreases |requests|
  {
    if requests == [] then st
    else
      match Handle(checks, st, requests[0])
      case Err(_) => HandleAll(checks, st, requests[1..])
      case Ok(next) => HandleAll(checks, next, requests[1..])
  }

  /** The daemon's side: the file it owns and its live environment, updated in place. */
  class Daemon {
    var file: Option<string>
    var env: Env

    constructor (file: Option<string>, env: Env)
      ensures this.file == file && this.env == env
    {
      this.file, this.env := file, env;
    }

    method SetAll(block: seq<Assignment>)
      modifies this`env
      ensures env == Assigned(old(env), block)
    {
      var i := 0;
      while i < |block|
        invariant 0 <= i <= |block|
        invariant Assigned(old(env), block) == Assigned(env, block[i..])
      {
        assert block[i..][1..] == block[i + 1..];
        env := env[block[i].name := block[i].value];
        i := i + 1;
      }
    }

    method Delete(names: seq<string>)
      modifies this`env
      ensures env == old(env) - set n | n in names
    {
      var i := 0;
      while i < |names|
        invariant 0 <= i <= |names|
        invariant env == old(env) - set n | n in names[..i]
      {
        assert names[..i + 1] == names[..i] + [names[i]];
        env := env - {names[i]};
        i := i + 1;
      }
      assert names[..i] == names;
    }

    method ApplySetup(s: Setup)
      modifies this`env
      ensures env == AppliedSetup(old(env), s)
    {
      SetAll(SWITCHES + CONFIG_IDS);
      if s.structuredReview {
        SetAll(STRUCTURED);
      } else {
        var names := seq(|STRUCTURED|, i requires 0 <= i < |STRUCTURED| => STRUCTURED[i].name);
        Delete(names);
        assert (set n | n in names) == NamesOf(STRUCTURED) by {
          assert forall i :: 0 <= i < |STRUCTURED| ==> names[i] == STRUCTURED[i].name;
        }
      }
      SetAll(AccessBlock(s));
    }

    method ApplyRoleDefaults(d: RoleDefaults)
      modifies this`env
      ensures env == AppliedRoles(old(env), d)
    {
      Delete(ROLE_VARS);
      SetAll(RolesBlock(d));
    }

    method HandleRequest(checks: Checks, request: Request) returns (r: Result<(), EnvError>)
      modifies this
      ensures match Handle(checks, State(old(file), old(env)), request)
        case Err(e) => r == Err(e) && file == old(file) && env == old(env)
        case Ok(next) => r == Ok(()) && file == next.file && env == next.env
    {
      match request {
        case SaveSetup(input) =>
          var setup := NormalizeSetup(checks, input);
          if setup.Err? {
            return Err(setup.error);
          }
          var next := Merge(file, BlockOf(Provider, ProviderBlock(setup.value)), MarkersOf(Provider));
          if next.Err? {
            return Err(next.error);
          }
          file := Some(next.value);
          ApplySetup(setup.value);
        case SaveRoleDefaults(d) =>
          var defaults := NormalizeRoleDefaults(checks, d);
          if defaults.Err? {
            return Err(defaults.error);
          }
          var next := Merge(file, BlockOf(Roles, RolesBlock(defaults.value)), MarkersOf(Roles));
          if next.Err? {
            return Err(next.error);
          }
          file := Some(next.value);
          ApplyRoleDefaults(defaults.value);
        case ClearRoleDefaults =>
          var next := Remove(file, MarkersOf(Roles));
          if next.Err? {
            return Err(next.error);
          }
          if next.value != file {
            file := Some(if next.value.Some? then next.value.value else "");
          }
          Delete(ROLE_VARS);
      }
      r := Ok(());
    }

    /** Start-up: whether a block was there, and the names that were applied and skipped, in the file's order. */
    method LoadManagedEnvFile() returns (r: Result<bool, EnvError>, applied: seq<string>, skipped: seq<string>)
      modifies this`env
      ensures match LoadedFile(old(env), file)
        case Err(e) => r == Err(e) && env == old(env)
        case Ok(next) => r.Ok? && env == next
      ensures match AssignmentsIn(file)
        case Err(e) => r == Err(e)
        case Ok(None) => r == Ok(false) && applied == [] && skipped == []
        case Ok(Some(all)) =>
          && r == Ok(true)
          && applied == Those(NamesInFile(file.value), old(env), true)
          && skipped == Those(NamesInFile(file.value), old(env), false)
          && forall n :: n in all <==> n in applied || n in skipped
    {
      hide Loaded, ParseBlocks, NamesInFile, Loads;
      applied, skipped := [], [];
      if file.None? {
        return Ok(false), [], [];
      }
      var parsed, names := ParseManagedDaemonEnvBlocks(file.value);
      if parsed.Err? {
        return Err(parsed.error), [], [];
      }
      if parsed.value.None? {
        return Ok(false), [], [];
      }
      applied, skipped := LoadAll(parsed.value.value, names);
      r := Ok(true);
    }

    method LoadAll(all: Env, names: seq<string>) returns (applied: seq<string>, skipped: seq<string>)
      requires IsOrderOf(names, all)
      modifies this`env
      ensures env == Loaded(old(env), all)
      ensures applied == Those(names, old(env), true) && skipped == Those(names, old(env), false)
    {
      hide IsManaged, IsBlank, LoadedUpTo, Taken, Loaded, Those;
      applied, skipped := [], [];
      NothingUpTo(env, all);
      var i := 0;
      while i < |names|
        invariant 0 <= i <= |names|
        invariant applied == Those(names[..i], old(env), true) && skipped == Those(names[..i], old(env), false)
        invariant env == LoadedUpTo(old(env), all, names[..i])
      {
        assert names[..i + 1] == names[..i] + [names[i]];
        assert forall k :: 0 <= k < i ==> names[..i][k] != names[i];
        StaysTaken(old(env), all, names[..i], names[i]);
        LoadStep(old(env), all, names[..i], names[i]);
        ThoseStep(names[..i], old(env), true, names[i]);
        ThoseStep(names[..i], old(env), false, names[i]);
        if !IsManaged(names[i]) || Taken(env, names[i]) {
          skipped := skipped + [names[i]];
        } else {
          env := env[names[i] := all[names[i]]];
          applied := applied + [names[i]];
        }
        i := i + 1;
      }
      assert names[..i] == names;
      AllUpTo(old(env), all, names);
    }
  }

  /** Both blocks of a file, and their names in order. */
  method ParseManagedDaemonEnvBlocks(content: string) returns (r: Result<Option<Env>, EnvError>, names: seq<string>)
    ensures r == ParseBlocks(content)
    ensures r.Ok? ==> names == NamesInFile(content)
    ensures r.Ok? && r.value.Some? ==> IsOrderOf(names, r.value.value)
  {
    hide ParseBlock, NamesOfBlock, IsOrderOf, MarkersOf;
    var provider, first := ParseManagedDaemonEnvBlock(content, MarkersOf(Provider));
    if provider.Err? {
      ParseErrors(content, MarkersOf(Provider));
      return Err(provider.error), [];
    }
    var roles, second := ParseManagedDaemonEnvBlock(content, MarkersOf(Roles));
    if roles.Err? {
      ParseErrors(content, MarkersOf(Roles));
      return Err(roles.error), [];
    }
    names := AllNames(first, second);
    var env := OrEmpty(provider.value) + OrEmpty(roles.value);
    BlockNamesAreKeys(content, MarkersOf(Provider));
    BlockNamesAreKeys(content, MarkersOf(Roles));
    AllNamesAreKeys(first, second, OrEmpty(provider.value), OrEmpty(roles.value));
    r := Ok(if env == map[] then None else Some(env));
  }

  lemma ParseErrors(content: string, m: Markers)
    ensures ParseBlock(content, m).Err? ==> ParseBlock(content, m) == Err(FileInvalid)
  {
    hide IndexOf, SplitAtBreaks, ReadLines;
    var body := BlockBody(content, m);
    if body.Ok? && body.value.Some? {
      LinesErrors(SplitAtBreaks(body.value.value), map[]);
    }
  }

  lemma BlockNamesAreKeys(content: string, m: Markers)
    requires ParseBlock(content, m).Ok?
    ensures IsOrderOf(NamesOfBlock(content, m), OrEmpty(ParseBlock(content, m).value))
  {
    hide BlockBody, SplitAtBreaks, ReadLines, NamesRead;
    var body := BlockBody(content, m);
    if body.value.Some? {
      NamesAreKeys(SplitAtBreaks(body.value.value), [], map[]);
    }
  }

  lemma RestIsOrder(names: seq<string>, env: Env)
    requires IsOrderOf(names, env) && names != []
    ensures names[0] in env && IsOrderOf(names[1..], env - {names[0]})
  {
    forall n | n in env && n != names[0]
      ensures n in names[1..]
    {
      assert names == [names[0]] + names[1..];
    }
  }

  lemma NoNamesLeft(env: Env)
    requires IsOrderOf([], env)
    ensures env == map[]
  {
    assert env.Keys == {};
  }

  lemma SetOverRest(x: Env, y: Env, n: string)
    requires n in y
    ensures x[n := y[n]] + (y - {n}) == x + y
  {
  }

  lemma {:induction false} AllNamesAreKeys(a: seq<string>, b: seq<string>, x: Env, y: Env)
    requires IsOrderOf(a, x) && IsOrderOf(b, y)
    ensures IsOrderOf(AllNames(a, b), x + y)
    decreases |b|
  {
    hide IsOrderOf, NameOnce;
    if b == [] {
      NoNamesLeft(y);
      assert x + map[] == x;
    } else {
      RestIsOrder(b, y);
      OnceIsOrder(a, x, Assignment(b[0], y[b[0]]));
      AllNamesAreKeys(NameOnce(a, b[0]), b[1..], x[b[0] := y[b[0]]], y - {b[0]});
      SetOverRest(x, y, b[0]);
    }
  }

  lemma NothingUpTo(env: Env, all: Env)
    ensures LoadedUpTo(env, all, []) == env && Those([], env, true) == [] && Those([], env, false) == []
  {
    hide Loads;
  }

  lemma AllUpTo(env: Env, all: Env, names: seq<string>)
    requires IsOrderOf(names, all)
    ensures LoadedUpTo(env, all, names) == Loaded(env, all)
  {
    hide Loads;
  }

  lemma StaysTaken(env: Env, all: Env, done: seq<string>, name: string)
    requires name !in done
    ensures Taken(LoadedUpTo(env, all, done), name) == Taken(env, name)
  {
    hide IsBlank, Loads;
  }

  lemma LoadStep(env: Env, all: Env, done: seq<string>, name: string)
    requires name in all && name !in done
    ensures LoadedUpTo(env, all, done + [name]) ==
            if Loads(env, name) then LoadedUpTo(env, all, done)[name := all[name]] else LoadedUpTo(env, all, done)
  {
    hide Loads;
    assert forall n :: n in done + [name] <==> n in done || n == name;
  }

  lemma {:induction false} ThoseStep(names: seq<string>, env: Env, loaded: bool, name: string)
    ensures Those(names + [name], env, loaded)
         == Those(names, env, loaded) + (if Loads(env, name) == loaded then [name] else [])
    decreases |names|
  {
    hide Loads;
    if names == [] {
      assert names + [name] == [name] && [name][1..] == [];
    } else {
      assert (names + [name])[1..] == names[1..] + [name];
      ThoseStep(names[1..], env, loaded, name);
    }
  }

  // ---------- which names a block sets ----------

  lemma {:induction false} AssignedIsOverlay(env: Env, block: seq<Assignment>)
    ensures Assigned(env, block) == env + Assigned(map[], block)
    ensures Assigned(env, block).Keys == env.Keys + NamesOf(block)
    decreases |block|
  {
    if block != [] {
      var a, rest := block[0], block[1..];
      var none: Env := map[];
      AssignedIsOverlay(env[a.name := a.value], rest);
      AssignedIsOverlay(none[a.name := a.value], rest);
      assert block == [a] + rest;
      NamesOfConcat([a], rest);
      assert NamesOf([a]) == {a.name};
    }
  }

  lemma NamesOfConcat(a: seq<Assignment>, b: seq<Assignment>)
    ensures NamesOf(a + b) == NamesOf(a) + NamesOf(b)
  {
    forall n | n in NamesOf(a) + NamesOf(b)
      ensures n in NamesOf(a + b)
    {
      if n in NamesOf(a) {
        var i :| 0 <= i < |a| && a[i].name == n;
        assert (a + b)[i].name == n;
      } else {
        var i :| 0 <= i < |b| && b[i].name == n;
        assert (a + b)[|a| + i].name == n;
      }
    }
  }

  lemma {:induction false} AssignedConcat(env: Env, a: seq<Assignment>, b: seq<Assignment>)
    ensures Assigned(env, a + b) == Assigned(Assigned(env, a), b)
    decreases |a|
  {
    if a == [] {
      assert a + b == b;
    } else {
      assert (a + b)[1..] == a[1..] + b;
      AssignedConcat(env[a[0].name := a[0].value], a[1..], b);
    }
  }

  lemma {:induction false} GroupsApart()
    ensures ProviderVars() !! RoleVars()
    ensures NamesOf(SWITCHES + CONFIG_IDS) !! NamesOf(STRUCTURED)
  {
    hide IsSwitch, IsConfigId, IsStructured, IsRole, IsAccess;
    NamesOfConcat(SWITCHES, CONFIG_IDS);
    forall n | n in ProviderVars()
      ensures IsSwitch(n) || IsConfigId(n) || IsStructured(n) || IsAccess(n)
      ensures n in NamesOf(SWITCHES) ==> IsSwitch(n)
      ensures n in NamesOf(CONFIG_IDS) ==> IsConfigId(n)
      ensures n in NamesOf(STRUCTURED) ==> IsStructured(n)
    {
      NameGroup(n);
    }
    forall n: string
      ensures IsRole(n) ==> !IsSwitch(n) && !IsConfigId(n) && !IsStructured(n) && !IsAccess(n)
      ensures IsStructured(n) ==> !IsSwitch(n) && !IsConfigId(n)
    {
      GroupsDiffer(n);
    }
    forall n | n in RoleVars()
      ensures IsRole(n)
    {
      RoleNames(n);
    }
  }

  lemma GroupsDiffer(n: string)
    ensures IsRole(n) ==> !IsSwitch(n) && !IsConfigId(n) && !IsStructured(n) && !IsAccess(n)
    ensures IsStructured(n) ==> !IsSwitch(n) && !IsConfigId(n)
  {
  }

  lemma {:induction false} NameGroup(n: string)
    ensures n in NamesOf(SWITCHES) ==> IsSwitch(n)
    ensures n in NamesOf(CONFIG_IDS) ==> IsConfigId(n)
    ensures n in NamesOf(STRUCTURED) ==> IsStructured(n)
    ensures n in AccessVars() ==> IsAccess(n)
  {
    hide IsSwitch, IsConfigId, IsStructured, IsAccess;
    if n in NamesOf(SWITCHES) {
      var i :| 0 <= i < |SWITCHES| && SWITCHES[i].name == n;
      SwitchNames(i);
    }
    if n in NamesOf(CONFIG_IDS) {
      var i :| 0 <= i < |CONFIG_IDS| && CONFIG_IDS[i].name == n;
      ConfigIdNames(i);
    }
    if n in NamesOf(STRUCTURED) {
      var i :| 0 <= i < |STRUCTURED| && STRUCTURED[i].name == n;
      StructuredNames(i);
    }
    AccessNames();
  }

  lemma NamesOfProviderBlock(s: Setup)
    ensures NamesOf(ProviderBlock(s)) == NamesOf(SWITCHES + CONFIG_IDS) +
        (if s.structuredReview then NamesOf(STRUCTURED) else {}) + AccessVars()
  {
    hide AccessVars;
    var middle := if s.structuredReview then STRUCTURED else [];
    NamesOfConcat(SWITCHES + CONFIG_IDS, middle);
    NamesOfConcat(SWITCHES + CONFIG_IDS + middle, AccessBlock(s));
    NamesOfAccess(s);
  }

  lemma NamesOfAccess(s: Setup)
    ensures NamesOf(AccessBlock(s)) == AccessVars()
  {
    var block := AccessBlock(s);
    assert block[0].name == OPENAI + "BASE_URL" && block[1].name == OPENAI + "MODEL" &&
        block[2].name == OPENAI + "API_KEY";
  }

  lemma {:induction false} NamesOfSetOnes(names: seq<string>, values: seq<string>)
    requires |names| == |values|
    ensures forall n :: n in NamesOf(SetOnes(names, values)) ==> n in names
    decreases |names|
  {
    if names != [] {
      NamesOfSetOnes(names[1..], values[1..]);
      NamesOfConcat(IfSet(names[0], values[0]), SetOnes(names[1..], values[1..]));
    }
  }

  lemma NamesOfRolesBlock(d: RoleDefaults)
    ensures NamesOf(RolesBlock(d)) <= RoleVars()
  {
    hide SetOnes, NamesOf;
    NamesOfSetOnes(ROLE_VARS, RoleValues(d));
  }

  // ---------- applying over what is there ----------

  function ProviderEnv(setup: Option<Setup>): Env {
    match setup
    case None => map[]
    case Some(s) => Assigned(map[], ProviderBlock(s))
  }

  function RolesEnv(defaults: Option<RoleDefaults>): Env {
    match defaults
    case None => map[]
    case Some(d) => Assigned(map[], RolesBlock(d))
  }

  /** What requests have been accepted: the last setup, the last role defaults, and whether any was for the roles. */
  datatype Accepted = Accepted(setup: Option<Setup>, defaults: Option<RoleDefaults>, rolesTouched: bool)

  const NOTHING := Accepted(None, None, false)

  /** Variables that accepted requests have taken out of the environment the daemon was started with. */
  function Gone(acc: Accepted): set<string> {
    (if acc.setup.Some? && !acc.setup.value.structuredReview then NamesOf(STRUCTURED) else {})
    + (if acc.rolesTouched then RoleVars() else {})
  }

  /** What is saved of them. */
  function SavedEnv(acc: Accepted): Env {
    ProviderEnv(acc.setup) + RolesEnv(acc.defaults)
  }

  /** A daemon's environment: what is left of the one it was started with, and over it what is saved. */
  function Live(env: Env, acc: Accepted): Env {
    env - Gone(acc) + SavedEnv(acc)
  }

  predicate Unset(env: Env) {
    forall n :: n in env ==> !IsManaged(n)
  }

  lemma ProviderEnvKeys(setup: Option<Setup>)
    ensures ProviderEnv(setup).Keys <= ProviderVars()
    ensures setup.Some? ==> ProviderVars() - NamesOf(STRUCTURED) <= ProviderEnv(setup).Keys
    ensures setup.Some? && setup.value.structuredReview ==> ProviderVars() <= ProviderEnv(setup).Keys
  {
    hide Assigned, NamesOf, AccessVars, ProviderBlock;
    if setup.Some? {
      NamesOfProviderBlock(setup.value);
      AssignedIsOverlay(map[], ProviderBlock(setup.value));
    }
  }

  lemma RolesEnvKeys(defaults: Option<RoleDefaults>)
    ensures RolesEnv(defaults).Keys <= RoleVars()
  {
    hide Assigned, NamesOf, RolesBlock, RoleVars;
    if defaults.Some? {
      NamesOfRolesBlock(defaults.value);
      AssignedIsOverlay(map[], RolesBlock(defaults.value));
    }
  }

  /** Applying a setup is one overlay, after the review variables are gone when they are not wanted. */
  lemma {:induction false} AppliedSetupIsOverlay(env: Env, s: Setup)
    ensures AppliedSetup(env, s) ==
            (if s.structuredReview then env else env - NamesOf(STRUCTURED)) + ProviderEnv(Some(s))
  {
    hide NamesOf, AccessVars, AccessBlock, Assigned;
    var first := SWITCHES + CONFIG_IDS;
    var gone := NamesOf(STRUCTURED);
    GroupsApart();
    AssignedConcat(map[], first, if s.structuredReview then STRUCTURED else []);
    AssignedConcat(map[], first + (if s.structuredReview then STRUCTURED else []), AccessBlock(s));
    AssignedIsOverlay(env, first);
    AssignedIsOverlay(map[], first);
    var a := Assigned(map[], first);
    AssignedIsOverlay(a, AccessBlock(s));
    if s.structuredReview {
      AssignedIsOverlay(env + a, STRUCTURED);
      AssignedIsOverlay(a, STRUCTURED);
      AssignedIsOverlay(a + Assigned(map[], STRUCTURED), AccessBlock(s));
      AssignedIsOverlay(env + a + Assigned(map[], STRUCTURED), AccessBlock(s));
      OverlayAssoc(env, a, Assigned(map[], STRUCTURED), Assigned(map[], AccessBlock(s)));
    } else {
      assert first + [] == first;
      AssignedIsOverlay(env + a - gone, AccessBlock(s));
      OverlayWithout(env, a, gone, Assigned(map[], AccessBlock(s)));
    }
  }

  lemma OverlayAssoc(e: Env, a: Env, b: Env, c: Env)
    ensures e + a + b + c == e + (a + b + c)
  {
  }

  lemma OverlayWithout(e: Env, a: Env, gone: set<string>, c: Env)
    requires a.Keys !! gone
    ensures e + a - gone + c == e - gone + (a + c)
  {
  }

  /** Overlaying the provider's part again, whatever review variables were gone before. */
  lemma OverlayAgain(e: Env, p: Env, r: Env, q: Env, before: set<string>, roles: set<string>, gone: set<string>)
    requires p.Keys <= q.Keys + gone && r.Keys !! q.Keys + gone && before <= q.Keys + gone
    ensures e - (before + roles) + (p + r) - gone + q == e - (gone + roles) + (q + r)
  {
  }

  lemma SetupOverLive(env: Env, acc: Accepted, s: Setup)
    ensures AppliedSetup(Live(env, acc), s) == Live(env, acc.(setup := Some(s)))
  {
    hide NamesOf, AccessVars, Assigned, ProviderEnv, RolesEnv, RoleVars, AppliedSetup;
    AppliedSetupIsOverlay(Live(env, acc), s);
    ProviderEnvKeys(acc.setup);
    ProviderEnvKeys(Some(s));
    RolesEnvKeys(acc.defaults);
    GroupsApart();
    var before := if acc.setup.Some? && !acc.setup.value.structuredReview then NamesOf(STRUCTURED) else {};
    var roles := if acc.rolesTouched then RoleVars() else {};
    var gone := if s.structuredReview then {} else NamesOf(STRUCTURED);
    OverlayAgain(env, ProviderEnv(acc.setup), RolesEnv(acc.defaults), ProviderEnv(Some(s)), before, roles, gone);
    assert s.structuredReview ==> Live(env, acc) - gone == Live(env, acc);
  }

  lemma UnsetIsApart(env: Env)
    requires Unset(env)
    ensures env.Keys !! ProviderVars() && env.Keys !! RoleVars()
  {
    hide ProviderVars, RoleVars;
    forall n | n in env
      ensures !IsManaged(n)
    {
    }
  }

  lemma RolesOverLive(env: Env, acc: Accepted, d: RoleDefaults)
    ensures Live(env, acc) - RoleVars() == Live(env, acc.(defaults := None, rolesTouched := true))
    ensures AppliedRoles(Live(env, acc), d) == Live(env, acc.(defaults := Some(d), rolesTouched := true))
  {
    hide NamesOf, ProviderVars, Assigned, ProviderEnv, RoleVars, RolesBlock;
    ProviderEnvKeys(acc.setup);
    RolesEnvKeys(acc.defaults);
    GroupsApart();
    var before := if acc.setup.Some? && !acc.setup.value.structuredReview then NamesOf(STRUCTURED) else {};
    var roles := if acc.rolesTouched then RoleVars() else {};
    OverlayCleared(env, ProviderEnv(acc.setup), RolesEnv(acc.defaults), before, roles, RoleVars());
    AssignedIsOverlay(Live(env, acc.(defaults := None, rolesTouched := true)), RolesBlock(d));
    OverlayOnNothing(env - (before + RoleVars()), ProviderEnv(acc.setup), RolesEnv(Some(d)));
  }

  lemma OverlayCleared(e: Env, p: Env, r: Env, before: set<string>, roles: set<string>, gone: set<string>)
    requires p.Keys !! gone && r.Keys <= gone && roles <= gone
    ensures e - (before + roles) + (p + r) - gone == e - (before + gone) + (p + map[])
  {
  }

  lemma OverlayOnNothing(e: Env, p: Env, r: Env)
    ensures e + (p + map[]) + r == e + (p + r)
  {
  }

  // ---------- whole runs of requests ----------

  predicate SetupFree(s: Setup) {
    ValueOk(Provider, s.apiKey) && ValueOk(Provider, s.baseUrl) && ValueOk(Provider, s.model)
  }

  predicate DefaultsFree(d: RoleDefaults) {
    && ValueOk(Roles, d.model) && ValueOk(Roles, d.reviewModel)
    && ValueOk(Roles, d.a) && ValueOk(Roles, d.b) && ValueOk(Roles, d.c)
  }

  /**
   * If the request is accepted, its values hold neither their own block's END marker nor a marker of the other
   * block.
   */
  predicate RequestFree(checks: Checks, request: Request) {
    match request
    case SaveSetup(input) => NormalizeSetup(checks, input).Ok? ==> SetupFree(NormalizeSetup(checks, input).value)
    case SaveRoleDefaults(d) =>
      NormalizeRoleDefaults(checks, d).Ok? ==> DefaultsFree(NormalizeRoleDefaults(checks, d).value)
    case ClearRoleDefaults => true
  }

  lemma NoHashIsFree(kind: Kind, v: string)
    requires forall i :: 0 <= i < |v| ==> v[i] != '#'
    ensures ValueOk(kind, v)
  {
    hide MarkersOf, MarkerLike, IndexOf;
    MarkersAreApart(Provider, Provider);
    MarkersAreApart(Roles, Roles);
    NoHashNoMarker(v, MarkersOf(Provider).begin);
    NoHashNoMarker(v, MarkersOf(Provider).finish);
    NoHashNoMarker(v, MarkersOf(Roles).begin);
    NoHashNoMarker(v, MarkersOf(Roles).finish);
  }

  lemma NoHashNoMarker(v: string, m: string)
    requires MarkerLike(m) && forall i :: 0 <= i < |v| ==> v[i] != '#'
    ensures !Contains(v, m)
  {
    Differs(v, m, 0, 0);
    OnlyAtTheStart(v, m);
  }

  lemma ConstantsAreFree(kind: Kind, v: string)
    requires v in FIXED_VALUES || v == ""
    ensures ValueOk(kind, v)
  {
    hide ValueOk;
    FixedHaveNoHash();
    NoHashIsFree(kind, v);
  }

  predicate HasNoHash(v: string) {
    forall i :: 0 <= i < |v| ==> v[i] != '#'
  }

  const FIXED_VALUES := ["true", "false", "2", "3", OPENAI_MAIN, "json_object", "max_completion_tokens", "4096", "0"]

  lemma FixedHaveNoHash()
    ensures forall v :: v in FIXED_VALUES ==> HasNoHash(v)
  {
    assert HasNoHash("true") && HasNoHash("false") && HasNoHash("2") && HasNoHash("3") && HasNoHash(OPENAI_MAIN);
    assert HasNoHash("json_object") && HasNoHash("max_completion_tokens") && HasNoHash("4096") && HasNoHash("0");
  }

  lemma BlockOkConcat(kind: Kind, a: seq<Assignment>, b: seq<Assignment>)
    requires BlockOk(kind, a) && BlockOk(kind, b)
    ensures BlockOk(kind, a + b)
  {
    hide ValueOk, IsName;
  }

  lemma {:induction false} FixedBlocksAreOk()
    ensures BlockOk(Provider, SWITCHES) && BlockOk(Provider, CONFIG_IDS) && BlockOk(Provider, STRUCTURED)
    ensures BlockOk(Provider, [])
  {
    hide ValueOk, IsName, NameText;
    forall i | 0 <= i < |SWITCHES|
      ensures IsName(SWITCHES[i].name) && ValueOk(Provider, SWITCHES[i].value)
    {
      SwitchNames(i);
      ConstantsAreFree(Provider, SWITCHES[i].value);
    }
    forall i | 0 <= i < |CONFIG_IDS|
      ensures IsName(CONFIG_IDS[i].name) && ValueOk(Provider, CONFIG_IDS[i].value)
    {
      ConfigIdNames(i);
      ConstantsAreFree(Provider, CONFIG_IDS[i].value);
    }
    forall i | 0 <= i < |STRUCTURED|
      ensures IsName(STRUCTURED[i].name) && ValueOk(Provider, STRUCTURED[i].value)
    {
      StructuredNames(i);
      ConstantsAreFree(Provider, STRUCTURED[i].value);
    }
  }

  lemma {:induction false} ProviderBlockIsOk(s: Setup)
    requires SetupFree(s)
    ensures BlockOk(Provider, ProviderBlock(s))
  {
    hide ValueOk, IsName;
    FixedBlocksAreOk();
    AccessNames();
    var middle := if s.structuredReview then STRUCTURED else [];
    assert BlockOk(Provider, AccessBlock(s));
    hide BlockOk;
    BlockOkConcat(Provider, SWITCHES, CONFIG_IDS);
    BlockOkConcat(Provider, SWITCHES + CONFIG_IDS, middle);
    BlockOkConcat(Provider, SWITCHES + CONFIG_IDS + middle, AccessBlock(s));
  }

  lemma {:induction false} SetOnesAreOk(names: seq<string>, values: seq<string>)
    requires |names| == |values|
    requires forall i :: 0 <= i < |names| ==> IsName(names[i]) && ValueOk(Roles, values[i])
    ensures BlockOk(Roles, SetOnes(names, values))
    decreases |names|
  {
    hide ValueOk, IsName;
    if names != [] {
      SetOnesAreOk(names[1..], values[1..]);
      BlockOkConcat(Roles, IfSet(names[0], values[0]), SetOnes(names[1..], values[1..]));
    }
  }

  lemma RolesBlockIsOk(d: RoleDefaults)
    requires DefaultsFree(d)
    ensures BlockOk(Roles, RolesBlock(d))
  {
    hide ValueOk, IsName, SetOnes, BlockOk;
    var values := RoleValues(d);
    ConstantsAreFree(Roles, "");
    ConstantsAreFree(Roles, CountText(d.perspectiveCount));
    ConstantsAreFree(Roles, BoolText(d.custom));
    forall i | 0 <= i < |ROLE_VARS|
      ensures IsName(ROLE_VARS[i]) && ValueOk(Roles, values[i])
    {
      RoleNames(ROLE_VARS[i]);
    }
    SetOnesAreOk(ROLE_VARS, values);
  }

  function AcceptedAfter(checks: Checks, before: Accepted, request: Request): Accepted {
    match request
    case SaveSetup(input) =>
      (match NormalizeSetup(checks, input)
       case Err(_) => before
       case Ok(s) => before.(setup := Some(s)))
    case SaveRoleDefaults(d) =>
      (match NormalizeRoleDefaults(checks, d)
       case Err(_) => before
       case Ok(n) => before.(defaults := Some(n), rolesTouched := true))
    case ClearRoleDefaults => before.(defaults := None, rolesTouched := true)
  }

  function LastAccepted(checks: Checks, before: Accepted, requests: seq<Request>): Accepted
    decreases |requests|
  {
    if requests == [] then before
    else LastAccepted(checks, AcceptedAfter(checks, before, requests[0]), requests[1..])
  }

  function SavedProvider(setup: Option<Setup>): Option<seq<Assignment>> {
    match setup case None => None case Some(s) => Some(ProviderBlock(s))
  }

  function SavedRoles(defaults: Option<RoleDefaults>): Option<seq<Assignment>> {
    match defaults case None => None case Some(d) => Some(RolesBlock(d))
  }

  /** The file holds the last setup and the last defaults, and the live environment shows them. */
  ghost predicate Agrees(st: State, d: Doc, env: Env, acc: Accepted) {
    && Represents(st.file, d)
    && SavedIn(d.sections, Provider) == SavedProvider(acc.setup)
    && SavedIn(d.sections, Roles) == SavedRoles(acc.defaults)
    && st.env == Live(env, acc)
  }

  /** One request keeps the agreement, and the user's lines. */
  lemma {:induction false} HandleKeeps(checks: Checks, st: State, d: Doc, env: Env, acc: Accepted, request: Request)
      returns (next: State, e: Doc)
    requires Agrees(st, d, env, acc) && RequestFree(checks, request)
    ensures next == match Handle(checks, st, request) case Err(_) => st case Ok(t) => t
    ensures Agrees(next, e, env, AcceptedAfter(checks, acc, request)) && KeptOf(e) == KeptOf(d)
  {
    hide DocOk, BlockOk, KeptOf, DocText, Step, Live, ProviderBlock, RolesBlock, NormalizeSetup;
    hide NormalizeRoleDefaults;
    hide AppliedSetup, AppliedRoles, RoleVars, SetupFree, DefaultsFree;
    next, e := st, d;
    match request {
      case SaveSetup(input) =>
        var n := NormalizeSetup(checks, input);
        if n.Ok? {
          ProviderBlockIsOk(n.value);
          e := SaveStep(st.file, d, Provider, ProviderBlock(n.value));
          SetupOverLive(env, acc, n.value);
          next := Handle(checks, st, request).value;
        }
      case SaveRoleDefaults(r) =>
        var n := NormalizeRoleDefaults(checks, r);
        if n.Ok? {
          RolesBlockIsOk(n.value);
          e := SaveStep(st.file, d, Roles, RolesBlock(n.value));
          RolesOverLive(env, acc, n.value);
          next := Handle(checks, st, request).value;
        }
      case ClearRoleDefaults =>
        e := ClearStep(st.file, d);
        RolesOverLive(env, acc, RoleDefaults(2, "", "", false, "", "", ""));
        next := Handle(checks, st, request).value;
    }
  }

  lemma {:induction false} RunKeepsAgreement(
      checks: Checks, st: State, d: Doc, env: Env, acc: Accepted, requests: seq<Request>)
      returns (e: Doc)
    requires Agrees(st, d, env, acc)
    requires forall i :: 0 <= i < |requests| ==> RequestFree(checks, requests[i])
    ensures Agrees(HandleAll(checks, st, requests), e, env, LastAccepted(checks, acc, requests))
    ensures KeptOf(e) == KeptOf(d)
    decreases |requests|
  {
    hide Agrees, KeptOf, Handle, RequestFree, AcceptedAfter;
    if requests == [] {
      e := d;
    } else {
      var next, e1 := HandleKeeps(checks, st, d, env, acc, requests[0]);
      e := RunKeepsAgreement(checks, next, e1, env, AcceptedAfter(checks, acc, requests[0]), requests[1..]);
    }
  }

  /**
   * A preset environment the restart and the live daemon agree on: what is preset with text for a saved variable
   * is the saved value, and no preset variable that requests have taken out is missing among the saved ones.
   */
  predicate PresetsAgree(env: Env, acc: Accepted) {
    && (forall n :: n in SavedEnv(acc) && Taken(env, n) ==> env[n] == SavedEnv(acc)[n])
    && (forall n :: n in env && n in Gone(acc) ==> n in SavedEnv(acc))
  }

  lemma SavedIsManaged(acc: Accepted)
    ensures forall n :: n in SavedEnv(acc) ==> IsManaged(n)
  {
    hide ProviderEnv, RolesEnv, ProviderVars, RoleVars;
    ProviderEnvKeys(acc.setup);
    RolesEnvKeys(acc.defaults);
  }

  lemma LoadedIsLiveIff(env: Env, acc: Accepted)
    ensures Loaded(env, SavedEnv(acc)) == Live(env, acc) <==> PresetsAgree(env, acc)
  {
    hide SavedEnv, IsManaged, IsBlank, Gone, Taken;
    var saved, loaded, live := SavedEnv(acc), Loaded(env, SavedEnv(acc)), Live(env, acc);
    SavedIsManaged(acc);
    forall n | n in saved
      ensures n in loaded && n in live && live[n] == saved[n]
      ensures loaded[n] == if Taken(env, n) then env[n] else saved[n]
    {
      TakenIsThere(env, n);
    }
    forall n | n in env && n !in saved
      ensures n in loaded && loaded[n] == env[n]
      ensures n in live <==> n !in Gone(acc)
      ensures n in live ==> live[n] == env[n]
    {
    }
    if PresetsAgree(env, acc) {
      assert loaded.Keys == live.Keys;
    }
  }

  lemma TakenIsThere(env: Env, n: string)
    ensures Taken(env, n) ==> n in env
  {
  }

  /** What start-up reads from a file in agreement. */
  lemma AgreeingFileIsRead(st: State, d: Doc, env: Env, acc: Accepted)
    requires Agrees(st, d, env, acc)
    ensures LoadedFile(env, st.file) == Ok(Loaded(env, SavedEnv(acc)))
  {
    hide DocOk, DocText, Live, ProviderBlock, RolesBlock, ParseBlock, Loaded, Assigned, MarkersOf;
    BlockOfDoc(d, Provider);
    BlockOfDoc(d, Roles);
    LoadedNothing(env);
    if st.file.None? {
      NothingToRead(d, Provider);
      NothingToRead(d, Roles);
      assert SavedEnv(acc) == map[];
    }
  }

  lemma LoadedNothing(env: Env)
    ensures Loaded(env, map[]) == env
  {
  }

  lemma NothingToRead(d: Doc, kind: Kind)
    requires DocOk(d) && DocText(d) == ""
    ensures SavedIn(d.sections, kind) == None
  {
    hide DocOk, DocText;
    EmptyIsBlank();
    BlankDocIsEmpty(d);
  }

  lemma StartAgrees(file: Option<string>, env: Env) returns (d: Doc)
    requires IsUnmanaged(file)
    ensures Agrees(State(file, env), d, env, NOTHING)
  {
    hide DocOk, DocText, IsUnmanaged;
    UnmanagedDoc(file);
    d := Doc(Lines(TextOf(file)), []);
    assert Live(env, NOTHING) == env;
  }

  /**
   * From a file without markers and any environment, after any requests, accepted or rejected: a restart from the
   * same environment loads the live environment exactly when the presets agree with what was accepted.
   */
  lemma {:induction false} RestartMatchesLiveIff(checks: Checks, file: Option<string>, env: Env, requests: seq<Request>)
    requires IsUnmanaged(file) && forall i :: 0 <= i < |requests| ==> RequestFree(checks, requests[i])
    ensures var end := HandleAll(checks, State(file, env), requests);
      LoadedFile(env, end.file) == Ok(end.env) <==> PresetsAgree(env, LastAccepted(checks, NOTHING, requests))
  {
    hide Represents, HandleAll, LoadedFile, RequestFree, IsUnmanaged, PresetsAgree, LastAccepted, Loaded;
    hide SavedEnv, Live;
    var d := StartAgrees(file, env);
    var e := RunKeepsAgreement(checks, State(file, env), d, env, NOTHING, requests);
    var acc := LastAccepted(checks, NOTHING, requests);
    AgreeingFileIsRead(HandleAll(checks, State(file, env), requests), e, env, acc);
    LoadedIsLiveIff(env, acc);
  }

  lemma UnsetAgrees(env: Env, acc: Accepted)
    requires Unset(env)
    ensures PresetsAgree(env, acc)
  {
    hide SavedEnv, ProviderVars, RoleVars, IsBlank;
    SavedIsManaged(acc);
    UnsetIsApart(env);
    GoneIsManaged(acc);
  }

  lemma GoneIsManaged(acc: Accepted)
    ensures Gone(acc) <= ProviderVars() + RoleVars()
  {
    hide NamesOf, RoleVars, AccessVars;
  }

  /** So from an environment without managed variables the running daemon and the file never drift apart. */
  lemma {:induction false} RestartMatchesLive(checks: Checks, file: Option<string>, env: Env, requests: seq<Request>)
    requires IsUnmanaged(file) && Unset(env)
    requires forall i :: 0 <= i < |requests| ==> RequestFree(checks, requests[i])
    ensures var end := HandleAll(checks, State(file, env), requests);
      LoadedFile(env, end.file) == Ok(end.env)
  {
    hide HandleAll, LoadedFile, RequestFree, IsUnmanaged, Unset, PresetsAgree, LastAccepted;
    RestartMatchesLiveIff(checks, file, env, requests);
    UnsetAgrees(env, LastAccepted(checks, NOTHING, requests));
  }

  /** No request, whatever came before it, loses or reorders a line of the user's. */
  lemma {:induction false} RequestsKeepUserLines(checks: Checks, file: Option<string>, env: Env, requests: seq<Request>)
    requires IsUnmanaged(file) && forall i :: 0 <= i < |requests| ==> RequestFree(checks, requests[i])
    ensures UserLines(TextOf(HandleAll(checks, State(file, env), requests).file)) == UserLines(TextOf(file))
  {
    hide DocOk, DocText, KeptOf, UserLines, HandleAll, RequestFree, IsUnmanaged, LastAccepted, Live;
    var d := StartAgrees(file, env);
    var e := RunKeepsAgreement(checks, State(file, env), d, env, NOTHING, requests);
    UserLinesOfDoc(d);
    UserLinesOfDoc(e);
  }

  // ---------- reading the role defaults back ----------

  lemma IfSetLookup(env: Env, name: string, value: string, x: string)
    ensures Lookup(Assigned(env, IfSet(name, value)), x) == if x == name && value != "" then value else Lookup(env, x)
  {
    assert [Assignment(name, value)][1..] == [];
  }

  lemma {:induction false} LookupOther(env: Env, names: seq<string>, values: seq<string>, x: string)
    requires |names| == |values| && x !in names
    ensures Lookup(Assigned(env, SetOnes(names, values)), x) == Lookup(env, x)
    decreases |names|
  {
    hide Lookup, IfSet;
    if names != [] {
      var first := IfSet(names[0], values[0]);
      AssignedConcat(env, first, SetOnes(names[1..], values[1..]));
      IfSetLookup(env, names[0], values[0], x);
      LookupOther(Assigned(env, first), names[1..], values[1..], x);
    }
  }

  /** Values set under different names are all found again; an empty value is found as no value. */
  lemma {:induction false} LookupSet(env: Env, names: seq<string>, values: seq<string>, i: nat)
    requires |names| == |values| && i < |names|
    requires forall j, k :: 0 <= j < k < |names| ==> names[j] != names[k]
    requires Lookup(env, names[i]) == ""
    ensures Lookup(Assigned(env, SetOnes(names, values)), names[i]) == values[i]
    decreases |names|
  {
    hide Lookup, IfSet;
    var first := IfSet(names[0], values[0]);
    AssignedConcat(env, first, SetOnes(names[1..], values[1..]));
    IfSetLookup(env, names[0], values[0], names[i]);
    if i == 0 {
      LookupOther(Assigned(env, first), names[1..], values[1..], names[0]);
    } else {
      LookupSet(Assigned(env, first), names[1..], values[1..], i - 1);
    }
  }

  lemma RoleLookup(env: Env, d: RoleDefaults, i: nat)
    requires i < |ROLE_VARS|
    ensures Lookup(AppliedRoles(env, d), ROLE_VARS[i]) == RoleValues(d)[i]
  {
    hide SetOnes, RoleValues;
    var cleared := env - RoleVars();
    assert ROLE_VARS[i] in ROLE_VARS;
    assert ROLE_VARS[i] !in cleared;
    forall j, k | 0 <= j < k < |ROLE_VARS|
      ensures ROLE_VARS[j] != ROLE_VARS[k]
    {
      RoleVarsDiffer(j, k);
    }
    assert |RoleValues(d)| == |ROLE_VARS| by {
      SevenValues(d);
    }
    LookupSet(cleared, ROLE_VARS, RoleValues(d), i);
  }

  lemma SevenValues(d: RoleDefaults)
    ensures |RoleValues(d)| == |ROLE_VARS|
  {
  }

  predicate IsNormalized(checks: Checks, d: RoleDefaults) {
    NormalizeRoleDefaults(checks, d) == Ok(d)
  }

  /** Whatever was set before, the role defaults are read back as they were normalized when saved. */
  lemma {:induction false} DefaultsAreReadBack(checks: Checks, env: Env, d: RoleDefaults)
    requires IsNormalized(checks, d)
    ensures ReadRoleDefaults(checks, AppliedRoles(env, d)) == Ok(Some(d))
  {
    hide AppliedRoles, NormalizeModel;
    var live := AppliedRoles(env, d);
    RoleLookup(env, d, 0);
    RoleLookup(env, d, 1);
    RoleLookup(env, d, 2);
    RoleLookup(env, d, 3);
    RoleLookup(env, d, 4);
    RoleLookup(env, d, 5);
    RoleLookup(env, d, 6);
    assert Lookup(live, COUNT) == CountText(d.perspectiveCount);
    assert Lookup(live, CUSTOM) == BoolText(d.custom);
  }

  predicate DefaultsNormalized(checks: Checks, acc: Accepted) {
    acc.defaults.Some? ==> IsNormalized(checks, acc.defaults.value)
  }

  lemma {:induction false} LastDefaultsAreNormalized(checks: Checks, before: Accepted, requests: seq<Request>)
    requires DefaultsNormalized(checks, before)
    ensures DefaultsNormalized(checks, LastAccepted(checks, before, requests))
    decreases |requests|
  {
    hide NormalizeRoleDefaults, NormalizeSetup;
    if requests != [] {
      if requests[0].SaveRoleDefaults? && NormalizeRoleDefaults(checks, requests[0].defaults).Ok? {
        NormalizedDefaultsAreStable(checks, requests[0].defaults);
      }
      LastDefaultsAreNormalized(checks, AcceptedAfter(checks, before, requests[0]), requests[1..]);
    }
  }

  /** Once a request for the roles was accepted, or if none of their variables was preset. */
  lemma LiveDefaultsAreRead(checks: Checks, env: Env, acc: Accepted)
    requires DefaultsNormalized(checks, acc) && (acc.defaults.Some? ==> acc.rolesTouched)
    requires acc.rolesTouched || COUNT !in env
    ensures ReadRoleDefaults(checks, Live(env, acc)) == Ok(acc.defaults)
  {
    hide AppliedRoles, Live, NormalizeRoleDefaults, ProviderVars;
    if acc.defaults.Some? {
      RolesOverLive(env, acc, acc.defaults.value);
      DefaultsAreReadBack(checks, Live(env, acc), acc.defaults.value);
    } else {
      RolesOverLive(env, acc, RoleDefaults(2, "", "", false, "", "", ""));
      NoCount(env, acc);
    }
  }

  lemma NoCount(env: Env, acc: Accepted)
    requires acc.defaults.None? && (acc.rolesTouched || COUNT !in env)
    ensures COUNT !in Live(env, acc)
  {
    hide ProviderVars, ProviderEnv, RoleVars;
    CountIsARoleVar();
    ProviderEnvKeys(acc.setup);
    GroupsApart();
  }

  lemma CountIsARoleVar()
    ensures COUNT in RoleVars()
  {
    assert ROLE_VARS[0] == COUNT;
  }

  lemma {:induction false} TouchedWhenSaved(checks: Checks, before: Accepted, requests: seq<Request>)
    requires before.defaults.Some? ==> before.rolesTouched
    ensures var acc := LastAccepted(checks, before, requests);
      acc.defaults.Some? ==> acc.rolesTouched
    decreases |requests|
  {
    hide NormalizeRoleDefaults, NormalizeSetup;
    if requests != [] {
      TouchedWhenSaved(checks, AcceptedAfter(checks, before, requests[0]), requests[1..]);
    }
  }

  lemma UnsetCount(env: Env)
    requires Unset(env)
    ensures COUNT !in env
  {
    hide ProviderVars, RoleVars;
    CountIsARoleVar();
    UnsetIsApart(env);
  }

  /** After any requests and a restart, the role defaults are the ones last accepted, or none once they were cleared. */
  lemma {:induction false} DefaultsSurviveRestart(
      checks: Checks, file: Option<string>, env: Env, requests: seq<Request>)
    requires IsUnmanaged(file) && Unset(env)
    requires forall i :: 0 <= i < |requests| ==> RequestFree(checks, requests[i])
    ensures var loaded := LoadedFile(env, HandleAll(checks, State(file, env), requests).file);
      loaded.Ok? && ReadRoleDefaults(checks, loaded.value) == Ok(LastAccepted(checks, NOTHING, requests).defaults)
  {
    hide Represents, HandleAll, LoadedFile, RequestFree, IsUnmanaged, Unset, ReadRoleDefaults, IsNormalized, Live;
    hide LastAccepted;
    var d := StartAgrees(file, env);
    var e := RunKeepsAgreement(checks, State(file, env), d, env, NOTHING, requests);
    RestartMatchesLive(checks, file, env, requests);
    LastDefaultsAreNormalized(checks, NOTHING, requests);
    TouchedWhenSaved(checks, NOTHING, requests);
    UnsetCount(env);
    LiveDefaultsAreRead(checks, env, LastAccepted(checks, NOTHING, requests));
  }

  // ---------- what an applied setup means ----------

  predicate DistinctNames(block: seq<Assignment>) {
    forall i, j :: 0 <= i < j < |block| ==> block[i].name != block[j].name
  }

  lemma DistinctConcat(a: seq<Assignment>, b: seq<Assignment>)
    requires DistinctNames(a) && DistinctNames(b) && NamesOf(a) !! NamesOf(b)
    ensures DistinctNames(a + b)
  {
    var c := a + b;
    forall i, j | 0 <= i < j < |c|
      ensures c[i].name != c[j].name
    {
      if i < |a| <= j {
        assert a[i].name in NamesOf(a) && b[j - |a|].name in NamesOf(b);
      }
    }
  }

  lemma {:induction false} AssignedOther(env: Env, block: seq<Assignment>, name: string)
    requires name !in NamesOf(block)
    ensures Lookup(Assigned(env, block), name) == Lookup(env, name)
    decreases |block|
  {
    if block != [] {
      assert block[0].name in NamesOf(block);
      assert block == [block[0]] + block[1..];
      NamesOfConcat([block[0]], block[1..]);
      AssignedOther(env[block[0].name := block[0].value], block[1..], name);
    }
  }

  /** With different names every assignment of a block has its effect. */
  lemma {:induction false} AssignedAt(env: Env, block: seq<Assignment>, i: nat)
    requires DistinctNames(block) && i < |block|
    ensures Lookup(Assigned(env, block), block[i].name) == block[i].value
    decreases |block|
  {
    hide Lookup;
    var first, rest := block[0], block[1..];
    if i == 0 {
      forall j | 0 <= j < |rest|
        ensures rest[j].name != first.name
      {
        assert rest[j] == block[j + 1];
      }
      AssignedOther(env[first.name := first.value], rest, first.name);
      PutLookup(env, first);
    } else {
      assert rest[i - 1] == block[i];
      AssignedAt(env[first.name := first.value], rest, i - 1);
    }
  }

  lemma PutLookup(env: Env, a: Assignment)
    ensures Lookup(env[a.name := a.value], a.name) == a.value
  {
  }

  lemma SuffixLength(suffix: string)
    ensures |OPENAI + suffix| == 17 + |suffix| && |ENABLE + suffix| == 35 + |suffix|
  {
    PrefixesAreNames();
  }

  lemma SwitchesDiffer()
    ensures DistinctNames(SWITCHES)
  {
    SuffixLength("PROFILE");
    SuffixLength("EXTRACTION");
    SuffixLength("REVIEW");
    SuffixLength("FINALIZATION");
  }

  lemma ConfigIdsDiffer()
    ensures DistinctNames(CONFIG_IDS)
  {
    SuffixLength("EXTRACTION" + CONFIG_ID);
    SuffixLength("REVIEW" + CONFIG_ID);
    SuffixLength("FINAL_CANDIDATE" + CONFIG_ID);
    SuffixLength("FINAL_AUDIT" + CONFIG_ID);
  }

  lemma StructuredDiffer()
    ensures DistinctNames(STRUCTURED)
    ensures forall i :: 0 <= i < |STRUCTURED| ==> |STRUCTURED[i].name| > 27
  {
    SuffixLength("EXTRACTION" + FORMAT);
    SuffixLength("REVIEW" + FORMAT);
    SuffixLength("FINAL_CANDIDATE" + FORMAT);
    SuffixLength("FINAL_AUDIT" + FORMAT);
    SuffixLength("TOKEN_PARAMETER");
    SuffixLength("MAX_COMPLETION_TOKENS");
    SuffixLength("TEMPERATURE");
  }

  lemma AccessDiffer(s: Setup)
    ensures DistinctNames(AccessBlock(s))
    ensures forall n :: n in AccessVars() ==> |n| < 27 && n[|n| - 1] != 'D'
  {
    SuffixLength("BASE_URL");
    SuffixLength("MODEL");
    SuffixLength("API_KEY");
    OpenAIName("BASE_URL");
    OpenAIName("MODEL");
    OpenAIName("API_KEY");
  }

  lemma NamesApart()
    ensures NamesOf(SWITCHES) !! NamesOf(CONFIG_IDS)
    ensures NamesOf(SWITCHES + CONFIG_IDS) !! AccessVars() && NamesOf(STRUCTURED) !! AccessVars()
  {
    hide *;
    NamesOfConcat(SWITCHES, CONFIG_IDS);
    forall n: string
      ensures n in NamesOf(SWITCHES) ==> n !in NamesOf(CONFIG_IDS)
      ensures n in AccessVars() ==> n !in NamesOf(SWITCHES) && n !in NamesOf(CONFIG_IDS) && n !in NamesOf(STRUCTURED)
    {
      NameApart(n);
    }
  }

  lemma NameApart(n: string)
    ensures n in NamesOf(SWITCHES) ==> n !in NamesOf(CONFIG_IDS)
    ensures n in AccessVars() ==> n !in NamesOf(SWITCHES) && n !in NamesOf(CONFIG_IDS) && n !in NamesOf(STRUCTURED)
  {
    hide IsName, AccessVars, NamesOf;
    NameGroup(n);
    AccessDiffer(Setup("", "", "", false));
    StructuredLength(n);
  }

  lemma StructuredLength(n: string)
    ensures n in NamesOf(STRUCTURED) ==> |n| > 27
  {
    hide *;
    StructuredDiffer();
    NameOfSome(STRUCTURED, n, 27);
  }

  lemma NameOfSome(block: seq<Assignment>, n: string, k: nat)
    requires forall i :: 0 <= i < |block| ==> |block[i].name| > k
    ensures n in NamesOf(block) ==> |n| > k
  {
  }

  lemma ProviderNamesDiffer(s: Setup)
    ensures DistinctNames(ProviderBlock(s))
  {
    hide NamesOf, AccessVars, DistinctNames, AccessBlock;
    var middle := if s.structuredReview then STRUCTURED else [];
    SwitchesDiffer();
    ConfigIdsDiffer();
    StructuredDiffer();
    AccessDiffer(s);
    NamesApart();
    GroupsApart();
    NoNames();
    NamesOfConcat(SWITCHES + CONFIG_IDS, middle);
    NamesOfAccess(s);
    DistinctConcat(SWITCHES, CONFIG_IDS);
    DistinctConcat(SWITCHES + CONFIG_IDS, middle);
    DistinctConcat(SWITCHES + CONFIG_IDS + middle, AccessBlock(s));
  }

  lemma NoNames()
    ensures NamesOf([]) == {} && DistinctNames([])
  {
  }

  /**
   * Over any environment an applied setup gives every variable of its block the block's value, the three
   * that hold the setup's own texts among them, and leaves no review variable when review is not wanted.
   */
  lemma SetupIsApplied(env: Env, s: Setup, i: nat)
    requires i < |ProviderBlock(s)|
    ensures var live := AppliedSetup(env, s);
      && Lookup(live, ProviderBlock(s)[i].name) == ProviderBlock(s)[i].value
      && Lookup(live, OPENAI + "BASE_URL") == s.baseUrl
      && Lookup(live, OPENAI + "MODEL") == s.model
      && Lookup(live, OPENAI + "API_KEY") == s.apiKey
      && (s.structuredReview <==> NamesOf(STRUCTURED) <= live.Keys)
  {
    hide NamesOf, AccessVars, DistinctNames, AppliedSetup, Lookup, Assigned;
    var block := ProviderBlock(s);
    var base := if s.structuredReview then env else env - NamesOf(STRUCTURED);
    AppliedSetupIsOverlay(env, s);
    AssignedIsOverlay(base, block);
    ProviderNamesDiffer(s);
    AssignedAt(base, block, i);
    var n := |block|;
    assert block[n - 3] == AccessBlock(s)[0] && block[n - 2] == AccessBlock(s)[1] && block[n - 1] == AccessBlock(s)[2];
    AssignedAt(base, block, n - 3);
    AssignedAt(base, block, n - 2);
    AssignedAt(base, block, n - 1);
    NamesOfProviderBlock(s);
    NamesApart();
    GroupsApart();
    OneReviewName();
  }

  lemma OneReviewName()
    ensures STRUCTURED[0].name in NamesOf(STRUCTURED)
  {
  }
}
