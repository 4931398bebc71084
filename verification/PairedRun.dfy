/** One paired run, from validation to cleanup: the story its events tell, how long it can block on
    them, the calls it makes, and what it leaves on the daemon. */
module PairedRun {
  import opened Wrappers
  import opened Strings
  import opened Docker
  import opened RunClient
  import R = RunSystem
  import opened RunEvents
  import opened EventChannel
  import opened RunStates
  import opened Health

  datatype EngineSpec = EngineSpec(
    image: string, args: seq<string>, env: map<string, string>, modelPath: string, health: HealthCheck)

  datatype BenchmarkSpec = BenchmarkSpec(
    kind: string, image: string, args: seq<string>, env: map<string, string>, config: string, yamlSpec: string)

  datatype RunSpec = RunSpec(runID: string, engine: EngineSpec, benchmark: BenchmarkSpec)

  datatype RunError =
    | RunIDRequired | RunIDInvalid | EngineImageRequired | BenchmarkImageRequired | KindInvalid
    | CreateNetwork | CreateVolume | CreateEngine | StartEngine | EngineHealth
    | CreateBenchmark | CopyConfig | StartBenchmark | WaitBenchmark | NoResults(code: int) | UnreadableResults

  // ---------- Validation ----------

  predicate SafeChar(c: char) {
    'a' <= c <= 'z' || 'A' <= c <= 'Z' || '0' <= c <= '9' || c == '_' || c == '-'
  }

  predicate ValidRunID(id: string) {
    id != "" && forall i :: 0 <= i < |id| ==> SafeChar(id[i])
  }

  function Validate(spec: RunSpec): Option<RunError> {
    if spec.runID == "" then Some(RunIDRequired)
    else if !ValidRunID(spec.runID) then Some(RunIDInvalid)
    else if spec.engine.image == "" then Some(EngineImageRequired)
    else if spec.benchmark.image == "" then Some(BenchmarkImageRequired)
    else if spec.benchmark.kind !in {"", "yaml", "container"} then Some(KindInvalid)
    else None
  }

  /** The codes of digits, capitals, the underscore, small letters and the dash. */
  predicate NameCode(n: int) {
    48 <= n <= 57 || 65 <= n <= 90 || n == 95 || 97 <= n <= 122 || n == 45
  }

  /** The first thing wrong with a spec, if there is one: no RunID or one with another character, no engine
      image, no benchmark image, or a kind that is neither empty, "yaml" nor "container". */
  ghost predicate FirstFault(spec: RunSpec, err: Option<RunError>) {
    var idOK := spec.runID != "" && forall i :: 0 <= i < |spec.runID| ==> NameCode(spec.runID[i] as int);
    var kindOK := spec.benchmark.kind == "" || spec.benchmark.kind == "yaml" || spec.benchmark.kind == "container";
    && (err == Some(RunIDRequired) <==> spec.runID == "")
    && (err == Some(RunIDInvalid) <==> spec.runID != "" && !idOK)
    && (err == Some(EngineImageRequired) <==> idOK && spec.engine.image == "")
    && (err == Some(BenchmarkImageRequired) <==> idOK && spec.engine.image != "" && spec.benchmark.image == "")
    && (err == Some(KindInvalid) <==> idOK && spec.engine.image != "" && spec.benchmark.image != "" && !kindOK)
  }

  lemma ValidateMeans(spec: RunSpec)
    ensures FirstFault(spec, Validate(spec))
    ensures Validate(spec) == None <==>
            && spec.runID != "" && (forall i :: 0 <= i < |spec.runID| ==> NameCode(spec.runID[i] as int))
            && spec.engine.image != "" && spec.benchmark.image != ""
            && (spec.benchmark.kind == "" || spec.benchmark.kind == "yaml" || spec.benchmark.kind == "container")
  {
  }

  predicate IsInvalid(e: RunError) {
    e.RunIDRequired? || e.RunIDInvalid? || e.EngineImageRequired? || e.BenchmarkImageRequired? || e.KindInvalid?
  }

  // ---------- How far a run got ----------

  /** How many phases a run has announced when it fails so. */
  function PhasesAt(e: RunError): nat {
    match e
    case CreateNetwork => 1
    case CreateVolume => 2
    case CreateEngine => 3
    case StartEngine => 3
    case EngineHealth => 4
    case CreateBenchmark => 6
    case CopyConfig => 6
    case StartBenchmark => 6
    case WaitBenchmark => 7
    case NoResults(_) => 8
    case UnreadableResults => 8
    case _ => 0
  }

  /** How many of the calls below a run has completed when it ends so. */
  function CallsAt(err: Option<RunError>): nat {
    match err
    case None => 9
    case Some(CreateVolume) => 1
    case Some(CreateEngine) => 2
    case Some(StartEngine) => 3
    case Some(EngineHealth) => 4
    case Some(CreateBenchmark) => 4
    case Some(CopyConfig) => 5
    case Some(StartBenchmark) => 6
    case Some(WaitBenchmark) => 7
    case Some(NoResults(_)) => 8
    case Some(UnreadableResults) => 8
    case _ => 0
  }

  /** What a run found out: the engine's address, the benchmark's exit code, and its results. */
  datatype Finding = Finding(ip: string, code: int, results: string)

  function EngineURL(spec: RunSpec, ip: string): string {
    "http://" + ip + ":" + DecimalInt(spec.engine.health.port)
  }

  /** The engine gets the model directory, read-only, and the GPUs. */
  function EngineConfig(spec: RunSpec, v: Vendor, p: Party): BoxConfig {
    BoxConfig("bonnie-engine-" + p.runID, p.Network(), spec.engine.image, spec.engine.args, spec.engine.env,
              [spec.engine.modelPath + ":/model:ro"], None, InjectGPU(NO_GPU, v))
  }

  /** The benchmark gets the results volume and, whatever its own environment says, the engine's URL. */
  function BenchmarkConfig(spec: RunSpec, p: Party, ip: string): BoxConfig {
    BoxConfig("bonnie-bench-" + p.runID, p.Network(), spec.benchmark.image, spec.benchmark.args,
              spec.benchmark.env["ENGINE_URL" := EngineURL(spec, ip)], [], Some(p.Volume()), NO_GPU)
  }

  /** What the engine is created with, part by part. */
  lemma EngineConfigMeans(spec: RunSpec, v: Vendor, p: Party)
    ensures var c := EngineConfig(spec, v, p);
            && c.name == "bonnie-engine-" + p.runID && c.network == "bonnie-run-" + p.runID
            && c.image == spec.engine.image && c.args == spec.engine.args && c.env == spec.engine.env
            && c.binds == [spec.engine.modelPath + ":/model:ro"] && c.volume == None
            && (v.NVIDIA? ==> c.gpu == Access(true, [], [], []))
            && (v.AMD? ==>
                  c.gpu == Access(false, ["/dev/kfd", "/dev/dri"], ["seccomp=unconfined"], ["video", "render"]))
            && (v.Intel? ==> c.gpu == Access(false, ["/dev/dri"], [], ["video", "render"]))
            && (v.UnknownVendor? ==> c.gpu == Access(false, [], [], []))
  {
  }

  /** And the benchmark: its own environment except for the engine's URL, and the results volume. */
  lemma BenchmarkConfigMeans(spec: RunSpec, p: Party, ip: string)
    ensures var c := BenchmarkConfig(spec, p, ip);
            && c.name == "bonnie-bench-" + p.runID && c.network == "bonnie-run-" + p.runID
            && c.image == spec.benchmark.image && c.args == spec.benchmark.args && c.binds == []
            && c.volume == Some("bonnie-results-" + p.runID) && c.gpu == Access(false, [], [], [])
            && "ENGINE_URL" in c.env
            && c.env["ENGINE_URL"] == "http://" + ip + ":" + DecimalInt(spec.engine.health.port)
            && forall k :: k != "ENGINE_URL" ==>
                  && (k in c.env <==> k in spec.benchmark.env)
                  && (k in c.env ==> c.env[k] == spec.benchmark.env[k])
  {
  }

  /** The configuration to copy into the benchmark container, if there is one for its kind. */
  function ConfigFile(b: BenchmarkSpec): Option<(string, string)> {
    if b.kind == "yaml" && b.yamlSpec != "" then Some(("/config.yaml", b.yamlSpec))
    else if b.kind == "container" && b.config != "" then Some(("/config.json", b.config))
    else None
  }

  function ConfigCopied(b: BenchmarkSpec, id: string): seq<Call> {
    match ConfigFile(b)
    case None => []
    case Some((path, body)) => [Copied(id, path, body)]
  }

  lemma ConfigFileMeans(b: BenchmarkSpec)
    ensures b.kind == "yaml" && b.yamlSpec != "" ==> ConfigFile(b) == Some(("/config.yaml", b.yamlSpec))
    ensures b.kind == "container" && b.config != "" ==> ConfigFile(b) == Some(("/config.json", b.config))
    ensures ConfigFile(b) == None <==>
            !(b.kind == "yaml" && b.yamlSpec != "") && !(b.kind == "container" && b.config != "")
  {
  }

  /** The first `n` of a run's calls: the network, the volume, the engine created and started; the
      benchmark created with that volume and the engine's address, given its configuration before it
      is started, waited for, and only then read. */
  function Script(spec: RunSpec, v: Vendor, p: Party, engineID: string, benchID: string, f: Finding, n: nat)
    : seq<Call>
  {
    if n == 0 then []
    else Script(spec, v, p, engineID, benchID, f, n - 1) + ScriptAt(spec, v, p, engineID, benchID, f, n)
  }

  function ScriptAt(spec: RunSpec, v: Vendor, p: Party, engineID: string, benchID: string, f: Finding, n: nat)
    : seq<Call>
  {
    match n
    case 1 => [MadeNetwork(p.Network())]
    case 2 => [MadeVolume(p.Volume())]
    case 3 => [Created(engineID, EngineConfig(spec, v, p))]
    case 4 => [Started(engineID)]
    case 5 => [Created(benchID, BenchmarkConfig(spec, p, f.ip))]
    case 6 => ConfigCopied(spec.benchmark, benchID)
    case 7 => [Started(benchID)]
    case 8 => [Waited(benchID, f.code)]
    case 9 => [ReadBack(benchID, f.results)]
    case _ => []
  }

  /** The calls of a run that ended with `err` are those of the script up to there; it got past its
      engine's health check only with an address the check gave; and a missing result is told apart
      by the exit code. */
  ghost predicate Performed(spec: RunSpec, client: Client, did: seq<Call>, engineID: string, benchID: string,
                            world: nat -> Poll, f: Finding, err: Option<RunError>) {
    && did == Script(spec, client.vendor, client.party, engineID, benchID, f, CallsAt(err))
    && (err.None? || PhasesAt(err.value) >= 6 ==>
          AnswerFits(spec.engine.health, client.party.Network(), world, Healthy(f.ip)))
    && (err.Some? && err.value.NoResults? ==> err.value.code == f.code != 0)
    && (err == Some(UnreadableResults) ==> f.code == 0)
  }

  /** The event story and the returned error agree. The final event is one blocking send; the exit of
      a failed benchmark is the only other one. A success ends with the results. */
  predicate Told(sent: seq<Event>, f: Finding, err: Option<RunError>) {
    && (if err.None? then Succeeds(Story(sent))
        else !IsInvalid(err.value) && FailsIn(Story(sent), PhasesAt(err.value)))
    && Blocking(sent) == (if CallsAt(err) >= 8 && f.code != 0 then 2 else 1)
    && EndsTerminal(sent)
    && (err.None? ==> sent[|sent| - 1] == Event(Result, "done", "orchestrator", f.results))
  }

  /** What the client is told, word for word: the phases in order, up to the one that failed. */
  lemma ToldMeans(sent: seq<Event>, f: Finding, err: Option<RunError>)
    requires Told(sent, f, err)
    ensures var story, phases := Story(sent), [
              "creating-network", "creating-volume", "starting-engine", "engine-starting", "engine-healthy",
              "starting-benchmark", "benchmark-running", "collecting-results"];
            && 2 <= |story| <= 9
            && (forall i :: 0 <= i < |story| - 1 ==> story[i] == Beat(Status, phases[i]))
            && story[|story| - 1] == match err
                                     case None => Beat(Result, "done")
                                     case Some(CreateNetwork) => Beat(Error, "creating-network")
                                     case Some(CreateVolume) => Beat(Error, "creating-volume")
                                     case Some(CreateEngine) | Some(StartEngine) => Beat(Error, "starting-engine")
                                     case Some(EngineHealth) => Beat(Error, "engine-starting")
                                     case Some(CreateBenchmark) | Some(CopyConfig) | Some(StartBenchmark) =>
                                       Beat(Error, "starting-benchmark")
                                     case Some(WaitBenchmark) => Beat(Error, "benchmark-running")
                                     case Some(_) => Beat(Error, "collecting-results")
  {
  }

  /** And the run is still able to send. */
  ghost predicate Ended(state: RunState, f: Finding, err: Option<RunError>)
    reads state`chan, state`sent, state`waited, state`mine
  {
    state.Valid() && state.alone && Told(state.sent, f, err)
  }

  predicate EndsTerminal(sent: seq<Event>) {
    sent != [] && IsTerminal(sent[|sent| - 1])
  }

  /** `n` phases announced, nothing final told, `b` blocking sends made. */
  ghost predicate Underway(state: RunState, n: nat, b: nat)
    reads state`chan, state`sent, state`waited, state`mine
  {
    && state.Valid() && state.alone
    && n <= |PHASES| && Story(state.sent) == Statuses(n)
    && Blocking(state.sent) == b
  }

  // ---------- What the run has made so far ----------

  function IDs(engineID: string, benchID: string): set<string> {
    {engineID, benchID} - {""}
  }

  /** The run has come to `at`, and its containers are exactly those whose ids its state holds. */
  ghost predicate Accounted(client: Client, engineID: string, benchID: string, at: R.Stage)
    reads client
  {
    && client.Valid()
    && client.progress == R.Progress(at, engineID, benchID)
    && client.Mine().boxes.Keys == IDs(engineID, benchID)
  }

  lemma NextStatus(n: nat)
    requires n < |PHASES|
    ensures Statuses(n + 1) == Statuses(n) + [Beat(Status, PHASES[n])]
  {
  }

  method Announce(state: RunState, ghost n: nat, ghost b: nat, phase: string, text: string)
    requires Underway(state, n, b) && n < |PHASES| && phase == PHASES[n]
    modifies state`chan, state`sent, state`waited, state`mine
    ensures Underway(state, n + 1, b)
    ensures state.sent == old(state.sent) + [Event(Status, phase, ORCHESTRATOR, text)]
  {
    hide Statuses, RunState.Valid;
    NextStatus(n);
    state.Emit(Event(Status, phase, ORCHESTRATOR, text));
  }

  /** `emitError`, after which the run returns `err`. */
  method Fail(state: RunState, ghost n: nat, ghost f: Finding, phase: string, err: RunError)
    requires Underway(state, n, if CallsAt(Some(err)) >= 8 && f.code != 0 then 1 else 0)
    requires 0 < n && phase == PHASES[n - 1] && !IsInvalid(err) && PhasesAt(err) == n
    modifies state`chan, state`sent, state`waited, state`mine
    ensures Ended(state, f, Some(err)) && old(state.sent) <= state.sent
  {
    hide RunState.Valid, Blocking, Story, Statuses;
    state.EmitError(phase, "");
  }

  const UNKNOWN := Finding("", 0, "")

  /** The calls of a whole run, one by one. */
  lemma WholeScript(spec: RunSpec, v: Vendor, p: Party, e: string, b: string, f: Finding)
    ensures Script(spec, v, p, e, b, f, 9) ==
            [MadeNetwork("bonnie-run-" + p.runID), MadeVolume("bonnie-results-" + p.runID),
             Created(e, EngineConfig(spec, v, p)), Started(e), Created(b, BenchmarkConfig(spec, p, f.ip))]
            + (match ConfigFile(spec.benchmark) case None => [] case Some((path, body)) => [Copied(b, path, body)])
            + [Started(b), Waited(b, f.code), ReadBack(b, f.results)]
  {
    hide EngineConfig, BenchmarkConfig, ConfigFile;
    Prologue(spec, v, p, e, b, f);
    ScriptStep(spec, v, p, e, b, f, 5);
    ScriptStep(spec, v, p, e, b, f, 6);
    ScriptStep(spec, v, p, e, b, f, 7);
    ScriptStep(spec, v, p, e, b, f, 8);
    ScriptStep(spec, v, p, e, b, f, 9);
  }

  /** The script up to the engine is the same whatever becomes of the benchmark. */
  lemma Prologue(spec: RunSpec, v: Vendor, p: Party, e: string, b: string, f: Finding)
    ensures Script(spec, v, p, e, b, f, 0) == []
    ensures Script(spec, v, p, e, b, f, 1) == [MadeNetwork(p.Network())]
    ensures Script(spec, v, p, e, b, f, 2) == [MadeNetwork(p.Network()), MadeVolume(p.Volume())]
    ensures Script(spec, v, p, e, b, f, 3) == Script(spec, v, p, e, b, f, 2) + [Created(e, EngineConfig(spec, v, p))]
    ensures Script(spec, v, p, e, b, f, 4) == Script(spec, v, p, e, b, f, 3) + [Started(e)]
  {
    assert Script(spec, v, p, e, b, f, 0) == [];
    assert Script(spec, v, p, e, b, f, 1) == ScriptAt(spec, v, p, e, b, f, 1);
  }

  /** Phases 1 and 2: the network and the results volume. */
  method CreatePlaces(client: Client, state: RunState, spec: RunSpec) returns (err: Option<RunError>)
    requires Accounted(client, state.engineID, state.benchID, R.MakeNetwork) && Underway(state, 0, 0)
          && client.did == [] && client.Mine().networks == map[]
    modifies client, state`chan, state`sent, state`waited, state`mine
    ensures client.willing ==> err.None?
    ensures Accounted(client, state.engineID, state.benchID, if err.None? then R.MakeEngine else R.DropBench)
    ensures if err.None? then Underway(state, 2, 0)
          else Ended(state, UNKNOWN, err) && PhasesAt(err.value) <= 2
    ensures client.did ==
            Script(spec, client.vendor, client.party, "", "", UNKNOWN, if err.None? then 2 else CallsAt(err))
  {
    hide Underway, Ended, Client.Valid, Client.Mine, IDs, Statuses, Story, Blocking, Succeeds, FailsIn;
    Prologue(spec, client.vendor, client.party, "", "", UNKNOWN);
    Announce(state, 0, 0, "creating-network", "");
    var ok := client.NetworkCreate();
    if !ok {
      Fail(state, 1, UNKNOWN, "creating-network", CreateNetwork);
      return Some(CreateNetwork);
    }
    Announce(state, 1, 0, "creating-volume", "");
    ok := client.VolumeCreate();
    if !ok {
      Fail(state, 2, UNKNOWN, "creating-volume", CreateVolume);
      return Some(CreateVolume);
    }
    err := None;
  }

  /** `createEngineContainer`, with the id kept for cleanup. */
  method CreateEngineContainer(client: Client, state: RunState, spec: RunSpec) returns (ok: bool)
    requires Accounted(client, state.engineID, state.benchID, R.MakeEngine) && state.engineID == state.benchID == ""
    modifies client, state`engineID
    ensures Accounted(client, state.engineID, state.benchID, if ok then R.AwaitEngine else R.DropBench)
    ensures client.did ==
            if ok then old(client.did) + [Created(state.engineID, EngineConfig(spec, client.vendor, client.party))]
            else old(client.did)
    ensures client.willing ==> ok
  {
    hide Client.Valid, Client.Mine;
    var binds := [spec.engine.modelPath + ":/model:ro"];
    var name, network := "bonnie-engine-" + client.party.runID, client.party.Network();
    var access := InjectGPU(NO_GPU, client.vendor);
    var id := client.ContainerCreate(
      BoxConfig(name, network, spec.engine.image, spec.engine.args, spec.engine.env, binds, None, access));
    if id.Some? { state.engineID := id.value; }
    ok := id.Some?;
  }

  /** `createBenchmarkContainer`, with the id kept for cleanup. */
  method CreateBenchmarkContainer(client: Client, state: RunState, spec: RunSpec, ip: string) returns (ok: bool)
    requires Accounted(client, state.engineID, state.benchID, R.MakeBench) && state.benchID == ""
    modifies client, state`benchID
    ensures Accounted(client, state.engineID, state.benchID, if ok then R.AwaitBench else R.DropBench)
    ensures client.did == if ok then old(client.did) + [Created(state.benchID, BenchmarkConfig(spec, client.party, ip))]
                          else old(client.did)
    ensures client.willing ==> ok
  {
    hide Client.Valid, Client.Mine;
    var env := spec.benchmark.env["ENGINE_URL" := EngineURL(spec, ip)];
    var name, network := "bonnie-bench-" + client.party.runID, client.party.Network();
    var mount := Some(client.party.Volume());
    var id := client.ContainerCreate(
      BoxConfig(name, network, spec.benchmark.image, spec.benchmark.args, env, [], mount, NO_GPU));
    if id.Some? { state.benchID := id.value; }
    ok := id.Some?;
  }

  method StartContainer(client: Client, state: RunState, id: string, ghost at: R.Stage) returns (ok: bool)
    requires Accounted(client, state.engineID, state.benchID, at) && (at.AwaitEngine? || at.AwaitBench?)
    modifies client
    ensures Accounted(client, state.engineID, state.benchID, at)
    ensures client.did == if ok then old(client.did) + [Started(id)] else old(client.did)
    ensures client.willing ==> ok
  {
    hide Client.Valid, Client.Mine;
    ok := client.ContainerStart(id);
  }

  /** What a created container is waited for is over, well or badly. */
  ghost method WaitOver(client: Client, state: RunState, at: R.Stage, ok: bool)
    requires Accounted(client, state.engineID, state.benchID, at) && (at.AwaitEngine? || at.AwaitBench?)
    modifies client
    ensures Accounted(client, state.engineID, state.benchID,
                      if ok && at.AwaitEngine? then R.MakeBench else R.DropBench)
    ensures client.did == old(client.did)
  {
    hide Client.Valid, Client.Mine;
    client.Pass(ok);
  }

  /** Phase 3: the engine container, created and started. */
  method StartEngineContainer(client: Client, state: RunState, spec: RunSpec) returns (err: Option<RunError>)
    requires Accounted(client, state.engineID, state.benchID, R.MakeEngine) && Underway(state, 3, 0)
    requires state.engineID == state.benchID == ""
    requires client.did == Script(spec, client.vendor, client.party, "", "", UNKNOWN, 2)
    modifies client, state`chan, state`sent, state`waited, state`mine, state`engineID
    ensures Accounted(client, state.engineID, state.benchID, if err.None? then R.AwaitEngine else R.DropBench)
    ensures if err.None? then Underway(state, 3, 0) else Ended(state, UNKNOWN, err) && PhasesAt(err.value) == 3
    ensures client.willing ==> err.None?
    ensures client.did == Script(spec, client.vendor, client.party, state.engineID, "", UNKNOWN,
                                 if err.None? then 4 else CallsAt(err))
  {
    hide Underway, Ended, Client.Valid, Client.Mine, Statuses, Story, Blocking, Succeeds, FailsIn, Script, IDs,
         Accounted, EngineConfig;
    Prologue(spec, client.vendor, client.party, "", "", UNKNOWN);
    var ok := CreateEngineContainer(client, state, spec);
    Prologue(spec, client.vendor, client.party, state.engineID, "", UNKNOWN);
    if !ok {
      Fail(state, 3, UNKNOWN, "starting-engine", CreateEngine);
      return Some(CreateEngine);
    }
    ok := StartContainer(client, state, state.engineID, R.AwaitEngine);
    if !ok {
      WaitOver(client, state, R.AwaitEngine, false);
      Fail(state, 3, UNKNOWN, "starting-engine", StartEngine);
      return Some(StartEngine);
    }
    err := None;
  }

  /** The wait for the engine ends without an address. */
  ghost predicate Unhealthy(spec: RunSpec, network: string, world: nat -> Poll) {
    exists a: Answer :: !a.Healthy? && AnswerFits(spec.engine.health, network, world, a)
  }

  /** The event that tells where the engine is reachable. */
  function HealthyEvent(spec: RunSpec, ip: string): Event {
    Event(Status, "engine-healthy", ORCHESTRATOR,
          "engine reachable at " + ip + ":" + DecimalInt(spec.engine.health.port))
  }

  /** Phases 3 to 5: the engine container, up to its being reachable. */
  method BringUpEngine(client: Client, state: RunState, spec: RunSpec, world: nat -> Poll)
    returns (err: Option<RunError>, ip: string)
    requires Accounted(client, state.engineID, state.benchID, R.MakeEngine) && Underway(state, 2, 0)
    requires state.engineID == state.benchID == ""
    requires client.did == Script(spec, client.vendor, client.party, "", "", UNKNOWN, 2)
    modifies client, state`chan, state`sent, state`waited, state`mine, state`engineID
    ensures Accounted(client, state.engineID, state.benchID, if err.None? then R.MakeBench else R.DropBench)
    ensures err.None? ==> Underway(state, 5, 0)
                          && AnswerFits(spec.engine.health, client.party.Network(), world, Healthy(ip))
    ensures err.Some? ==> Ended(state, UNKNOWN, err) && PhasesAt(err.value) <= 4
    ensures err.None? ==> HealthyEvent(spec, ip) in state.sent
    ensures err == Some(EngineHealth) ==> Unhealthy(spec, client.party.Network(), world)
    ensures client.willing ==> err.None? || err == Some(EngineHealth)
    ensures client.did == Script(spec, client.vendor, client.party, state.engineID, "", UNKNOWN,
                                 if err.None? then 4 else CallsAt(err))
  {
    hide Underway, Ended, Client.Valid, Client.Mine, Statuses, Story, Blocking, Succeeds, FailsIn, AnswerFits, Script,
          IDs, Accounted, EngineConfig;
    ip := "";
    Announce(state, 2, 0, "starting-engine", "");
    err := StartEngineContainer(client, state, spec);
    if err.Some? { return; }
    Announce(state, 3, 0, "engine-starting", "");
    var answer := AwaitHealth(state, spec, client.party.Network(), world);
    WaitOver(client, state, R.AwaitEngine, answer.Healthy?);
    if !answer.Healthy? {
      assert Unhealthy(spec, client.party.Network(), world);
      Fail(state, 4, UNKNOWN, "engine-starting", EngineHealth);
      return Some(EngineHealth), "";
    }
    ip := answer.ip;
    Announce(state, 4, 0, "engine-healthy", "engine reachable at " + ip + ":" + DecimalInt(spec.engine.health.port));
    err := None;
  }

  /** The wait itself, which announces nothing and blocks on nothing. */
  method AwaitHealth(state: RunState, spec: RunSpec, network: string, world: nat -> Poll) returns (answer: Answer)
    requires Underway(state, 4, 0)
    modifies state`chan, state`sent, state`waited, state`mine
    ensures Underway(state, 4, 0) && AnswerFits(spec.engine.health, network, world, answer)
  {
    hide RunState.Valid, Story, Blocking, Statuses, AnswerFits;
    var polls;
    answer, polls := WaitEngineHealthy(spec.engine.health, network, world, state);
  }

  lemma ScriptStep(spec: RunSpec, v: Vendor, p: Party, e: string, b: string, f: Finding, n: nat)
    requires n > 0
    ensures Script(spec, v, p, e, b, f, n) == Script(spec, v, p, e, b, f, n - 1) + ScriptAt(spec, v, p, e, b, f, n)
  {
  }

  /** `copyBenchmarkConfig`: without a configuration for the kind there is nothing to do. */
  method CopyBenchmarkConfig(client: Client, state: RunState, b: BenchmarkSpec) returns (ok: bool)
    requires Accounted(client, state.engineID, state.benchID, R.AwaitBench)
    modifies client
    ensures Accounted(client, state.engineID, state.benchID, R.AwaitBench) && (!ok ==> ConfigFile(b).Some?)
    ensures client.willing ==> ok
    ensures client.did == if ok then old(client.did) + ConfigCopied(b, state.benchID) else old(client.did)
  {
    hide Client.Valid, Client.Mine;
    var path, body := "", "";
    if b.kind == "yaml" && |b.yamlSpec| > 0 {
      path, body := "/config.yaml", b.yamlSpec;
    } else if b.kind == "container" && |b.config| > 0 {
      path, body := "/config.json", b.config;
    } else {
      return true;
    }
    ok := client.CopyToContainer(state.benchID, path, body);
  }

  /** Phase 6: the benchmark container. */
  method BringUpBenchmark(client: Client, state: RunState, spec: RunSpec, ip: string) returns (err: Option<RunError>)
    requires Accounted(client, state.engineID, state.benchID, R.MakeBench) && Underway(state, 5, 0)
    requires state.benchID == ""
    requires client.did == Script(spec, client.vendor, client.party, state.engineID, "", UNKNOWN, 4)
    modifies client, state`chan, state`sent, state`waited, state`mine, state`benchID
    ensures Accounted(client, state.engineID, state.benchID, if err.None? then R.AwaitBench else R.DropBench)
    ensures if err.None? then Underway(state, 6, 0)
            else Ended(state, Finding(ip, 0, ""), err) && 4 <= CallsAt(err) <= 6 && PhasesAt(err.value) == 6
    ensures old(state.sent) <= state.sent && (client.willing ==> err.None?)
    ensures client.did == Script(spec, client.vendor, client.party, state.engineID, state.benchID, Finding(ip, 0, ""),
                                 if err.None? then 7 else CallsAt(err))
  {
    hide Underway, Ended, Client.Valid, Client.Mine, Statuses, Story, Blocking, Succeeds, FailsIn, Script, IDs,
         BenchmarkConfig, ConfigCopied, Accounted;
    Announce(state, 5, 0, "starting-benchmark", "");
    Prologue(spec, client.vendor, client.party, state.engineID, "", UNKNOWN);
    var ok := CreateBenchmarkContainer(client, state, spec, ip);
    Prologue(spec, client.vendor, client.party, state.engineID, state.benchID, Finding(ip, 0, ""));
    if !ok {
      Fail(state, 6, Finding(ip, 0, ""), "starting-benchmark", CreateBenchmark);
      return Some(CreateBenchmark);
    }
    ScriptStep(spec, client.vendor, client.party, state.engineID, state.benchID, Finding(ip, 0, ""), 5);
    err := StartBenchmarkContainer(client, state, spec, ip);
  }

  /** Its configuration, then its start. */
  method StartBenchmarkContainer(client: Client, state: RunState, spec: RunSpec, ip: string)
    returns (err: Option<RunError>)
    requires Accounted(client, state.engineID, state.benchID, R.AwaitBench) && Underway(state, 6, 0)
    requires client.did ==
             Script(spec, client.vendor, client.party, state.engineID, state.benchID, Finding(ip, 0, ""), 5)
    modifies client, state`chan, state`sent, state`waited, state`mine
    ensures Accounted(client, state.engineID, state.benchID, if err.None? then R.AwaitBench else R.DropBench)
    ensures if err.None? then Underway(state, 6, 0)
            else Ended(state, Finding(ip, 0, ""), err) && 5 <= CallsAt(err) <= 6 && PhasesAt(err.value) == 6
    ensures old(state.sent) <= state.sent && (client.willing ==> err.None?)
    ensures client.did == Script(spec, client.vendor, client.party, state.engineID, state.benchID, Finding(ip, 0, ""),
                                 if err.None? then 7 else CallsAt(err))
  {
    hide Underway, Ended, Client.Valid, Client.Mine, Statuses, Story, Blocking, Succeeds, FailsIn, Script, IDs,
         ConfigCopied, Accounted;
    ScriptStep(spec, client.vendor, client.party, state.engineID, state.benchID, Finding(ip, 0, ""), 6);
    ScriptStep(spec, client.vendor, client.party, state.engineID, state.benchID, Finding(ip, 0, ""), 7);
    var ok := CopyBenchmarkConfig(client, state, spec.benchmark);
    if !ok {
      WaitOver(client, state, R.AwaitBench, false);
      Fail(state, 6, Finding(ip, 0, ""), "starting-benchmark", CopyConfig);
      return Some(CopyConfig);
    }
    ok := StartContainer(client, state, state.benchID, R.AwaitBench);
    if !ok {
      WaitOver(client, state, R.AwaitBench, false);
      Fail(state, 6, Finding(ip, 0, ""), "starting-benchmark", StartBenchmark);
      return Some(StartBenchmark);
    }
    err := None;
  }

  /** A script does not depend on what is only found out after it. */
  lemma {:induction false} FoundLater(spec: RunSpec, v: Vendor, p: Party, e: string, b: string, f: Finding, g: Finding,
        n: nat)
    requires f.ip == g.ip && n <= 8 && (n == 8 ==> f.code == g.code)
    ensures Script(spec, v, p, e, b, f, n) == Script(spec, v, p, e, b, g, n)
  {
    hide EngineConfig, BenchmarkConfig, ConfigCopied;
    if n > 0 { FoundLater(spec, v, p, e, b, f, g, n - 1); }
  }

  /** How a run ends that its daemon lets do all it can and whose engine is healthy: as its benchmark does. */
  predicate EndsAsFound(client: Client, f: Finding, err: Option<RunError>) {
    match err
    case None => client.output == Some(f.results)
    case Some(NoResults(code)) => client.output == None && code == client.exitCode != 0
    case Some(UnreadableResults) => client.output == None && client.exitCode == 0
    case _ => false
  }

  /** Phases 7 and 8: the benchmark's exit and its results. A nonzero exit is told as an event of the
      benchmark, and partial results still make a success. */
  method Collect(client: Client, state: RunState, spec: RunSpec, ip: string)
    returns (err: Option<RunError>, ghost f: Finding)
    requires Accounted(client, state.engineID, state.benchID, R.AwaitBench) && Underway(state, 6, 0)
    requires client.did ==
             Script(spec, client.vendor, client.party, state.engineID, state.benchID, Finding(ip, 0, ""), 7)
    modifies client, state`chan, state`sent, state`waited, state`mine
    ensures Accounted(client, state.engineID, state.benchID, R.DropBench)
    ensures Ended(state, f, err) && CallsAt(err) >= 7 && f.ip == ip && old(state.sent) <= state.sent
    ensures client.did == Script(spec, client.vendor, client.party, state.engineID, state.benchID, f, CallsAt(err))
    ensures err.Some? && err.value.NoResults? ==> err.value.code == f.code != 0
    ensures err == Some(UnreadableResults) ==> f.code == 0
    ensures client.willing ==> EndsAsFound(client, f, err)
    ensures CallsAt(err) >= 8 && f.code != 0 ==> TellsExit(state.sent)
  {
    hide Underway, Ended, Client.Valid, Client.Mine, Statuses, Story, Blocking, FailsIn, Succeeds, Script, Accounted,
         TellsExit;
    f := Finding(ip, 0, "");
    Announce(state, 6, 0, "benchmark-running", "");
    var exit := AwaitExit(client, state);
    if exit.None? {
      WaitOver(client, state, R.AwaitBench, false);
      Fail(state, 7, f, "benchmark-running", WaitBenchmark);
      return Some(WaitBenchmark), f;
    }
    ghost var g := Finding(ip, exit.value, "");
    FoundLater(spec, client.vendor, client.party, state.engineID, state.benchID, f, g, 7);
    ScriptStep(spec, client.vendor, client.party, state.engineID, state.benchID, g, 8);
    if exit.value != 0 { TellExit(state); }
    ghost var told := state.sent;
    err, f := CollectResults(client, state, spec, g, exit.value);
    if exit.value != 0 { StillTells(told, state.sent); }
    WaitOver(client, state, R.AwaitBench, err.None?);
  }

  /** The wait for the benchmark, which leaves the run where it is. */
  method AwaitExit(client: Client, state: RunState) returns (exit: Option<int>)
    requires Accounted(client, state.engineID, state.benchID, R.AwaitBench)
    modifies client
    ensures Accounted(client, state.engineID, state.benchID, R.AwaitBench)
    ensures client.did == if exit.Some? then old(client.did) + [Waited(state.benchID, exit.value)] else old(client.did)
    ensures exit == Some(client.exitCode) || (exit == None && !client.willing)
  {
    hide Client.Valid, Client.Mine;
    exit := client.WaitForExit(state.benchID);
  }

  /** Phase 8. */
  method CollectResults(client: Client, state: RunState, spec: RunSpec, ghost f: Finding, code: int)
    returns (err: Option<RunError>, ghost g: Finding)
    requires Accounted(client, state.engineID, state.benchID, R.AwaitBench) && f.code == code == client.exitCode
    requires Underway(state, 7, if code != 0 then 1 else 0)
    requires client.did == Script(spec, client.vendor, client.party, state.engineID, state.benchID, f, 8)
    modifies client, state`chan, state`sent, state`waited, state`mine
    ensures Accounted(client, state.engineID, state.benchID, R.AwaitBench)
    ensures Ended(state, g, err) && CallsAt(err) >= 8 && g.ip == f.ip && g.code == code
    ensures old(state.sent) <= state.sent
    ensures client.did == Script(spec, client.vendor, client.party, state.engineID, state.benchID, g, CallsAt(err))
    ensures err.Some? && err.value.NoResults? ==> err.value.code == code != 0
    ensures err == Some(UnreadableResults) ==> code == 0
    ensures client.willing ==> EndsAsFound(client, g, err)
  {
    hide Underway, Ended, Client.Valid, Client.Mine, Statuses, Story, Blocking, FailsIn, Succeeds, Script, Accounted;
    g := f;
    Announce(state, 7, if code != 0 then 1 else 0, "collecting-results", "");
    var results := ReadBackResults(client, state);
    if results.None? {
      err := Some(if code != 0 then NoResults(code) else UnreadableResults);
      Fail(state, 8, f, "collecting-results", err.value);
      return;
    }
    g := Finding(f.ip, code, results.value);
    FoundLater(spec, client.vendor, client.party, state.engineID, state.benchID, f, g, 8);
    ScriptStep(spec, client.vendor, client.party, state.engineID, state.benchID, g, 9);
    TellResult(state, g, results.value);
    err := None;
  }

  method ReadBackResults(client: Client, state: RunState) returns (results: Option<string>)
    requires Accounted(client, state.engineID, state.benchID, R.AwaitBench)
    modifies client
    ensures Accounted(client, state.engineID, state.benchID, R.AwaitBench)
    ensures client.did ==
            if results.Some? then old(client.did) + [ReadBack(state.benchID, results.value)] else old(client.did)
    ensures results == client.output || (results == None && !client.willing)
  {
    hide Client.Valid, Client.Mine;
    results := client.ReadResults(state.benchID);
  }

  /** An error event of the benchmark's own tells of its exit. */
  predicate TellsExit(sent: seq<Event>) {
    exists k ::
      0 <= k < |sent| && sent[k].kind.Error? && sent[k].phase == "benchmark-exit" && sent[k].source == "benchmark"
  }

  lemma StillTells(sent: seq<Event>, more: seq<Event>)
    requires TellsExit(sent) && sent <= more
    ensures TellsExit(more)
  {
    var k :| 0 <= k < |sent| && sent[k].kind.Error? && sent[k].phase == "benchmark-exit"
             && sent[k].source == "benchmark";
    assert more[k] == sent[k];
  }

  /** The event of a benchmark that exited with a nonzero code. */
  method TellExit(state: RunState)
    requires Underway(state, 7, 0)
    modifies state`chan, state`sent, state`waited, state`mine
    ensures Underway(state, 7, 1) && old(state.sent) <= state.sent && TellsExit(state.sent)
  {
    ghost var k := |state.sent|;
    state.Emit(Event(Error, "benchmark-exit", "benchmark", "benchmark exited"));
    assert state.sent[k].kind.Error? && state.sent[k].phase == "benchmark-exit" && state.sent[k].source == "benchmark";
  }

  method TellResult(state: RunState, ghost f: Finding, results: string)
    requires Underway(state, 8, if f.code != 0 then 1 else 0) && f.results == results
    modifies state`chan, state`sent, state`waited, state`mine
    ensures Ended(state, f, None) && old(state.sent) <= state.sent
  {
    state.Emit(Event(Result, "done", ORCHESTRATOR, results));
  }

  /** The run between validation and cleanup. */
  method Orchestrate(client: Client, state: RunState, spec: RunSpec, world: nat -> Poll)
    returns (err: Option<RunError>, ghost f: Finding)
    requires Accounted(client, state.engineID, state.benchID, R.MakeNetwork) && Underway(state, 0, 0)
    requires state.engineID == state.benchID == "" && client.did == [] && client.Mine().networks == map[]
    modifies client, state
    ensures Accounted(client, state.engineID, state.benchID, R.DropBench)
    ensures Ended(state, f, err)
    ensures Performed(spec, client, client.did, state.engineID, state.benchID, world, f, err)
    ensures err.None? || PhasesAt(err.value) >= 6 ==> HealthyEvent(spec, f.ip) in state.sent
    ensures err == Some(EngineHealth) ==> Unhealthy(spec, client.party.Network(), world)
    ensures client.willing ==> err == Some(EngineHealth) || EndsAsFound(client, f, err)
    ensures CallsAt(err) >= 8 && f.code != 0 ==> TellsExit(state.sent)
  {
    hide TellsExit, Ended, Underway, Statuses, Story, Blocking, Succeeds, FailsIn, Script, AnswerFits, Accounted, IDs;
    f := UNKNOWN;
    Prologue(spec, client.vendor, client.party, "", "", UNKNOWN);
    err := CreatePlaces(client, state, spec);
    if err.Some? { return; }
    var ip;
    err, ip := BringUpEngine(client, state, spec, world);
    if err.Some? { return; }
    f := Finding(ip, 0, "");
    err := BringUpBenchmark(client, state, spec, ip);
    if err.Some? { return; }
    err, f := Collect(client, state, spec, ip);
  }

  /** What cleanup asks for a container, if there is one. */
  function BoxCleanup(id: string): seq<Call> {
    if id == "" then [] else [Stopped(id), Removed(id)]
  }

  /** All that cleanup asks for. */
  function Cleanup(p: Party, benchID: string, engineID: string): seq<Call> {
    BoxCleanup(benchID) + BoxCleanup(engineID) + [RemovedNetwork(p.Network()), RemovedVolume(p.Volume())]
  }

  /** Where cleanup has come to after `i` of the two ids. */
  function CleanupAt(i: nat): R.Stage {
    if i == 0 then R.DropBench else if i == 1 then R.DropEngine else R.DropNetwork
  }

  /** `cleanupRun`: the benchmark's container, the engine's, the network, the volume. In this order
      no removal ever meets a resource in use, so what the daemon honours is all of them. */
  method CleanupRun(client: Client, state: RunState)
    requires Accounted(client, state.engineID, state.benchID, R.DropBench)
    modifies client
    ensures client.Valid() && client.progress.at.Returned?
    ensures client.did == old(client.did) + Cleanup(client.party, state.benchID, state.engineID)
    ensures Cleanup(client.party, state.benchID, state.engineID) ==
              (if state.benchID == "" then [] else [Stopped(state.benchID), Removed(state.benchID)])
              + (if state.engineID == "" then [] else [Stopped(state.engineID), Removed(state.engineID)])
              + [RemovedNetwork("bonnie-run-" + client.party.runID),
                 RemovedVolume("bonnie-results-" + client.party.runID)]
    ensures client.honours ==> client.Mine() == NOTHING && client.inUse == 0
  {
    hide Client.Valid;
    var ids := [state.benchID, state.engineID];
    var i := 0;
    while i < |ids|
      invariant 0 <= i <= |ids| && client.Valid()
      invariant client.progress == R.Progress(CleanupAt(i), ids[1], ids[0])
      invariant client.did == old(client.did) + (if i > 0 then BoxCleanup(ids[0]) else [])
                              + (if i > 1 then BoxCleanup(ids[1]) else [])
    {
      if ids[i] != "" {
        client.ContainerStop(ids[i]);
        client.ContainerRemove(ids[i]);
      } else {
        client.Pass(true);
      }
      i := i + 1;
    }
    client.NetworkRemove();
    client.VolumeRemove();
    client.AtTheEnd();
  }

  /** `PairedRun`. A spec that fails validation leaves no trace, and is told the first thing wrong with it.
      Otherwise the run tells exactly one of the two stories, a success with the results as they were read;
      makes the calls that go with it; spends at most two blocking sends, 20 seconds, on its events with or
      without a consumer; and on a daemon that lets it do all it can ends as its engine's health and its
      benchmark's results say. It changes nothing of anyone else's, and on a daemon that honours permitted
      removals leaves nothing of its own behind. In the end it closes the channel, and brings the process
      down exactly if a send of a log goroutine is blocked then; none of its own is. */
  method PairedRun(client: Client, spec: RunSpec, world: nat -> Poll)
    returns (err: Option<RunError>, state: RunState, ghost f: Finding)
    requires client.Valid() && client.progress == R.BEGUN && client.Mine() == NOTHING && client.did == []
    requires client.party.runID == spec.runID
    modifies client
    ensures client.Valid() && fresh(state)
    ensures FirstFault(spec, err)
    ensures err.Some? && IsInvalid(err.value) ==>
              err == Validate(spec) && state.sent == [] && client.actions == old(client.actions) && client.did == []
    ensures err.None? || !IsInvalid(err.value) ==>
              && Validate(spec).None? && client.progress.at.Returned?
              && Told(state.sent, f, err) && state.waited <= 20000
              && Answered(client, spec, state.sent, world, f, err)
              && exists did ::
                    Performed(spec, client, did, state.engineID, state.benchID, world, f, err)
                    && client.did == did + Cleanup(client.party, state.benchID, state.engineID)
    ensures client.honours ==> client.Mine() == NOTHING && client.inUse == 0
    ensures Scheduled(state.chan) && state.chan.closed && Ours(state.chan, state.mine, state.sent, true)
    ensures state.chan.panicked <==> state.chan.waiting != []
    ensures OnlyLogsBlocked(state.chan)
  {
    hide Performed, Script, Cleanup, Story, Statuses, Inv, Ours, Scheduled, Validate, FirstFault, Told, Answered;
    ValidateMeans(spec);
    ValidateInvalid(spec);
    state := new RunState(true);
    f := UNKNOWN;
    err := Validate(spec);
    if err.Some? {
      client.AtTheEnd();
      state.CloseEvents();
      return;
    }
    err, f := RunValid(client, state, spec, world);
    StillNoFault(spec, err);
  }

  /** A run that passed its checks. */
  method RunValid(client: Client, state: RunState, spec: RunSpec, world: nat -> Poll)
    returns (err: Option<RunError>, ghost f: Finding)
    requires client.Valid() && client.progress == R.BEGUN && client.Mine() == NOTHING && client.did == []
    requires state.Valid() && state.alone && state.sent == [] && state.engineID == state.benchID == ""
    requires state.waited == 0
    modifies client, state
    ensures client.Valid() && client.progress.at.Returned? && (err.Some? ==> !IsInvalid(err.value))
    ensures Told(state.sent, f, err) && state.waited <= 20000 && Answered(client, spec, state.sent, world, f, err)
    ensures exists did ::
              Performed(spec, client, did, state.engineID, state.benchID, world, f, err)
              && client.did == did + Cleanup(client.party, state.benchID, state.engineID)
    ensures client.honours ==> client.Mine() == NOTHING && client.inUse == 0
    ensures Scheduled(state.chan) && state.chan.closed && Ours(state.chan, state.mine, state.sent, true)
    ensures (state.chan.panicked <==> state.chan.waiting != []) && OnlyLogsBlocked(state.chan)
  {
    hide Performed, Script, Cleanup, Story, Statuses, Inv, Ours, Scheduled, Unhealthy, EndsAsFound, Accounted,
         TellsExit, HealthyEvent, RunState.Open, Client.Valid;
    Beginning(client, state);
    err, f := Orchestrate(client, state, spec, world);
    ghost var did := client.did;
    CleanupRun(client, state);
    state.CloseEvents();
    assert Performed(spec, client, did, state.engineID, state.benchID, world, f, err);
  }

  lemma Beginning(client: Client, state: RunState)
    requires client.Valid() && client.progress == R.BEGUN && client.Mine() == NOTHING
    requires state.Valid() && state.alone && state.sent == []
    ensures Accounted(client, "", "", R.MakeNetwork) && Underway(state, 0, 0)
  {
    hide Client.Valid, RunState.Open;
  }

  /** Where the answer of a run comes from: a success or a failure after the health check has told where the
      engine is reachable; the health check failed only if the wait says so; a nonzero exit has been told; and
      a daemon that lets the run do all it can leaves only the engine's health and the benchmark's results to
      decide. */
  ghost predicate Answered(client: Client, spec: RunSpec, sent: seq<Event>, world: nat -> Poll, f: Finding,
                           err: Option<RunError>)
  {
    && (err.None? || PhasesAt(err.value) >= 6 ==> HealthyEvent(spec, f.ip) in sent)
    && (err == Some(EngineHealth) ==> Unhealthy(spec, client.party.Network(), world))
    && (CallsAt(err) >= 8 && f.code != 0 ==> TellsExit(sent))
    && (client.willing ==> err == Some(EngineHealth) || EndsAsFound(client, f, err))
  }

  lemma ValidateInvalid(spec: RunSpec)
    ensures Validate(spec).Some? ==> IsInvalid(Validate(spec).value)
  {
  }

  lemma StillNoFault(spec: RunSpec, err: Option<RunError>)
    requires Validate(spec).None? && (err.Some? ==> !IsInvalid(err.value))
    ensures FirstFault(spec, err)
  {
    ValidateMeans(spec);
    hide Validate;
  }
}
