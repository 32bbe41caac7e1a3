/** Lifecycle of Runtime containers on one Docker host. */
module DockerProvider {
  import opened Basics

  // Docker is a map from runtime id (container names are injective in it) to container
  // info, the host a map from runtime id to workspace contents.  Starting a container leaves
  // it running; it may die at any later moment.

  type RuntimeId = string

  /** The labels the Provider writes and reads.  A label that is missing, or whose decimal number
      cannot be read, is `None`; decimal encodings are injective. */
  datatype Labels = Labels(
    managedBy: Option<string>,
    provider: Option<string>,
    runtime: Option<string>,
    agent: Option<string>,
    workspace: Option<string>,
    desiredGeneration: Option<int>,
    providerGeneration: Option<int>,
    imageGeneration: Option<string>,
    sequence: Option<int>,
    digest: Option<string>,
    caDigest: Option<string>)

  /** The environment variables the Provider writes and reads; `limits` are the runner limits. */
  datatype Env = Env(
    limits: map<string, string>,
    controlEndpoint: Option<string>,
    transferEndpoint: Option<string>,
    caPem: Option<string>,
    allowInsecure: Option<string>,
    runtime: Option<string>,
    agent: Option<string>,
    workspace: Option<string>,
    provider: Option<string>,
    home: Option<string>,
    providerGeneration: Option<int>,
    desiredGeneration: Option<int>,
    token: Option<string>,
    credential: Option<string>,
    sequence: Option<int>,
    digest: Option<string>,
    configurationGeneration: Option<int>,
    caDigest: Option<string>)

  datatype HostPath =
    | WorkspaceDir(id: RuntimeId) | TmpDir(id: RuntimeId) | TrustDir(id: RuntimeId) | CaFile(path: string)

  datatype Bind = Bind(host: HostPath, mount: string, readOnly: bool)

  datatype Status = Created | Running | Restarting | Paused | Exited | Removing | DeadStatus

  datatype RunState = RunState(running: bool, restarting: bool, oomKilled: bool, dead: bool, status: Status)

  /** User, capabilities, security options and privilege flag, which never vary. */
  datatype Hardening = Hardening(
    user: string,
    capAdd: set<string>,
    capDrop: set<string>,
    securityOptions: set<string>,
    privileged: bool)

  const HARDENED := Hardening("1000:1000", {}, {"ALL"}, {"no-new-privileges"}, false)
  const IMAGE_GENERATION := "agent-runtime-docker-v1"
  const MANAGER := "azents-runtime-provider-docker"
  const CA_MOUNT := "/var/run/secrets/azents/runtime-network/ca.crt"
  const TRUST_MOUNT := "/var/run/azents-runtime"

  datatype Container = Container(
    image: string,
    labels: Labels,
    env: Env,
    binds: set<Bind>,
    hardening: Hardening,
    network: string,
    resources: int,
    state: RunState)

  datatype Config = Config(
    providerId: string,
    runnerEnv: map<string, string>,
    workspaceMount: string,
    tmpMount: string,
    caPath: Option<string>)

  datatype Auth = Auth(
    controlEndpoint: string,
    transferEndpoint: string,
    caPem: Option<string>,
    allowInsecure: string,
    token: string,
    credential: string)

  datatype Evidence = Evidence(sequence: int, digest: string, generation: int)

  datatype Profile = Profile(network: Option<string>, resources: int)

  datatype Command = Command(
    runtimeId: RuntimeId,
    agentId: string,
    workspaceId: string,
    desiredGeneration: int,
    providerGeneration: int,
    auth: Auth,
    image: string,
    evidence: Evidence,
    boundProvider: string,
    profile: Option<Profile>,  // nothing when the envelope does not hold a Docker profile
    resetToRunning: Option<bool>)

  datatype Error = InvalidRuntimeId | UnreadableCa | UnsupportedConfiguration | MissingResetState

  /** The host, with counters of container creations and removals. */
  datatype Host = Host(
    containers: map<RuntimeId, Container>,
    roots: map<RuntimeId, int>,
    created: nat,
    removed: nat)

  const EMPTY_WORKSPACE := 0

  // ----- what a container is created with -------------------------------------------------------

  function AllLabels(cfg: Config, ca: Option<string>, cmd: Command): Labels {
    Labels(Some(MANAGER), Some(cfg.providerId), Some(cmd.runtimeId), Some(cmd.agentId), Some(cmd.workspaceId),
           Some(cmd.desiredGeneration), Some(cmd.providerGeneration), Some(IMAGE_GENERATION),
           Some(cmd.evidence.sequence), Some(cmd.evidence.digest), ca)
  }

  function AllEnv(cfg: Config, ca: Option<string>, cmd: Command): Env {
    Env(cfg.runnerEnv, Some(cmd.auth.controlEndpoint), Some(cmd.auth.transferEndpoint), cmd.auth.caPem,
        Some(cmd.auth.allowInsecure), Some(cmd.runtimeId), Some(cmd.agentId), Some(cmd.workspaceId),
        Some(cfg.providerId), Some(cfg.workspaceMount), Some(cmd.providerGeneration), Some(cmd.desiredGeneration),
        Some(cmd.auth.token), Some(cmd.auth.credential), Some(cmd.evidence.sequence), Some(cmd.evidence.digest),
        Some(cmd.evidence.generation), ca)
  }

  function Binds(cfg: Config, id: RuntimeId): set<Bind> {
    {Bind(WorkspaceDir(id), cfg.workspaceMount, false), Bind(TmpDir(id), cfg.tmpMount, false)}
    + if cfg.caPath == None then {}
      else {Bind(CaFile(cfg.caPath.value), CA_MOUNT, true), Bind(TrustDir(id), TRUST_MOUNT, false)}
  }

  const STOPPED := RunState(false, false, false, false, Created)
  const STARTED := RunState(true, false, false, false, Running)

  function NewContainer(cfg: Config, ca: Option<string>, cmd: Command, network: string, resources: int): Container {
    Container(cmd.image, AllLabels(cfg, ca, cmd), AllEnv(cfg, ca, cmd), Binds(cfg, cmd.runtimeId), HARDENED,
              network, resources, STOPPED)
  }

  // ----- reuse ------------------------------------------------------------------------------------

  predicate Terminal(c: Container) {
    c.state.dead || c.state.status == Exited || c.state.status == Removing
  }

  /** An expected entry, checked only when there is one to expect. */
  predicate Wants(have: Option<string>, want: Option<string>) {
    want.Some? ==> have == want
  }

  predicate HasStableLabels(l: Labels, cfg: Config, cmd: Command) {
    && l.managedBy == Some(MANAGER) && l.provider == Some(cfg.providerId) && l.runtime == Some(cmd.runtimeId)
    && l.agent == Some(cmd.agentId) && l.workspace == Some(cmd.workspaceId)
  }

  predicate HasStableEnv(e: Env, cfg: Config, ca: Option<string>, cmd: Command) {
    && (forall n :: n in cfg.runnerEnv ==> n in e.limits && e.limits[n] == cfg.runnerEnv[n])
    && e.controlEndpoint == Some(cmd.auth.controlEndpoint) && e.transferEndpoint == Some(cmd.auth.transferEndpoint)
    && e.runtime == Some(cmd.runtimeId) && e.agent == Some(cmd.agentId) && e.workspace == Some(cmd.workspaceId)
    && e.provider == Some(cfg.providerId) && e.home == Some(cfg.workspaceMount)
    && Wants(e.caDigest, ca) && Wants(e.caPem, cmd.auth.caPem)
    && e.allowInsecure == Some(cmd.auth.allowInsecure)
  }

  predicate HasAuthEnv(e: Env, cmd: Command) {
    && e.desiredGeneration == Some(cmd.desiredGeneration)
    && e.token == Some(cmd.auth.token) && e.credential == Some(cmd.auth.credential)
  }

  predicate HasConfiguration(l: Labels, e: Env, cmd: Command) {
    && l.sequence == Some(cmd.evidence.sequence) && l.digest == Some(cmd.evidence.digest)
    && e.sequence == Some(cmd.evidence.sequence) && e.digest == Some(cmd.evidence.digest)
    && e.configurationGeneration == Some(cmd.evidence.generation)
  }

  /** Everything compared before the full specification is built.  Of the two places that hold
      the desired generation only the environment is looked at. */
  predicate Matches(cfg: Config, ca: Option<string>, c: Container, cmd: Command) {
    && c.image == cmd.image
    && !Terminal(c)
    && HasStableLabels(c.labels, cfg, cmd)
    && c.labels.imageGeneration == Some(IMAGE_GENERATION)
    && Wants(c.labels.caDigest, ca)
    && HasStableEnv(c.env, cfg, ca, cmd)
    && HasAuthEnv(c.env, cmd)
    && HasConfiguration(c.labels, c.env, cmd)
    && c.env.limits == cfg.runnerEnv
  }

  /** Building the specification raises without a network, but only once everything else matched. */
  function Reusable(cfg: Config, ca: Option<string>, c: Container, cmd: Command,
                    profile: Profile): Result<bool, Error>
  {
    if !Matches(cfg, ca, c, cmd) then Ok(false)
    else if profile.network == None then Err(UnsupportedConfiguration)
    else Ok(c.hardening == HARDENED && c.binds == Binds(cfg, cmd.runtimeId))
  }

  predicate IdChar(c: char) {
    'A' <= c <= 'Z' || 'a' <= c <= 'z' || '0' <= c <= '9' || c == '_' || c == '.' || c == '-'
  }

  predicate ValidId(id: RuntimeId) {
    id != "" && forall i :: 0 <= i < |id| ==> IdChar(id[i])
  }

  function ValidateCommand(cfg: Config, cmd: Command): Result<Profile, Error> {
    if cmd.evidence.generation != cmd.desiredGeneration || cmd.boundProvider != cfg.providerId || cmd.profile == None
    then Err(UnsupportedConfiguration) else Ok(cmd.profile.value)
  }

  /** The cleanup envelope needs no Docker profile. */
  predicate CleanupValid(cfg: Config, cmd: Command) {
    cmd.evidence.generation == cmd.desiredGeneration && cmd.boundProvider == cfg.providerId
  }

  // ----- reports ------------------------------------------------------------------------------------

  datatype Observed = IsRunning | IsStarting | IsFailed

  datatype Report = Report(
    runtimeId: RuntimeId,
    providerGeneration: int,
    observed: Observed,
    desiredGeneration: int,
    evidence: Evidence)

  function ObservedState(s: RunState): Observed {
    if s.running then IsRunning
    else if s.restarting then IsStarting
    else if s.oomKilled || s.dead || s.status == Exited || s.status == Removing then IsFailed
    else IsStarting
  }

  function OrZero(number: Option<int>): int {
    if number.Some? then number.value else 0
  }

  /** Nothing when the configuration evidence on the labels is incomplete or malformed. */
  function ReportFromContainer(c: Container): Option<Report> {
    var l := c.labels;
    if l.runtime.Some? && l.sequence.Some? && l.sequence.value > 0 && l.digest.Some?
    then Some(Report(l.runtime.value, OrZero(l.providerGeneration), ObservedState(c.state), OrZero(l.desiredGeneration),
                     Evidence(l.sequence.value, l.digest.value, OrZero(l.desiredGeneration))))
    else None
  }

  predicate Listed(cfg: Config, c: Container) {
    c.labels.managedBy == Some(MANAGER) && c.labels.provider == Some(cfg.providerId)
  }

  // ----- the host after one step, as values ------------------------------------------------------

  function WithoutContainer(h: Host, id: RuntimeId): Host {
    h.(containers := h.containers - {id}, removed := h.removed + if id in h.containers then 1 else 0)
  }

  function WithDirs(h: Host, id: RuntimeId): Host {
    h.(roots := if id in h.roots then h.roots else h.roots[id := EMPTY_WORKSPACE])
  }

  function WithoutRoot(h: Host, id: RuntimeId): Host {
    h.(roots := h.roots - {id})
  }

  function Wiped(h: Host, id: RuntimeId): Host {
    WithoutRoot(WithoutContainer(h, id), id)
  }

  /** The container is kept, apart from being started. */
  predicate Keeps(cfg: Config, ca: Option<string>, h: Host, cmd: Command, profile: Profile) {
    cmd.runtimeId in h.containers && Reusable(cfg, ca, h.containers[cmd.runtimeId], cmd, profile) == Ok(true)
  }

  /** What `_ensure_container` leaves behind when the command is valid and the profile names a network. */
  function Ensured(cfg: Config, ca: Option<string>, h: Host, cmd: Command, profile: Profile): Host
    requires profile.network.Some?
  {
    var id := cmd.runtimeId;
    if Keeps(cfg, ca, h, cmd, profile) then
      WithDirs(h, id).(containers := h.containers[id := h.containers[id].(state := STARTED)])
    else
      var cleared := WithDirs(WithoutContainer(h, id), id);
      cleared.(containers := cleared.containers[id :=
                 NewContainer(cfg, ca, cmd, profile.network.value, profile.resources).(state := STARTED)],
               created := cleared.created + 1)
  }

  /** Containers of the Provider carry the same evidence on labels and in the environment. */
  predicate WrittenTogether(c: Container) {
    && c.labels.desiredGeneration == c.env.desiredGeneration
    && c.labels.sequence == c.env.sequence
    && c.labels.digest == c.env.digest
  }

  /** The Provider is the sole creator of its containers. */
  ghost predicate SoleCreator(h: Host) {
    forall id :: id in h.containers ==> WrittenTogether(h.containers[id])
  }

  // ----- the fields, one by one --------------------------------------------------------------------

  /** What a container must share with the command and the configuration to be kept. */
  ghost predicate Carries(cfg: Config, ca: Option<string>, c: Container, cmd: Command) {
    && c.image == cmd.image
    // labels
    && c.labels.managedBy == Some("azents-runtime-provider-docker")
    && c.labels.provider == Some(cfg.providerId) && c.labels.runtime == Some(cmd.runtimeId)
    && c.labels.agent == Some(cmd.agentId) && c.labels.workspace == Some(cmd.workspaceId)
    && c.labels.imageGeneration == Some("agent-runtime-docker-v1")
    && c.labels.sequence == Some(cmd.evidence.sequence) && c.labels.digest == Some(cmd.evidence.digest)
    && (ca.Some? ==> c.labels.caDigest == ca)
    // environment
    && c.env.limits == cfg.runnerEnv
    && c.env.controlEndpoint == Some(cmd.auth.controlEndpoint)
    && c.env.transferEndpoint == Some(cmd.auth.transferEndpoint)
    && c.env.allowInsecure == Some(cmd.auth.allowInsecure)
    && (cmd.auth.caPem.Some? ==> c.env.caPem == cmd.auth.caPem)
    && c.env.runtime == Some(cmd.runtimeId) && c.env.agent == Some(cmd.agentId)
    && c.env.workspace == Some(cmd.workspaceId) && c.env.provider == Some(cfg.providerId)
    && c.env.home == Some(cfg.workspaceMount)
    && c.env.desiredGeneration == Some(cmd.desiredGeneration)
    && c.env.token == Some(cmd.auth.token) && c.env.credential == Some(cmd.auth.credential)
    && c.env.sequence == Some(cmd.evidence.sequence) && c.env.digest == Some(cmd.evidence.digest)
    && c.env.configurationGeneration == Some(cmd.evidence.generation)
    && (ca.Some? ==> c.env.caDigest == ca)
    // mounts
    && (forall b :: b in c.binds <==>
          || b == Bind(WorkspaceDir(cmd.runtimeId), cfg.workspaceMount, false)
          || b == Bind(TmpDir(cmd.runtimeId), cfg.tmpMount, false)
          || (cfg.caPath.Some? &&
              (|| b == Bind(CaFile(cfg.caPath.value), "/var/run/secrets/azents/runtime-network/ca.crt", true)
               || b == Bind(TrustDir(cmd.runtimeId), "/var/run/azents-runtime", false))))
    // hardening
    && c.hardening.user == "1000:1000" && c.hardening.capAdd == {} && c.hardening.capDrop == {"ALL"}
    && c.hardening.securityOptions == {"no-new-privileges"} && !c.hardening.privileged
  }

  /** A container can be kept when it is there, carries all that and can still run. */
  ghost predicate CanStay(cfg: Config, ca: Option<string>, h: Host, cmd: Command) {
    && cmd.runtimeId in h.containers
    && Carries(cfg, ca, h.containers[cmd.runtimeId], cmd)
    && !h.containers[cmd.runtimeId].state.dead
    && h.containers[cmd.runtimeId].state.status != Exited && h.containers[cmd.runtimeId].state.status != Removing
  }

  /** What only a container that was just created has for sure. */
  ghost predicate JustCreated(ca: Option<string>, c: Container, cmd: Command, profile: Profile) {
    && c.labels.desiredGeneration == Some(cmd.desiredGeneration)
    && c.labels.providerGeneration == Some(cmd.providerGeneration)
    && c.env.providerGeneration == Some(cmd.providerGeneration)
    && c.labels.caDigest == ca && c.env.caDigest == ca && c.env.caPem == cmd.auth.caPem
    && Some(c.network) == profile.network && c.resources == profile.resources
  }

  lemma {:induction false} MatchesIsCarries(cfg: Config, ca: Option<string>, c: Container, cmd: Command,
                                            profile: Profile)
    requires profile.network.Some?
    ensures Reusable(cfg, ca, c, cmd, profile) == Ok(true) <==>
            && Carries(cfg, ca, c, cmd)
            && !c.state.dead && c.state.status != Exited && c.state.status != Removing
  {
    BindsAre(cfg, cmd.runtimeId);
    if Carries(cfg, ca, c, cmd) {
      assert c.binds == Binds(cfg, cmd.runtimeId);
      assert c.hardening == HARDENED;
    }
  }

  lemma {:induction false} BindsAre(cfg: Config, id: RuntimeId)
    ensures forall b :: b in Binds(cfg, id) <==>
              || b == Bind(WorkspaceDir(id), cfg.workspaceMount, false)
              || b == Bind(TmpDir(id), cfg.tmpMount, false)
              || (cfg.caPath.Some? &&
                  (|| b == Bind(CaFile(cfg.caPath.value), "/var/run/secrets/azents/runtime-network/ca.crt", true)
                   || b == Bind(TrustDir(id), "/var/run/azents-runtime", false)))
  {
  }

  /** A start keeps the old container exactly when it can stay, and otherwise creates one; either
      way the container then carries what the command asks for and runs. */
  lemma {:induction false} KeptOrCreated(cfg: Config, ca: Option<string>, h: Host, cmd: Command, profile: Profile)
    requires profile.network.Some?
    ensures var h' := Ensured(cfg, ca, h, cmd, profile);
            && cmd.runtimeId in h'.containers
            && Settled(cfg, ca, h, h', cmd, profile)
  {
    if cmd.runtimeId in h.containers {
      MatchesIsCarries(cfg, ca, h.containers[cmd.runtimeId], cmd, profile);
    }
    NewIsReusable(cfg, ca, cmd, profile);
    MatchesIsCarries(cfg, ca, NewContainer(cfg, ca, cmd, profile.network.value, profile.resources).(state := STARTED),
                     cmd, profile);
  }

  /** The host after a start, field by field. */
  ghost predicate Settled(cfg: Config, ca: Option<string>, h: Host, h': Host, cmd: Command, profile: Profile)
    requires cmd.runtimeId in h'.containers
  {
    var id, c := cmd.runtimeId, h'.containers[cmd.runtimeId];
    && Carries(cfg, ca, c, cmd) && c.state.running
    && h'.roots == (if id in h.roots then h.roots else h.roots[id := EMPTY_WORKSPACE])
    && (if CanStay(cfg, ca, h, cmd) then
          && c == h.containers[id].(state := c.state)
          && h'.created == h.created && h'.removed == h.removed
        else
          && JustCreated(ca, c, cmd, profile)
          && h'.created == h.created + 1
          && h'.removed == h.removed + if id in h.containers then 1 else 0)
  }

  /** The guards of the commands, by their fields. */
  lemma {:induction false} ValidityMeans(cfg: Config, cmd: Command)
    ensures ValidateCommand(cfg, cmd) ==
            if && cmd.evidence.generation == cmd.desiredGeneration
               && cmd.boundProvider == cfg.providerId && cmd.profile.Some?
            then Ok(cmd.profile.value) else Err(UnsupportedConfiguration)
    ensures CleanupValid(cfg, cmd) <==>
              cmd.evidence.generation == cmd.desiredGeneration && cmd.boundProvider == cfg.providerId
    ensures ValidId(cmd.runtimeId) <==>
              && |cmd.runtimeId| > 0
              && forall c :: c in cmd.runtimeId ==>
                   c in "_.-" || 'a' <= c <= 'z' || 'A' <= c <= 'Z' || '0' <= c <= '9'
  {
    var id := cmd.runtimeId;
    assert "_.-"[0] == '_' && "_.-"[1] == '.' && "_.-"[2] == '-';
    forall c ensures IdChar(c) <==> c in "_.-" || 'a' <= c <= 'z' || 'A' <= c <= 'Z' || '0' <= c <= '9' {
    }
    if forall c :: c in id ==> IdChar(c) {
      forall i | 0 <= i < |id| ensures IdChar(id[i]) { assert id[i] in id; }
    }
  }

  /** Removing a container and wiping a Runtime. */
  lemma {:induction false} RemovalMeans(h: Host, id: RuntimeId)
    ensures var h' := WithoutContainer(h, id);
            && h'.roots == h.roots && h'.created == h.created
            && (forall other :: other in h'.containers <==> other in h.containers && other != id)
            && (forall other :: other in h'.containers ==> h'.containers[other] == h.containers[other])
    ensures var h' := Wiped(h, id);
            && h'.containers == WithoutContainer(h, id).containers && h'.created == h.created
            && (forall other :: other in h'.roots <==> other in h.roots && other != id)
            && (forall other :: other in h'.roots ==> h'.roots[other] == h.roots[other])
  {
  }

  /** What a scan says of a container: a running one runs, a restarting one starts, one that was
      killed, is dead, has exited or is being removed has failed, and any other starts. */
  lemma {:induction false} ReportMeans(cfg: Config, c: Container)
    ensures Listed(cfg, c) <==>
              && c.labels.managedBy == Some("azents-runtime-provider-docker")
              && c.labels.provider == Some(cfg.providerId)
    ensures ReportFromContainer(c).Some? <==>
              c.labels.runtime.Some? && c.labels.digest.Some? && c.labels.sequence.Some? && c.labels.sequence.value >= 1
    ensures ReportFromContainer(c).Some? ==>
              var r := ReportFromContainer(c).value;
              && r.runtimeId == c.labels.runtime.value
              && r.evidence.sequence == c.labels.sequence.value && r.evidence.digest == c.labels.digest.value
              && r.evidence.generation == r.desiredGeneration
              && r.desiredGeneration == (match c.labels.desiredGeneration case None => 0 case Some(n) => n)
              && r.providerGeneration == (match c.labels.providerGeneration case None => 0 case Some(n) => n)
              && (r.observed == IsRunning <==> c.state.running)
              && (r.observed == IsFailed <==>
                    && !c.state.running && !c.state.restarting
                    && (c.state.oomKilled || c.state.dead || c.state.status == Exited || c.state.status == Removing))
  {
  }

  /** Nothing but `id` is touched. */
  ghost predicate OnlyAffects(h: Host, h': Host, id: RuntimeId) {
    h'.containers - {id} == h.containers - {id} && h'.roots - {id} == h.roots - {id}
  }

  /** A container the Provider has just created and started is one it would reuse. */
  lemma {:induction false} NewIsReusable(cfg: Config, ca: Option<string>, cmd: Command, profile: Profile)
    requires profile.network.Some?
    ensures var c := NewContainer(cfg, ca, cmd, profile.network.value, profile.resources).(state := STARTED);
            Reusable(cfg, ca, c, cmd, profile) == Ok(true)
  {
  }

  /** Whichever way the container got there, it carries the command's generation and evidence
      and is running. */
  ghost predicate ConvergedOn(cfg: Config, c: Container, cmd: Command) {
    && Listed(cfg, c)
    && ReportFromContainer(c).Some?
    && var r := ReportFromContainer(c).value;
       r.runtimeId == cmd.runtimeId && r.observed == IsRunning
       && r.desiredGeneration == cmd.desiredGeneration && r.evidence == cmd.evidence
  }

  /** Start converges: with the Provider the sole creator of its containers, the container is
      reported with the command's desired generation and evidence even when it was reused,
      although reuse rechecks the generation only in the environment. */
  lemma {:induction false} StartConverges(cfg: Config, ca: Option<string>, h: Host, cmd: Command, profile: Profile)
    requires SoleCreator(h) && ValidateCommand(cfg, cmd) == Ok(profile) && profile.network.Some?
    requires cmd.evidence.sequence > 0
    ensures var h' := Ensured(cfg, ca, h, cmd, profile);
            && SoleCreator(h')
            && cmd.runtimeId in h'.containers && ConvergedOn(cfg, h'.containers[cmd.runtimeId], cmd)
            && OnlyAffects(h, h', cmd.runtimeId)
            && (forall id :: id in h.roots ==> id in h'.roots && h'.roots[id] == h.roots[id])
  {
    if Keeps(cfg, ca, h, cmd, profile) {
      var c := h.containers[cmd.runtimeId];
      assert WrittenTogether(c) && Matches(cfg, ca, c, cmd);
    }
    ConvergesExactly(cfg, ca, h, cmd, profile);
    EnsuredAffects(cfg, ca, h, cmd, profile);
  }

  /** Only one Runtime is touched, and no workspace that exists. */
  lemma {:induction false} EnsuredAffects(cfg: Config, ca: Option<string>, h: Host, cmd: Command, profile: Profile)
    requires profile.network.Some?
    ensures var h' := Ensured(cfg, ca, h, cmd, profile);
            && OnlyAffects(h, h', cmd.runtimeId)
            && (forall id :: id in h.roots ==> id in h'.roots && h'.roots[id] == h.roots[id])
  {
  }

  /** Whoever created the containers: start converges exactly unless it keeps a container whose
      generation label, which reuse does not recheck, is another one. */
  lemma {:induction false} ConvergesExactly(cfg: Config, ca: Option<string>, h: Host, cmd: Command, profile: Profile)
    requires ValidateCommand(cfg, cmd) == Ok(profile) && profile.network.Some?
    requires cmd.evidence.sequence > 0
    ensures ConvergedOn(cfg, Ensured(cfg, ca, h, cmd, profile).containers[cmd.runtimeId], cmd) <==>
            (Keeps(cfg, ca, h, cmd, profile) ==>
               OrZero(h.containers[cmd.runtimeId].labels.desiredGeneration) == cmd.desiredGeneration)
  {
    if Keeps(cfg, ca, h, cmd, profile) {
      assert Matches(cfg, ca, h.containers[cmd.runtimeId], cmd);
    }
  }

  /** `StartConverges` for a host that may also have foreign containers. */
  lemma {:induction false} ConvergesIfSole(cfg: Config, ca: Option<string>, h: Host, cmd: Command, profile: Profile)
    requires ValidateCommand(cfg, cmd) == Ok(profile) && profile.network.Some?
    ensures SoleCreator(h) ==> SoleCreator(Ensured(cfg, ca, h, cmd, profile))
    ensures SoleCreator(h) && cmd.evidence.sequence > 0 ==>
              ConvergedOn(cfg, Ensured(cfg, ca, h, cmd, profile).containers[cmd.runtimeId], cmd)
  {
    if SoleCreator(h) && cmd.evidence.sequence > 0 { StartConverges(cfg, ca, h, cmd, profile); }
  }

  /** An immediate second start neither removes nor creates, and changes nothing at all. */
  lemma {:induction false} SecondStartIsQuiet(cfg: Config, ca: Option<string>, h: Host, cmd: Command, profile: Profile)
    requires profile.network.Some?
    ensures var h' := Ensured(cfg, ca, h, cmd, profile);
            Keeps(cfg, ca, h', cmd, profile) && Ensured(cfg, ca, h', cmd, profile) == h'
  {
    var h' := Ensured(cfg, ca, h, cmd, profile);
    var c' := h'.containers[cmd.runtimeId];
    if Keeps(cfg, ca, h, cmd, profile) {
      assert Matches(cfg, ca, c', cmd);
    } else {
      NewIsReusable(cfg, ca, cmd, profile);
    }
    assert h'.containers[cmd.runtimeId := c'] == h'.containers;
  }

  /** The reported Provider generation is the command's exactly when the container was created
      anew or had been created under the same one: reuse does not refresh it. */
  lemma {:induction false} ProviderGenerationMayBeStale(cfg: Config, ca: Option<string>, h: Host, cmd: Command,
                                                        profile: Profile)
    requires profile.network.Some?
    ensures var c' := Ensured(cfg, ca, h, cmd, profile).containers[cmd.runtimeId];
            OrZero(c'.labels.providerGeneration) == cmd.providerGeneration <==>
            (Keeps(cfg, ca, h, cmd, profile) ==>
               OrZero(h.containers[cmd.runtimeId].labels.providerGeneration) == cmd.providerGeneration)
  {
  }

  /** A start under another Provider generation right after the one that created the container
      keeps the container, and with it the generation that is reported. */
  lemma {:induction false} OldGenerationReported(cfg: Config, ca: Option<string>, h: Host, cmd: Command,
                                                 profile: Profile, other: int)
    requires profile.network.Some? && cmd.runtimeId !in h.containers && other != cmd.providerGeneration
    ensures var h' := Ensured(cfg, ca, h, cmd, profile);
            var later := cmd.(providerGeneration := other);
            && Keeps(cfg, ca, h', later, profile)
            && var c := Ensured(cfg, ca, h', later, profile).containers[cmd.runtimeId];
               OrZero(c.labels.providerGeneration) == cmd.providerGeneration != other
  {
    NewIsReusable(cfg, ca, cmd, profile);
  }

  // ----- the Provider itself ---------------------------------------------------------------------

  class Provider {
    const cfg: Config
    var host: Host
    var caDigest: Option<string>

    constructor (cfg: Config, host: Host, caDigest: Option<string>)
      ensures this.cfg == cfg && this.host == host && this.caDigest == caDigest
    {
      this.cfg, this.host, this.caDigest := cfg, host, caDigest;
    }

    method RemoveContainer(id: RuntimeId)
      modifies this`host
      ensures host == WithoutContainer(old(host), id)
    {
      if id in host.containers {
        host := host.(containers := host.containers - {id}, removed := host.removed + 1);
      }
      assert id !in old(host).containers ==> old(host).containers - {id} == old(host).containers;
    }

    method EnsureWorkspaceDirs(id: RuntimeId)
      modifies this`host
      ensures host == WithDirs(old(host), id)
    {
      if id !in host.roots {
        host := host.(roots := host.roots[id := EMPTY_WORKSPACE]);
      }
    }

    method DeleteRuntimeRoot(id: RuntimeId)
      modifies this`host
      ensures host == WithoutRoot(old(host), id)
    {
      host := host.(roots := host.roots - {id});
    }

    /** `caFile` is the digest of the network CA file as it is now, nothing when it cannot be read.
        A profile without a network raises too, but possibly after the old container is gone. */
    method EnsureContainer(cmd: Command, caFile: Option<string>) returns (error: Option<Error>)
      modifies this
      ensures caDigest == if cfg.caPath == None then None
                          else if caFile == None then old(caDigest) else caFile
      ensures cfg.caPath.Some? && caFile == None ==> error == Some(UnreadableCa) && host == old(host)
      ensures (cfg.caPath == None || caFile.Some?) ==>
                match ValidateCommand(cfg, cmd)
                case Err(e) => error == Some(e) && host == old(host)
                case Ok(profile) =>
                  if !ValidId(cmd.runtimeId) then error == Some(InvalidRuntimeId) && host == old(host)
                  else if profile.network.Some?
                  then error == None && host == Ensured(cfg, caDigest, old(host), cmd, profile)
                  else error == Some(UnsupportedConfiguration)
                       && host == (if cmd.runtimeId in old(host).containers
                                      && Matches(cfg, caDigest, old(host).containers[cmd.runtimeId], cmd)
                                   then old(host)
                                   else WithDirs(WithoutContainer(old(host), cmd.runtimeId), cmd.runtimeId))
    {
      if cfg.caPath.Some? && caFile == None {
        return Some(UnreadableCa);
      }
      caDigest := if cfg.caPath == None then None else caFile;
      var validated := ValidateCommand(cfg, cmd);
      if validated.Err? {
        return Some(validated.error);
      }
      var profile := validated.value;
      var id := cmd.runtimeId;
      if !ValidId(id) {
        return Some(InvalidRuntimeId);
      }
      var missing := id !in host.containers;
      if !missing {
        var reusable := Reusable(cfg, caDigest, host.containers[id], cmd, profile);
        if reusable.Err? {
          return Some(reusable.error);
        }
        if !reusable.value {
          RemoveContainer(id);
          missing := true;
        }
      } else {
        assert host.containers - {id} == host.containers;
      }
      EnsureWorkspaceDirs(id);
      if profile.network == None {
        return Some(UnsupportedConfiguration);
      }
      if missing {
        var container := NewContainer(cfg, caDigest, cmd, profile.network.value, profile.resources);
        host := host.(containers := host.containers[id := container], created := host.created + 1);
      }
      host := host.(containers := host.containers[id := host.containers[id].(state := STARTED)]);
      error := None;
    }

    method Start(cmd: Command, caFile: Option<string>) returns (error: Option<Error>)
      modifies this
      ensures OnlyAffects(old(host), host, cmd.runtimeId) && (old(SoleCreator(host)) ==> SoleCreator(host))
      ensures error == None && old(SoleCreator(host)) && cmd.evidence.sequence > 0 ==>
                cmd.runtimeId in host.containers && ConvergedOn(cfg, host.containers[cmd.runtimeId], cmd)
      ensures error == None ==>
                && cmd.profile.Some? && cmd.profile.value.network.Some?
                && host == Ensured(cfg, caDigest, old(host), cmd, cmd.profile.value)
                && cmd.runtimeId in host.containers
                && Settled(cfg, caDigest, old(host), host, cmd, cmd.profile.value)
      ensures error == None <==>
                && (cfg.caPath == None || caFile.Some?) && ValidateCommand(cfg, cmd).Ok?
                && ValidId(cmd.runtimeId) && cmd.profile.Some? && cmd.profile.value.network.Some?
      ensures forall id :: id in old(host).roots ==> id in host.roots && host.roots[id] == old(host).roots[id]
    {
      if ValidateCommand(cfg, cmd).Ok? && cmd.profile.value.network.Some? {
        ConvergesIfSole(cfg, if cfg.caPath == None then None else caFile, host, cmd, cmd.profile.value);
        KeptOrCreated(cfg, if cfg.caPath == None then None else caFile, host, cmd, cmd.profile.value);
      }
      error := EnsureContainer(cmd, caFile);
    }

    method Stop(cmd: Command) returns (error: Option<Error>)
      modifies this`host
      ensures host == if error == None then WithoutContainer(old(host), cmd.runtimeId) else old(host)
      ensures OnlyAffects(old(host), host, cmd.runtimeId) && (old(SoleCreator(host)) ==> SoleCreator(host))
      ensures error == None <==> CleanupValid(cfg, cmd) && ValidId(cmd.runtimeId)
    {
      if !CleanupValid(cfg, cmd) {
        return Some(UnsupportedConfiguration);
      }
      if !ValidId(cmd.runtimeId) {
        return Some(InvalidRuntimeId);
      }
      RemoveContainer(cmd.runtimeId);
      error := None;
    }

    /** Removes the container only if its labels name this Runtime and this Provider. */
    method Restart(cmd: Command) returns (error: Option<Error>)
      modifies this`host
      ensures host == if error == None then WithoutContainer(old(host), cmd.runtimeId) else old(host)
      ensures OnlyAffects(old(host), host, cmd.runtimeId) && (old(SoleCreator(host)) ==> SoleCreator(host))
      ensures error == None <==>
                && ValidateCommand(cfg, cmd).Ok? && ValidId(cmd.runtimeId)
                && (cmd.runtimeId in old(host).containers ==>
                      HasStableLabels(old(host).containers[cmd.runtimeId].labels, cfg, cmd))
    {
      var validated := ValidateCommand(cfg, cmd);
      if validated.Err? {
        return Some(validated.error);
      }
      var id := cmd.runtimeId;
      if !ValidId(id) {
        return Some(InvalidRuntimeId);
      }
      if id !in host.containers {
        assert host.containers - {id} == host.containers;
        return None;
      }
      if !HasStableLabels(host.containers[id].labels, cfg, cmd) {
        return Some(UnsupportedConfiguration);
      }
      RemoveContainer(id);
      error := None;
    }

    /** The workspace is emptied; every other Runtime keeps container and workspace. */
    method Reset(cmd: Command, caFile: Option<string>) returns (error: Option<Error>)
      modifies this
      ensures OnlyAffects(old(host), host, cmd.runtimeId) && (old(SoleCreator(host)) ==> SoleCreator(host))
      ensures error == None ==> cmd.runtimeId in host.roots && host.roots[cmd.runtimeId] == EMPTY_WORKSPACE
      ensures error == None && cmd.resetToRunning == Some(false) ==>
                host == WithDirs(Wiped(old(host), cmd.runtimeId), cmd.runtimeId)
      ensures error == None && cmd.resetToRunning == Some(true) ==>
                && cmd.profile.Some? && cmd.profile.value.network.Some?
                && host == Ensured(cfg, caDigest, Wiped(old(host), cmd.runtimeId), cmd, cmd.profile.value)
                && (old(SoleCreator(host)) && cmd.evidence.sequence > 0 ==>
                      ConvergedOn(cfg, host.containers[cmd.runtimeId], cmd))
      ensures error == None <==>
                && ValidateCommand(cfg, cmd).Ok? && ValidId(cmd.runtimeId) && cmd.resetToRunning.Some?
                && (cmd.resetToRunning.value ==>
                      && (cfg.caPath == None || caFile.Some?) && cmd.profile.Some? && cmd.profile.value.network.Some?)
      ensures ValidateCommand(cfg, cmd).Err? || cmd.resetToRunning == None || !ValidId(cmd.runtimeId) ==>
                host == old(host)
      ensures error.Some? && ValidateCommand(cfg, cmd).Ok? && cmd.resetToRunning.Some? && ValidId(cmd.runtimeId) ==>
                var wiped := Wiped(old(host), cmd.runtimeId);
                if cfg.caPath.Some? && caFile == None then error == Some(UnreadableCa) && host == wiped
                else error == Some(UnsupportedConfiguration) && host == WithDirs(wiped, cmd.runtimeId)
    {
      var validated := ValidateCommand(cfg, cmd);
      if validated.Err? {
        return Some(validated.error);
      }
      if cmd.resetToRunning == None {
        return Some(MissingResetState);
      }
      var id := cmd.runtimeId;
      if !ValidId(id) {
        return Some(InvalidRuntimeId);
      }
      RemoveContainer(id);
      DeleteRuntimeRoot(id);
      if cmd.resetToRunning.value {
        if validated.value.network.Some? {
          ConvergesIfSole(cfg, if cfg.caPath == None then None else caFile, host, cmd, validated.value);
        }
        error := EnsureContainer(cmd, caFile);
      } else {
        EnsureWorkspaceDirs(id);
        error := None;
      }
    }

    method TerminalDelete(cmd: Command) returns (error: Option<Error>)
      modifies this`host
      ensures host == if error == None then Wiped(old(host), cmd.runtimeId) else old(host)
      ensures OnlyAffects(old(host), host, cmd.runtimeId) && (old(SoleCreator(host)) ==> SoleCreator(host))
      ensures error == None <==> CleanupValid(cfg, cmd) && ValidId(cmd.runtimeId)
    {
      if !CleanupValid(cfg, cmd) {
        return Some(UnsupportedConfiguration);
      }
      if !ValidId(cmd.runtimeId) {
        return Some(InvalidRuntimeId);
      }
      RemoveContainer(cmd.runtimeId);
      DeleteRuntimeRoot(cmd.runtimeId);
      error := None;
    }

    /** The scan after a Provider restart: exactly the listed containers with complete evidence. */
    method ObserveKnownRuntimes() returns (reports: seq<Report>, ghost ids: seq<RuntimeId>)
      ensures forall r :: r in reports <==>
                exists id :: && id in host.containers && Listed(cfg, host.containers[id])
                             && ReportFromContainer(host.containers[id]) == Some(r)
      ensures NoDup(ids) && |ids| == |reports|
      ensures forall id :: id in ids <==>
                id in host.containers && Listed(cfg, host.containers[id])
                    && ReportFromContainer(host.containers[id]).Some?
      ensures forall k :: 0 <= k < |ids| ==> Some(reports[k]) == ReportFromContainer(host.containers[ids[k]])
    {
      reports, ids := [], [];
      var left := host.containers.Keys;
      while left != {}
        invariant left <= host.containers.Keys
        invariant NoDup(ids) && |ids| == |reports|
        invariant forall id :: id in ids <==>
                    && id in host.containers && id !in left && Listed(cfg, host.containers[id])
                    && ReportFromContainer(host.containers[id]).Some?
        invariant forall k :: 0 <= k < |ids| ==> Some(reports[k]) == ReportFromContainer(host.containers[ids[k]])
        decreases left
      {
        var id :| id in left;
        var c := host.containers[id];
        if Listed(cfg, c) {
          var report := ReportFromContainer(c);
          if report.Some? {
            assert id !in ids;
            reports, ids := reports + [report.value], ids + [id];
          }
        }
        left := left - {id};
      }
    }
  }

  /** After a successful start the scan reports the command's generation and evidence. */
  method StartThenScan(provider: Provider, cmd: Command, caFile: Option<string>)
    returns (error: Option<Error>, reports: seq<Report>)
    modifies provider
    ensures error == None && old(SoleCreator(provider.host)) && cmd.evidence.sequence > 0 ==>
              exists r :: && r in reports && r.runtimeId == cmd.runtimeId && r.observed == IsRunning
                          && r.desiredGeneration == cmd.desiredGeneration && r.evidence == cmd.evidence
  {
    error := provider.Start(cmd, caFile);
    ghost var ids;
    reports, ids := provider.ObserveKnownRuntimes();
    if error == None && cmd.evidence.sequence > 0 {
      var c := provider.host.containers[cmd.runtimeId];
      assert ReportFromContainer(c).Some? ==> cmd.runtimeId in ids;
    }
  }
}
