/** What the Aiyara provisioner (libmachine/provision/aiyara.go) does, as
    functions of the driver's state and of the outside world. Each step gives
    its error outcome and the events it causes, in order; the class in
    module Aiyara performs the same steps one by one and is proved to match. */
module AiyaraSpec {
  import opened Base
  import opened Ssh
  import opened Drivers
  import Fmt

  /** The outside world the provisioner cannot see into: the exit status of
      each command it runs, what a command prints, and the local files it
      reads. A function of the command, so asking twice gives the same answer. */
  datatype Environment = Environment(
    run: Command -> Outcome,
    stdout: Command -> string,
    readFile: string -> Result<string>)

  /** Everything a provisioning step does that is visible outside the model:
      a command run, a local file read, the driver's password cleared, and
      the two configuration collaborators invoked. */
  datatype Event =
    | Ran(cmd: Command)
    | ReadFile(path: string)
    | PasswordCleared
    | AuthConfigured
    | SwarmConfigured

  /** The outcome of a step and the events it caused, in order. */
  datatype StepRun = StepRun(outcome: Outcome, events: seq<Event>)

  /** Go's `if err := step(); err != nil { return err }`: run `next` only when
      `first` succeeded. */
  function AndThen(first: StepRun, next: StepRun): (r: StepRun)
    ensures first.outcome.Fail? ==> r == first
    ensures first.outcome.Pass? ==> r.outcome == next.outcome && r.events == first.events + next.events
  {
    if first.outcome.Fail? then first else StepRun(next.outcome, first.events + next.events)
  }

  /** Appending the events of a successful first step and then those of the
      next is appending the events of the two together. */
  lemma AppendAndThen(t: seq<Event>, first: StepRun, next: StepRun)
    requires first.outcome.Pass?
    ensures t + AndThen(first, next).events == t + first.events + next.events
  {
  }

  /** A best-effort step: its events happen, its outcome is dropped. */
  function Ignore(s: StepRun): StepRun {
    StepRun(Pass, s.events)
  }

  /** Steps run in order, stopping at the first failure. */
  function Sequence(runs: seq<StepRun>): StepRun
    decreases |runs|
  {
    if |runs| == 0 then StepRun(Pass, []) else AndThen(runs[0], Sequence(runs[1..]))
  }

  function Flatten(runs: seq<StepRun>): seq<Event>
    decreases |runs|
  {
    if |runs| == 0 then [] else runs[0].events + Flatten(runs[1..])
  }

  lemma {:induction false} FlattenSnoc(runs: seq<StepRun>, k: nat)
    requires k < |runs|
    ensures Flatten(runs[..k + 1]) == Flatten(runs[..k]) + runs[k].events
    decreases k
  {
    if k > 0 {
      assert runs[..k + 1][1..] == runs[1..][..k];
      assert runs[..k][1..] == runs[1..][..k - 1];
      FlattenSnoc(runs[1..], k - 1);
    }
  }

  /** A sequence of steps returns the first failure, and the events of the
      steps up to and including the failing one: those of the steps before
      it, then its own; no later step runs. */
  lemma {:induction false} SequenceStopsAtFirstFailure(runs: seq<StepRun>, k: nat)
    requires k < |runs| && runs[k].outcome.Fail?
    requires forall i :: 0 <= i < k ==> runs[i].outcome.Pass?
    ensures Sequence(runs) == StepRun(runs[k].outcome, Flatten(runs[..k + 1]))
    ensures Sequence(runs).events == Flatten(runs[..k]) + runs[k].events
    decreases k
  {
    FlattenSnoc(runs, k);
    if k > 0 {
      SequenceStopsAtFirstFailure(runs[1..], k - 1);
      assert runs[..k + 1][1..] == runs[1..][..k];
    }
  }

  /** When every step succeeds, the sequence succeeds with all their events. */
  lemma {:induction false} SequenceAllPass(runs: seq<StepRun>)
    requires forall i :: 0 <= i < |runs| ==> runs[i].outcome.Pass?
    ensures Sequence(runs) == StepRun(Pass, Flatten(runs))
    decreases |runs|
  {
    if |runs| > 0 {
      SequenceAllPass(runs[1..]);
    }
  }

  // ---------------------------------------------------------------------
  // Remote command lines

  /** `pkgaction.ServiceAction`, restricted to the two actions used here; its
      `String()` is not part of this model and is taken to give the
      lower-case name. */
  datatype ServiceAction = Start | Stop

  function ActionName(a: ServiceAction): string {
    match a
    case Start => "start"
    case Stop => "stop"
  }

  /** The command line of `Service(name, action)`: `service`, the service
      name, then the action's name, separated by single spaces. */
  function ServiceLine(name: string, action: ServiceAction): (line: string)
    ensures |line| == 9 + |name| + |ActionName(action)|
    ensures line[..8] == "service " && line[8..8 + |name|] == name
    ensures line[8 + |name|] == ' ' && line[9 + |name|..] == ActionName(action)
  {
    var suffix := " " + ActionName(action);
    AppendAssoc("service " + name, " ", ActionName(action));
    Wrapped("service ", name, suffix);
    var line := "service " + name + suffix;
    assert line[8 + |name|..] == suffix;
    "service " + name + " " + ActionName(action)
  }

  /** Go's `%q` for a string without characters that need escaping. */
  function Quote(s: string): string {
    "\"" + s + "\""
  }

  /** The compound command of `SetHostname(h)`: set the live host name, then
      write it to /etc/hostname, then append the loopback alias to /etc/hosts. */
  function SetHostnameLine(h: string): (line: string)
    ensures var head := "hostname " + h + " && ";
            var write := "echo " + Quote(h) + " | tee /etc/hostname";
            var tail := " && echo \"127.0.0.1 " + h + "\" | tee -a /etc/hosts";
            |line| == |head| + |write| + |tail|
            && line[..|head|] == head
            && line[|head|..|line| - |tail|] == write
            && line[|line| - |tail|..] == tail
  {
    var head := "hostname " + h + " && ";
    var write := "echo " + Quote(h) + " | tee /etc/hostname";
    var tail := " && echo \"127.0.0.1 " + h + "\" | tee -a /etc/hosts";
    Wrapped(head, write, tail);
    head + write + tail
  }

  const MkdirSSHLine: string := "mkdir ~/.ssh"

  /** The remote command that appends `publicKey`, in double quotes, to
      ~/.ssh/authorized_keys. */
  function AuthorizedKeysLine(publicKey: string): (line: string)
    ensures var head := "echo \"";
            var tail := "\" | tee -a ~/.ssh/authorized_keys";
            |line| == |head| + |publicKey| + |tail|
            && line[..|head|] == head
            && line[|head|..|line| - |tail|] == publicKey
            && line[|line| - |tail|..] == tail
  {
    Wrapped("echo \"", publicKey, "\" | tee -a ~/.ssh/authorized_keys");
    "echo \"" + publicKey + "\" | tee -a ~/.ssh/authorized_keys"
  }

  const CleanupLine: string := "unlink /usr/bin/docker || mkdir -p /opt/docker || unlink /opt/docker/docker"
  const DownloadLine: string :=
    "wget --no-check-certificate -q -O/opt/docker/docker.tar.xz https://dl.dropboxusercontent.com/u/9350284/docker.tar.xz && (cd /opt/docker && tar -xf docker.tar.xz)"
  const LinkLine: string := "chmod +x /opt/docker/docker && ln -s /opt/docker/docker /usr/bin/docker"
  const InitScriptLine: string :=
    "wget --no-check-certificate -q -O/etc/init.d/docker https://dl.dropboxusercontent.com/u/9350284/initd-docker.txt && chmod +x /etc/init.d/docker"
  const DockerVersionLine: string := "docker version"
  const HostnameLine: string := "hostname"

  /** The six commands of `installCustomDocker`, in the order they are issued. */
  const InstallDockerLines: seq<string> := [
    ServiceLine("docker", Stop), CleanupLine, DownloadLine, LinkLine, InitScriptLine, ServiceLine("docker", Start)
  ]

  /** The error `WaitFor` returns when the daemon never answers; its text is
      not part of this model. */
  const WaitTimeout: Error := Error("docker daemon did not respond")

  // ---------------------------------------------------------------------
  // Steps

  /** `provisioner.SSHCommand(line)`: a command built for `line` carries it as
      the only remote token and uses the credential the driver calls for. */
  function BuildCommand(d: Driver, debug: string, line: string): (r: Result<Command>)
    ensures r.Ok? ==> RemoteArgs(r.value) == [line] && ModeOf(r.value) == ExpectedMode(d)
  {
    GetSSHCommandFromDriver(d, [line], debug)
  }

  /** Build a command and run it; a failure of either is the step's error. */
  function RunLine(d: Driver, env: Environment, debug: string, line: string): (r: StepRun)
    ensures BuildError(d).Some? ==> r == StepRun(Fail(BuildError(d).value), [])
    ensures BuildError(d).None? ==>
              |r.events| == 1 && r.events[0].Ran? && RemoteArgs(r.events[0].cmd) == [line]
              && r.outcome == env.run(r.events[0].cmd)
    ensures BuildError(d).None? ==> r.events == [Ran(BuildCommand(d, debug, line).value)]
  {
    BuildFailsUniformly(d, [line], debug);
    match BuildCommand(d, debug, line)
    case Err(e) => StepRun(Fail(e), [])
    case Ok(c) => StepRun(env.run(c), [Ran(c)])
  }

  /** Build a command and run it, returning a failure to build but ignoring
      the command's own failure. */
  function BestEffortLine(d: Driver, env: Environment, debug: string, line: string): (r: StepRun)
    ensures BuildError(d).Some? ==> r == StepRun(Fail(BuildError(d).value), [])
    ensures BuildError(d).None? ==>
              r.outcome.Pass? && |r.events| == 1 && r.events[0].Ran? && RemoteArgs(r.events[0].cmd) == [line]
    ensures BuildError(d).None? ==> r.events == [Ran(BuildCommand(d, debug, line).value)]
  {
    BuildFailsUniformly(d, [line], debug);
    match BuildCommand(d, debug, line)
    case Err(e) => StepRun(Fail(e), [])
    case Ok(c) => StepRun(Pass, [Ran(c)])
  }

  /** `Service(name, action)`. */
  function ServiceRun(d: Driver, env: Environment, debug: string, name: string, action: ServiceAction): StepRun {
    RunLine(d, env, debug, ServiceLine(name, action))
  }

  /** `SetHostname(h)`: one compound command, whose result is the step's. */
  function SetHostnameRun(d: Driver, env: Environment, debug: string, h: string): StepRun {
    RunLine(d, env, debug, SetHostnameLine(h))
  }

  /** `installPublicKey`: make ~/.ssh (its failure ignored), read the local
      public key, append it to the remote authorized_keys. */
  function InstallPublicKeyRun(d: Driver, env: Environment, debug: string): StepRun {
    var path := d.keyPath + ".pub";
    AndThen(BestEffortLine(d, env, debug, MkdirSSHLine),
      match env.readFile(path)
      case Err(e) => StepRun(Fail(e), [ReadFile(path)])
      case Ok(publicKey) =>
        AndThen(StepRun(Pass, [ReadFile(path)]), RunLine(d, env, debug, AuthorizedKeysLine(publicKey))))
  }

  /** `installCustomDocker`: stop (ignored), clean up (run failure ignored),
      download, link, install the init script (each fatal), start (ignored). */
  function InstallCustomDockerRun(d: Driver, env: Environment, debug: string): StepRun {
    AndThen(Ignore(ServiceRun(d, env, debug, "docker", Stop)),
    AndThen(BestEffortLine(d, env, debug, CleanupLine),
            InstallDockerFilesRun(d, env, debug)))
  }

  /** The fatal part of `installCustomDocker` and the final start. */
  function InstallDockerFilesRun(d: Driver, env: Environment, debug: string): StepRun {
    AndThen(RunLine(d, env, debug, DownloadLine),
    AndThen(RunLine(d, env, debug, LinkLine),
    AndThen(RunLine(d, env, debug, InitScriptLine),
            Ignore(ServiceRun(d, env, debug, "docker", Start)))))
  }

  /** The answer of a readiness probe and the events it caused. */
  datatype Probe = Probe(responding: bool, events: seq<Event>)

  /** `dockerDaemonResponding`: the daemon is up when `docker version` can be
      built and runs cleanly. */
  function DockerDaemonResponding(d: Driver, env: Environment, debug: string): (p: Probe)
    ensures p.responding <==>
              BuildCommand(d, debug, DockerVersionLine).Ok?
              && env.run(BuildCommand(d, debug, DockerVersionLine).value).Pass?
    ensures p.events == (if BuildCommand(d, debug, DockerVersionLine).Ok?
                         then [Ran(BuildCommand(d, debug, DockerVersionLine).value)] else [])
  {
    match BuildCommand(d, debug, DockerVersionLine)
    case Err(_) => Probe(false, [])
    case Ok(c) => Probe(env.run(c).Pass?, [Ran(c)])
  }

  /** `utils.WaitFor(dockerDaemonResponding)`, as one probe: one probe stands
      for `utils.WaitFor`'s polling, which this model leaves out. */
  function WaitForDockerRun(d: Driver, env: Environment, debug: string): (r: StepRun)
    ensures r.outcome.Pass? <==> DockerDaemonResponding(d, env, debug).responding
    ensures r.outcome.Fail? ==> r.outcome.error == WaitTimeout
  {
    var probe := DockerDaemonResponding(d, env, debug);
    StepRun(if probe.responding then Pass else Fail(WaitTimeout), probe.events)
  }

  /** The driver once `ClearSSHPasswd` has been called when the driver has it. */
  function ClearedDriver(d: Driver): Driver {
    if d.canClearPasswd then ClearSSHPasswd(d) else d
  }

  function ClearPasswordRun(d: Driver): StepRun {
    StepRun(Pass, if d.canClearPasswd then [PasswordCleared] else [])
  }

  /** The seven phases of `Provision`, in order. The password is cleared
      between the public key and the docker installation, so the phases after
      it build their commands from the cleared driver. This list and the
      nested `ProvisionRun` are two descriptions of the same run; the lemma
      `ProvisionRunIsSequence` proves them equal. */
  function ProvisionPhases(d: Driver, env: Environment, debug: string,
                           authOutcome: Outcome, swarmOutcome: Outcome): (ps: seq<StepRun>)
    ensures |ps| == 7
  {
    var cleared := ClearedDriver(d);
    [ SetHostnameRun(d, env, debug, d.machineName),
      InstallPublicKeyRun(d, env, debug),
      ClearPasswordRun(d),
      InstallCustomDockerRun(cleared, env, debug),
      WaitForDockerRun(cleared, env, debug),
      StepRun(authOutcome, [AuthConfigured]),
      StepRun(swarmOutcome, [SwarmConfigured]) ]
  }

  /** `Provision`. `authOutcome` and `swarmOutcome` are what `ConfigureAuth`
      and `configureSwarm` return; their code is not part of this model. */
  function ProvisionRun(d: Driver, env: Environment, debug: string,
                        authOutcome: Outcome, swarmOutcome: Outcome): StepRun {
    var cleared := ClearedDriver(d);
    AndThen(SetHostnameRun(d, env, debug, d.machineName),
    AndThen(InstallPublicKeyRun(d, env, debug),
    AndThen(ClearPasswordRun(d),
            ProvisionTail(cleared, env, debug, authOutcome, swarmOutcome))))
  }

  /** The phases after the password has been cleared. */
  function ProvisionTail(d: Driver, env: Environment, debug: string,
                         authOutcome: Outcome, swarmOutcome: Outcome): StepRun {
    AndThen(InstallCustomDockerRun(d, env, debug),
    AndThen(WaitForDockerRun(d, env, debug),
    AndThen(StepRun(authOutcome, [AuthConfigured]),
            StepRun(swarmOutcome, [SwarmConfigured]))))
  }

  /** The driver at the end of `Provision`: cleared exactly when the run got
      past the public key and the driver can clear its password. */
  function ProvisionedDriver(d: Driver, env: Environment, debug: string): Driver {
    if SetHostnameRun(d, env, debug, d.machineName).outcome.Pass?
       && InstallPublicKeyRun(d, env, debug).outcome.Pass?
    then ClearedDriver(d)
    else d
  }

  /** `Hostname()`: the output of the remote `hostname` command. */
  function HostnameResult(d: Driver, env: Environment, debug: string): (r: Result<string>)
    ensures r.Ok? <==> BuildCommand(d, debug, HostnameLine).Ok?
                       && env.run(BuildCommand(d, debug, HostnameLine).value).Pass?
    ensures r.Ok? ==> r.value == env.stdout(BuildCommand(d, debug, HostnameLine).value)
    ensures r.Err? ==> r.error == (if BuildCommand(d, debug, HostnameLine).Err?
                                   then BuildCommand(d, debug, HostnameLine).error
                                   else env.run(BuildCommand(d, debug, HostnameLine).value).error)
  {
    match BuildCommand(d, debug, HostnameLine)
    case Err(e) => Err(e)
    case Ok(c) =>
      match env.run(c)
      case Fail(e) => Err(e)
      case Pass => Ok(env.stdout(c))
  }

  function HostnameEvents(d: Driver, debug: string): seq<Event> {
    match BuildCommand(d, debug, HostnameLine)
    case Err(_) => []
    case Ok(c) => [Ran(c)]
  }

  // ---------------------------------------------------------------------
  // Docker options

  /** `DockerOptions`: the engine configuration line and the file it goes to. */
  datatype DockerOptions = DockerOptions(engineOptions: string, engineOptionsPath: string)

  const EngineOptionsPath: string := "/etc/default/docker"
  /** The start of the engine configuration line, up to the opening quote. */
  const EngineOptionsPrefix: string := "export DOCKER_OPTS=\\\""
  /** The end of the engine configuration line: the architecture label and
      the closing quote. */
  const EngineOptionsSuffix: string := " " + ArchitectureLabel + "\\\""

  /** The label that marks the engine as running on ARM. */
  const ArchitectureLabel: string := "--label=architecture=" + "arm"

  function DaemonHostOptions(dockerPort: int): string {
    "--host=unix:///var/run/docker.sock --host=tcp://0.0.0.0:" + Fmt.FormatInt(dockerPort)
  }

  lemma AppendAssoc(a: string, b: string, c: string)
    ensures a + b + c == a + (b + c)
  {
  }

  /** `pre + mid + suf` starts with `pre`, ends with `suf`, and holds `mid`
      in between. */
  lemma Wrapped(pre: string, mid: string, suf: string)
    ensures var w := pre + mid + suf;
            |w| == |pre| + |mid| + |suf| && w[..|pre|] == pre && w[|w| - |suf|..] == suf
            && w[|pre|..|w| - |suf|] == mid
  {
    var w := pre + mid + suf;
    assert w[..|pre|] == pre;
    assert w[|w| - |suf|..] == suf;
    assert w[|pre|..|w| - |suf|] == mid;
  }

  /** `GenerateDockerOptions`. `defaultDaemonOpts` is what
      `getDefaultDaemonOpts` gives for the driver; that function is not part
      of this model. It never fails, and its line wraps the default options
      and the host options, in that order, in the `DOCKER_OPTS` export that
      ends with the architecture label. */
  function GenerateDockerOptions(defaultDaemonOpts: string, dockerPort: int): (r: Result<DockerOptions>)
    ensures r.Ok? && r.value.engineOptionsPath == EngineOptionsPath
    ensures var e := r.value.engineOptions;
            var mid := defaultDaemonOpts + " " + DaemonHostOptions(dockerPort);
            |e| == |EngineOptionsPrefix| + |mid| + |EngineOptionsSuffix|
            && e[..|EngineOptionsPrefix|] == EngineOptionsPrefix
            && e[|e| - |EngineOptionsSuffix|..] == EngineOptionsSuffix
            && e[|EngineOptionsPrefix|..|e| - |EngineOptionsSuffix|] == mid
  {
    var aiyaraOpts := ArchitectureLabel;
    var daemonOpts := DaemonHostOptions(dockerPort);
    var opts := defaultDaemonOpts + " " + daemonOpts + " " + aiyaraOpts;
    var line := EngineOptionsPrefix + opts + "\\\"";
    var mid := defaultDaemonOpts + " " + daemonOpts;
    assert opts + "\\\"" == mid + (" " + aiyaraOpts + "\\\"") by {
      AppendAssoc(mid + " ", aiyaraOpts, "\\\"");
      AppendAssoc(mid, " ", aiyaraOpts + "\\\"");
      AppendAssoc(" ", aiyaraOpts, "\\\"");
    }
    AppendAssoc(EngineOptionsPrefix, opts, "\\\"");
    Wrapped(EngineOptionsPrefix, mid, EngineOptionsSuffix);
    Ok(DockerOptions(line, "/etc/default/docker"))
  }
}
