/** The Aiyara provisioner (libmachine/provision/aiyara.go) as an object that
    runs remote commands one at a time. Its `trace` records, in order, what it
    did to the outside world; every method is proved to do exactly what the
    matching function of module AiyaraSpec describes. */
module Aiyara {
  import opened Base
  import opened Ssh
  import opened Drivers
  import opened AiyaraSpec

  /** The parts of an `/etc/os-release` description this provisioner reads. */
  datatype OsRelease = OsRelease(id: string)

  /** The distributions `CompatibleWithHost` accepts. */
  const SupportedDistributions: set<string> := {"ubuntu", "debian", "aiyara"}

  class AiyaraProvisioner {
    var driver: Driver
    var osReleaseInfo: Option<OsRelease>
    /** What the provisioner has done to the outside world so far. */
    var trace: seq<Event>
    /** The answers of the outside world: command exit statuses, outputs, files. */
    const env: Environment
    /** The value of the DEBUG environment variable. */
    const debug: string

    /** `NewAiyaraProvisioner(d)`. */
    constructor (d: Driver, env: Environment, debug: string)
      ensures driver == d && osReleaseInfo == None && trace == []
      ensures this.env == env && this.debug == debug
    {
      driver := d;
      osReleaseInfo := None;
      trace := [];
      this.env := env;
      this.debug := debug;
    }

    /** `SSHCommand`: every command goes through the driver-level resolver, on
        the driver as it is now. */
    method SSHCommand(line: string) returns (r: Result<Command>)
      ensures r.Ok? ==> ModeOf(r.value) == ExpectedMode(driver) && RemoteArgs(r.value) == [line]
      ensures r.Err? <==> BuildError(driver).Some?
      ensures r == BuildCommand(driver, debug, line)
    {
      BuildFailsUniformly(driver, [line], debug);
      r := GetSSHCommandFromDriver(driver, [line], debug);
    }

    /** `cmd.Run()`. */
    method Run(c: Command) returns (o: Outcome)
      modifies this`trace
      ensures o == env.run(c) && trace == old(trace) + [Ran(c)]
    {
      o := env.run(c);
      trace := trace + [Ran(c)];
    }

    /** Builds and runs one command; either failure is returned. */
    method RunLine(line: string) returns (o: Outcome)
      modifies this`trace
      ensures var s := AiyaraSpec.RunLine(driver, env, debug, line);
              o == s.outcome && trace == old(trace) + s.events
    {
      var r := SSHCommand(line);
      match r
      case Err(e) =>
        o := Fail(e);
      case Ok(c) =>
        o := Run(c);
    }

    /** `Service(name, action)`. */
    method Service(name: string, action: ServiceAction) returns (o: Outcome)
      modifies this`trace
      ensures var s := ServiceRun(driver, env, debug, name, action);
              o == s.outcome && trace == old(trace) + s.events
    {
      o := RunLine(ServiceLine(name, action));
    }

    /** `Package`: does nothing and succeeds. */
    method Package(name: string) returns (o: Outcome)
      ensures o == Pass
    {
      o := Pass;
    }

    /** `dockerDaemonResponding`. */
    method DockerDaemonResponding() returns (up: bool)
      modifies this`trace
      ensures var p := AiyaraSpec.DockerDaemonResponding(driver, env, debug);
              up == p.responding && trace == old(trace) + p.events
    {
      var r := SSHCommand(DockerVersionLine);
      match r
      case Err(_) =>
        up := false;
      case Ok(c) =>
        var o := Run(c);
        up := o.Pass?;
    }

    /** `installPublicKey`. */
    method InstallPublicKey() returns (o: Outcome)
      modifies this`trace
      ensures var s := InstallPublicKeyRun(driver, env, debug);
              o == s.outcome && trace == old(trace) + s.events
    {
      var mkdir := SSHCommand(MkdirSSHLine);
      if mkdir.Err? {
        return Fail(mkdir.error);
      }
      var _ := Run(mkdir.value);  // its failure is ignored
      var path := driver.keyPath + ".pub";
      var publicKey := env.readFile(path);
      trace := trace + [ReadFile(path)];
      if publicKey.Err? {
        return Fail(publicKey.error);
      }
      o := RunLine(AuthorizedKeysLine(publicKey.value));
    }

    /** `installCustomDocker`. */
    method InstallCustomDocker() returns (o: Outcome)
      modifies this`trace
      ensures var s := InstallCustomDockerRun(driver, env, debug);
              o == s.outcome && trace == old(trace) + s.events
    {
      ghost var t0 := trace;
      ghost var stop := Ignore(ServiceRun(driver, env, debug, "docker", Stop));
      ghost var cleanupRun := BestEffortLine(driver, env, debug, CleanupLine);
      ghost var files := InstallDockerFilesRun(driver, env, debug);
      var _ := Service("docker", Stop);  // an old daemon may not be running
      AppendAndThen(t0, stop, AndThen(cleanupRun, files));
      var cleanup := SSHCommand(CleanupLine);
      if cleanup.Err? {
        return Fail(cleanup.error);
      }
      var _ := Run(cleanup.value);  // its failure is ignored
      AppendAndThen(t0 + stop.events, cleanupRun, files);
      o := InstallDockerFiles();
    }

    /** Download, link, install the init script, each fatal; then start. */
    method InstallDockerFiles() returns (o: Outcome)
      modifies this`trace
      ensures var s := InstallDockerFilesRun(driver, env, debug);
              o == s.outcome && trace == old(trace) + s.events
    {
      ghost var t0 := trace;
      ghost var download := AiyaraSpec.RunLine(driver, env, debug, DownloadLine);
      ghost var link := AiyaraSpec.RunLine(driver, env, debug, LinkLine);
      ghost var init := AiyaraSpec.RunLine(driver, env, debug, InitScriptLine);
      ghost var start := Ignore(ServiceRun(driver, env, debug, "docker", Start));
      o := RunLine(DownloadLine);
      if o.Fail? {
        return;
      }
      AppendAndThen(t0, download, AndThen(link, AndThen(init, start)));
      o := RunLine(LinkLine);
      if o.Fail? {
        return;
      }
      AppendAndThen(t0 + download.events, link, AndThen(init, start));
      o := RunLine(InitScriptLine);
      if o.Fail? {
        return;
      }
      AppendAndThen(t0 + download.events + link.events, init, start);
      var _ := Service("docker", Start);  // failures show up in the readiness wait
      o := Pass;
    }

    /** `SetHostname(h)`. */
    method SetHostname(h: string) returns (o: Outcome)
      modifies this`trace
      ensures var s := SetHostnameRun(driver, env, debug, h);
              o == s.outcome && trace == old(trace) + s.events
    {
      o := RunLine(SetHostnameLine(h));
    }

    /** `Hostname()`: asks the remote machine, every time. */
    method Hostname() returns (r: Result<string>)
      modifies this`trace
      ensures r == HostnameResult(driver, env, debug)
      ensures trace == old(trace) + HostnameEvents(driver, debug)
    {
      var c := SSHCommand(HostnameLine);
      if c.Err? {
        return Err(c.error);
      }
      var o := Run(c.value);
      if o.Fail? {
        return Err(o.error);
      }
      r := Ok(env.stdout(c.value));
    }

    /** `Provision`. `authOutcome` and `swarmOutcome` stand for what
        `ConfigureAuth` and `configureSwarm` return. */
    method Provision(authOutcome: Outcome, swarmOutcome: Outcome) returns (o: Outcome)
      modifies this`trace, this`driver
      ensures var s := ProvisionRun(old(driver), env, debug, authOutcome, swarmOutcome);
              o == s.outcome && trace == old(trace) + s.events
      ensures driver == ProvisionedDriver(old(driver), env, debug)
    {
      ghost var d0, t0 := driver, trace;
      ghost var sh := SetHostnameRun(d0, env, debug, d0.machineName);
      ghost var pk := InstallPublicKeyRun(d0, env, debug);
      ghost var cl := ClearPasswordRun(d0);
      ghost var tail := ProvisionTail(ClearedDriver(d0), env, debug, authOutcome, swarmOutcome);
      assert ProvisionRun(d0, env, debug, authOutcome, swarmOutcome) == AndThen(sh, AndThen(pk, AndThen(cl, tail)));
      o := SetHostname(driver.machineName);
      if o.Fail? {
        return;
      }
      AppendAndThen(t0, sh, AndThen(pk, AndThen(cl, tail)));
      o := InstallPublicKey();
      if o.Fail? {
        return;
      }
      AppendAndThen(t0 + sh.events, pk, AndThen(cl, tail));
      if driver.canClearPasswd {
        driver := ClearSSHPasswd(driver);
        trace := trace + [PasswordCleared];
      }
      assert trace == t0 + sh.events + pk.events + cl.events;
      AppendAndThen(t0 + sh.events + pk.events, cl, tail);
      assert driver == ClearedDriver(d0);
      o := ProvisionRemaining(authOutcome, swarmOutcome);
    }

    /** The phases of `Provision` after the password clear. */
    method ProvisionRemaining(authOutcome: Outcome, swarmOutcome: Outcome) returns (o: Outcome)
      modifies this`trace
      ensures var s := ProvisionTail(driver, env, debug, authOutcome, swarmOutcome);
              o == s.outcome && trace == old(trace) + s.events
    {
      ghost var t0 := trace;
      ghost var icd := InstallCustomDockerRun(driver, env, debug);
      ghost var wait := WaitForDockerRun(driver, env, debug);
      ghost var auth := StepRun(authOutcome, [AuthConfigured]);
      ghost var swarm := StepRun(swarmOutcome, [SwarmConfigured]);
      o := InstallCustomDocker();
      if o.Fail? {
        return;
      }
      AppendAndThen(t0, icd, AndThen(wait, AndThen(auth, swarm)));
      var up := DockerDaemonResponding();
      if !up {
        return Fail(WaitTimeout);
      }
      AppendAndThen(t0 + icd.events, wait, AndThen(auth, swarm));
      trace := trace + [AuthConfigured];
      if authOutcome.Fail? {
        return authOutcome;
      }
      AppendAndThen(t0 + icd.events + wait.events, auth, swarm);
      trace := trace + [SwarmConfigured];
      o := swarmOutcome;
    }

    /** `GetDockerOptionsDir`. */
    function GetDockerOptionsDir(): (dir: string)
      ensures dir == "/etc/docker"
    {
      "/etc/docker"
    }

    /** `CompatibleWithHost`. The Go code dereferences `OsReleaseInfo`, so it
        must have been set. */
    function CompatibleWithHost(): (ok: bool)
      reads this
      requires osReleaseInfo.Some?
      ensures ok <==> osReleaseInfo.value.id in SupportedDistributions
    {
      var id := osReleaseInfo.value.id;
      id == "ubuntu" || id == "debian" || id == "aiyara"
    }

    /** `SetOsReleaseInfo`: Go's nil `*OsRelease` is `None`. */
    method SetOsReleaseInfo(info: Option<OsRelease>)
      modifies this`osReleaseInfo
      ensures osReleaseInfo == info
    {
      osReleaseInfo := info;
    }
  }
}
