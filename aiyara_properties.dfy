/** Properties of the Aiyara provisioning steps: their order, where they stop,
    which failures they swallow, and the switch from password to key
    authentication in the middle of `Provision`. */
module AiyaraProperties {
  import opened Base
  import opened Ssh
  import opened Drivers
  import opened AiyaraSpec
  import Libmachine
  import Fmt

  /** Every command in `evs` authenticates with `m`. */
  ghost predicate RanInMode(evs: seq<Event>, m: AuthMode) {
    forall j :: 0 <= j < |evs| && evs[j].Ran? ==> ModeOf(evs[j].cmd) == m
  }

  /** Every command issued after the password was cleared is key-based. */
  ghost predicate KeyModeAfterClear(evs: seq<Event>) {
    forall i, j :: 0 <= i < j < |evs| && evs[i] == PasswordCleared && evs[j].Ran? ==>
      ModeOf(evs[j].cmd) == KeyMode
  }

  // ---------------------------------------------------------------------
  // Single steps

  /** `SetHostname` is one remote command and returns that command's result;
      a driver whose metadata cannot be read fails it before anything runs. */
  lemma SetHostnameSingleCommand(d: Driver, env: Environment, debug: string, h: string)
    ensures var r := SetHostnameRun(d, env, debug, h);
            (BuildError(d).Some? ==> r == StepRun(Fail(BuildError(d).value), []))
            && (BuildError(d).None? ==>
                  |r.events| == 1 && r.events[0].Ran?
                  && RemoteArgs(r.events[0].cmd) == [SetHostnameLine(h)]
                  && r.outcome == env.run(r.events[0].cmd))
  {
  }

  /** `installPublicKey`: the mkdir command, then the key file read, then the
      append; the mkdir result never matters, a missing key file stops the
      step before the append, and otherwise the append decides. */
  lemma InstallPublicKeyOrder(d: Driver, env: Environment, debug: string)
    requires BuildError(d).None?
    ensures var r := InstallPublicKeyRun(d, env, debug);
            var path := d.keyPath + ".pub";
            |r.events| >= 2 && r.events[0].Ran? && RemoteArgs(r.events[0].cmd) == [MkdirSSHLine]
            && r.events[1] == ReadFile(path)
            && (env.readFile(path).Err? ==> |r.events| == 2 && r.outcome == Fail(env.readFile(path).error))
            && (env.readFile(path).Ok? ==>
                  |r.events| == 3 && r.events[2].Ran?
                  && RemoteArgs(r.events[2].cmd) == [AuthorizedKeysLine(env.readFile(path).value)]
                  && r.outcome == env.run(r.events[2].cmd))
  {
    var path := d.keyPath + ".pub";
    var mk := BestEffortLine(d, env, debug, MkdirSSHLine);
    if env.readFile(path).Ok? {
      var app := RunLine(d, env, debug, AuthorizedKeysLine(env.readFile(path).value));
      assert InstallPublicKeyRun(d, env, debug).events == mk.events + ([ReadFile(path)] + app.events);
    }
  }

  /** A failure to build the mkdir command is the step's error. */
  lemma InstallPublicKeyBuildFailure(d: Driver, env: Environment, debug: string)
    requires BuildError(d).Some?
    ensures InstallPublicKeyRun(d, env, debug) == StepRun(Fail(BuildError(d).value), [])
  {
  }

  /** `s` ran exactly one command, carrying the remote command `line`. */
  ghost predicate OneCommand(s: StepRun, line: string) {
    |s.events| == 1 && s.events[0].Ran? && RemoteArgs(s.events[0].cmd) == [line]
  }

  /** The shape of `installCustomDocker` for any six one-command steps whose
      cleanup ignores its result and whose download, link and init-script
      steps return their command's result: of those three, each command
      issued fails exactly when it is the last one issued. */
  lemma {:induction false} InstallDockerShape(stop: StepRun, clean: StepRun, dl: StepRun, ln: StepRun,
                                              init: StepRun, start: StepRun, run: Command -> Outcome,
                                              lines: seq<string>)
    requires |lines| == 6
    requires OneCommand(stop, lines[0]) && OneCommand(clean, lines[1])
    requires OneCommand(dl, lines[2]) && OneCommand(ln, lines[3])
    requires OneCommand(init, lines[4]) && OneCommand(start, lines[5])
    requires clean.outcome.Pass?
    requires dl.outcome == run(dl.events[0].cmd) && ln.outcome == run(ln.events[0].cmd)
    requires init.outcome == run(init.events[0].cmd)
    ensures var r := AndThen(Ignore(stop), AndThen(clean, AndThen(dl, AndThen(ln, AndThen(init, Ignore(start))))));
            3 <= |r.events| <= 6
            && (forall i :: 0 <= i < |r.events| ==>
                  r.events[i].Ran? && RemoteArgs(r.events[i].cmd) == [lines[i]])
            && (r.outcome.Pass? <==> |r.events| == 6)
            && (r.outcome.Fail? ==> r.outcome == run(r.events[|r.events| - 1].cmd))
            && (forall i :: 2 <= i < |r.events| && i < 5 ==>
                  (run(r.events[i].cmd).Fail? <==> i == |r.events| - 1))
  {
    var r := AndThen(Ignore(stop), AndThen(clean, AndThen(dl, AndThen(ln, AndThen(init, Ignore(start))))));
    var before := stop.events + clean.events;
    if dl.outcome.Fail? {
      assert r.events == before + dl.events;
    } else if ln.outcome.Fail? {
      assert r.events == before + dl.events + ln.events;
    } else if init.outcome.Fail? {
      assert r.events == before + dl.events + ln.events + init.events;
    } else {
      assert r.events == before + dl.events + ln.events + init.events + start.events;
    }
  }

  /** `installCustomDocker` issues a prefix of its six commands, in order: the
      stop, the cleanup and the download always, and it stops right after the
      first of download, link and init-script install that fails, returning
      that command's error: a download, link or init-script command fails
      exactly when it is the last one issued. The stop, cleanup and start
      results never decide the outcome. */
  lemma InstallDockerCommands(d: Driver, env: Environment, debug: string)
    requires BuildError(d).None?
    ensures var r := InstallCustomDockerRun(d, env, debug);
            3 <= |r.events| <= 6
            && (forall i :: 0 <= i < |r.events| ==>
                  r.events[i].Ran? && RemoteArgs(r.events[i].cmd) == [InstallDockerLines[i]])
            && (r.outcome.Pass? <==> |r.events| == 6)
            && (r.outcome.Fail? ==> r.outcome == env.run(r.events[|r.events| - 1].cmd))
            && (forall i :: 2 <= i < |r.events| && i < 5 ==>
                  (env.run(r.events[i].cmd).Fail? <==> i == |r.events| - 1))
  {
    InstallDockerShape(ServiceRun(d, env, debug, "docker", Stop), BestEffortLine(d, env, debug, CleanupLine),
                       RunLine(d, env, debug, DownloadLine), RunLine(d, env, debug, LinkLine),
                       RunLine(d, env, debug, InitScriptLine), ServiceRun(d, env, debug, "docker", Start), env.run,
                       InstallDockerLines);
  }

  /** With unreadable driver metadata the stop is skipped silently and the
      failure to build the cleanup command is returned; nothing runs. */
  lemma InstallDockerBuildFailure(d: Driver, env: Environment, debug: string)
    requires BuildError(d).Some?
    ensures InstallCustomDockerRun(d, env, debug) == StepRun(Fail(BuildError(d).value), [])
  {
  }

  // ---------------------------------------------------------------------
  // Provision

  /** Seven steps run in order are the steps chained with `AndThen`. */
  lemma {:induction false} SequenceOfSeven(ps: seq<StepRun>)
    requires |ps| == 7
    ensures Sequence(ps) == AndThen(ps[0], AndThen(ps[1], AndThen(ps[2],
                            AndThen(ps[3], AndThen(ps[4], AndThen(ps[5], ps[6]))))))
  {
    assert Sequence(ps[6..]) == ps[6] by {
      assert ps[6..][1..] == [];
      assert ps[6].events + [] == ps[6].events;
    }
    assert Sequence(ps[5..]) == AndThen(ps[5], ps[6]) by {
      assert ps[5..][1..] == ps[6..];
    }
    assert Sequence(ps[4..]) == AndThen(ps[4], Sequence(ps[5..])) by {
      assert ps[4..][1..] == ps[5..];
    }
    assert Sequence(ps[3..]) == AndThen(ps[3], Sequence(ps[4..])) by {
      assert ps[3..][1..] == ps[4..];
    }
    assert Sequence(ps[2..]) == AndThen(ps[2], Sequence(ps[3..])) by {
      assert ps[2..][1..] == ps[3..];
    }
    assert Sequence(ps[1..]) == AndThen(ps[1], Sequence(ps[2..])) by {
      assert ps[1..][1..] == ps[2..];
    }
  }

  lemma ProvisionRunIsSequence(d: Driver, env: Environment, debug: string, authOutcome: Outcome, swarmOutcome: Outcome)
    ensures ProvisionRun(d, env, debug, authOutcome, swarmOutcome)
            == Sequence(ProvisionPhases(d, env, debug, authOutcome, swarmOutcome))
  {
    SequenceOfSeven(ProvisionPhases(d, env, debug, authOutcome, swarmOutcome));
  }

  /** `Provision` returns the first error of its seven phases, after the
      events of the phases up to and including the failing one; no later
      phase runs. */
  lemma ProvisionStopsAtFirstFailure(d: Driver, env: Environment, debug: string,
                                     authOutcome: Outcome, swarmOutcome: Outcome, k: nat)
    requires k < 7
    requires ProvisionPhases(d, env, debug, authOutcome, swarmOutcome)[k].outcome.Fail?
    requires forall i :: 0 <= i < k ==> ProvisionPhases(d, env, debug, authOutcome, swarmOutcome)[i].outcome.Pass?
    ensures var ps := ProvisionPhases(d, env, debug, authOutcome, swarmOutcome);
            ProvisionRun(d, env, debug, authOutcome, swarmOutcome) == StepRun(ps[k].outcome, Flatten(ps[..k + 1]))
  {
    ProvisionRunIsSequence(d, env, debug, authOutcome, swarmOutcome);
    SequenceStopsAtFirstFailure(ProvisionPhases(d, env, debug, authOutcome, swarmOutcome), k);
  }

  /** When all seven phases succeed, `Provision` succeeds having done all of
      them, in order. */
  lemma ProvisionSucceeds(d: Driver, env: Environment, debug: string, authOutcome: Outcome, swarmOutcome: Outcome)
    requires forall i :: 0 <= i < 7 ==> ProvisionPhases(d, env, debug, authOutcome, swarmOutcome)[i].outcome.Pass?
    ensures ProvisionRun(d, env, debug, authOutcome, swarmOutcome)
            == StepRun(Pass, Flatten(ProvisionPhases(d, env, debug, authOutcome, swarmOutcome)))
  {
    ProvisionRunIsSequence(d, env, debug, authOutcome, swarmOutcome);
    SequenceAllPass(ProvisionPhases(d, env, debug, authOutcome, swarmOutcome));
  }

  /** A driver whose metadata cannot be read fails `Provision` at its first
      command, with that error, before anything runs. */
  lemma ProvisionUnreadableMetadata(d: Driver, env: Environment, debug: string, authOutcome: Outcome, swarmOutcome: Outcome)
    requires BuildError(d).Some?
    ensures ProvisionRun(d, env, debug, authOutcome, swarmOutcome) == StepRun(Fail(BuildError(d).value), [])
  {
  }

  lemma {:induction false} RanInModeConcat(a: seq<Event>, b: seq<Event>, m: AuthMode)
    requires RanInMode(a, m) && RanInMode(b, m)
    ensures RanInMode(a + b, m)
  {
    forall j | 0 <= j < |a + b| && (a + b)[j].Ran?
      ensures ModeOf((a + b)[j].cmd) == m
    {
      if j >= |a| {
        assert (a + b)[j] == b[j - |a|];
      }
    }
  }

  lemma RunLineMode(d: Driver, env: Environment, debug: string, line: string)
    ensures RanInMode(RunLine(d, env, debug, line).events, ExpectedMode(d))
    ensures RanInMode(BestEffortLine(d, env, debug, line).events, ExpectedMode(d))
    ensures PasswordCleared !in RunLine(d, env, debug, line).events
    ensures PasswordCleared !in BestEffortLine(d, env, debug, line).events
  {
  }

  /** Sequencing keeps "every command authenticates with `m`" and "the
      password is not cleared here". */
  lemma AndThenKeeps(a: StepRun, b: StepRun, m: AuthMode)
    requires RanInMode(a.events, m) && RanInMode(b.events, m)
    requires PasswordCleared !in a.events && PasswordCleared !in b.events
    ensures RanInMode(AndThen(a, b).events, m) && PasswordCleared !in AndThen(a, b).events
  {
    if a.outcome.Pass? {
      RanInModeConcat(a.events, b.events, m);
    }
  }

  lemma InstallDockerMode(d: Driver, env: Environment, debug: string)
    ensures RanInMode(InstallCustomDockerRun(d, env, debug).events, ExpectedMode(d))
    ensures PasswordCleared !in InstallCustomDockerRun(d, env, debug).events
  {
    var m := ExpectedMode(d);
    RunLineMode(d, env, debug, ServiceLine("docker", Stop));
    RunLineMode(d, env, debug, CleanupLine);
    RunLineMode(d, env, debug, DownloadLine);
    RunLineMode(d, env, debug, LinkLine);
    RunLineMode(d, env, debug, InitScriptLine);
    RunLineMode(d, env, debug, ServiceLine("docker", Start));
    var stop := Ignore(ServiceRun(d, env, debug, "docker", Stop));
    var clean := BestEffortLine(d, env, debug, CleanupLine);
    var dl := RunLine(d, env, debug, DownloadLine);
    var ln := RunLine(d, env, debug, LinkLine);
    var init := RunLine(d, env, debug, InitScriptLine);
    var start := Ignore(ServiceRun(d, env, debug, "docker", Start));
    AndThenKeeps(init, start, m);
    AndThenKeeps(ln, AndThen(init, start), m);
    AndThenKeeps(dl, AndThen(ln, AndThen(init, start)), m);
    AndThenKeeps(clean, AndThen(dl, AndThen(ln, AndThen(init, start))), m);
    AndThenKeeps(stop, AndThen(clean, AndThen(dl, AndThen(ln, AndThen(init, start)))), m);
  }

  /** Every command the phases after the password clear run is built from the
      given driver, so it authenticates as that driver's state says. */
  lemma TailMode(d: Driver, env: Environment, debug: string, authOutcome: Outcome, swarmOutcome: Outcome)
    ensures RanInMode(ProvisionTail(d, env, debug, authOutcome, swarmOutcome).events, ExpectedMode(d))
    ensures PasswordCleared !in ProvisionTail(d, env, debug, authOutcome, swarmOutcome).events
  {
    var m := ExpectedMode(d);
    InstallDockerMode(d, env, debug);
    var icd := InstallCustomDockerRun(d, env, debug);
    var wait := WaitForDockerRun(d, env, debug);
    var auth := StepRun(authOutcome, [AuthConfigured]);
    var swarm := StepRun(swarmOutcome, [SwarmConfigured]);
    AndThenKeeps(auth, swarm, m);
    AndThenKeeps(wait, AndThen(auth, swarm), m);
    AndThenKeeps(icd, AndThen(wait, AndThen(auth, swarm)), m);
  }

  /** The two phases before the password clear never clear it themselves. */
  lemma HeadNoClear(d: Driver, env: Environment, debug: string)
    ensures PasswordCleared !in SetHostnameRun(d, env, debug, d.machineName).events
    ensures PasswordCleared !in InstallPublicKeyRun(d, env, debug).events
  {
    var path := d.keyPath + ".pub";
    RunLineMode(d, env, debug, SetHostnameLine(d.machineName));
    RunLineMode(d, env, debug, MkdirSSHLine);
    var m := ExpectedMode(d);
    var mk := BestEffortLine(d, env, debug, MkdirSSHLine);
    match env.readFile(path)
    case Err(e) =>
      AndThenKeeps(mk, StepRun(Fail(e), [ReadFile(path)]), m);
    case Ok(key) =>
      RunLineMode(d, env, debug, AuthorizedKeysLine(key));
      AndThenKeeps(StepRun(Pass, [ReadFile(path)]), RunLine(d, env, debug, AuthorizedKeysLine(key)), m);
      AndThenKeeps(mk, AndThen(StepRun(Pass, [ReadFile(path)]), RunLine(d, env, debug, AuthorizedKeysLine(key))), m);
  }

  /** The events of `Provision` around the password clear, for any phase
      results: the clear event follows the first two phases' events when the
      run gets past them and the driver can clear. */
  function ClearRunEvents(sh: StepRun, pk: StepRun, canClear: bool, tail: StepRun): (evs: seq<Event>)
    ensures evs == AndThen(sh, AndThen(pk, AndThen(StepRun(Pass, if canClear then [PasswordCleared] else []), tail))).events
  {
    if sh.outcome.Fail? then sh.events
    else if pk.outcome.Fail? then sh.events + pk.events
    else if canClear then sh.events + pk.events + [PasswordCleared] + tail.events
    else sh.events + pk.events + tail.events
  }

  lemma {:induction false} ClearCount(sh: StepRun, pk: StepRun, canClear: bool, tail: StepRun)
    requires PasswordCleared !in sh.events && PasswordCleared !in pk.events && PasswordCleared !in tail.events
    ensures multiset(ClearRunEvents(sh, pk, canClear, tail))[PasswordCleared]
            == (if canClear && sh.outcome.Pass? && pk.outcome.Pass? then 1 else 0)
  {
    var pre := sh.events + pk.events;
    assert multiset(pre)[PasswordCleared] == 0;
    if sh.outcome.Pass? && pk.outcome.Pass? {
      if canClear {
        assert multiset(pre + [PasswordCleared] + tail.events)
               == multiset(pre) + multiset([PasswordCleared]) + multiset(tail.events);
      } else {
        assert multiset(pre + tail.events) == multiset(pre) + multiset(tail.events);
      }
    }
  }

  lemma {:induction false} ClearThenKeyMode(pre: seq<Event>, tail: seq<Event>)
    requires PasswordCleared !in pre && PasswordCleared !in tail
    requires RanInMode(tail, KeyMode)
    ensures KeyModeAfterClear(pre + [PasswordCleared] + tail)
  {
    var evs := pre + [PasswordCleared] + tail;
    assert forall k :: 0 <= k < |pre| ==> evs[k] == pre[k] && evs[k] != PasswordCleared;
    assert forall k :: |pre| < k < |evs| ==> evs[k] == tail[k - |pre| - 1] && evs[k] != PasswordCleared;
    forall i, j | 0 <= i < j < |evs| && evs[i] == PasswordCleared && evs[j].Ran?
      ensures ModeOf(evs[j].cmd) == KeyMode
    {
      assert i == |pre|;
      assert evs[j] == tail[j - |pre| - 1];
    }
  }

  lemma {:induction false} ClearOrder(sh: StepRun, pk: StepRun, canClear: bool, tail: StepRun)
    requires PasswordCleared !in sh.events && PasswordCleared !in pk.events && PasswordCleared !in tail.events
    requires canClear ==> RanInMode(tail.events, KeyMode)
    ensures var evs := ClearRunEvents(sh, pk, canClear, tail);
            (canClear && sh.outcome.Pass? && pk.outcome.Pass? ==>
               evs[..|sh.events| + |pk.events| + 1] == sh.events + pk.events + [PasswordCleared])
            && KeyModeAfterClear(evs)
  {
    var evs := ClearRunEvents(sh, pk, canClear, tail);
    if canClear && sh.outcome.Pass? && pk.outcome.Pass? {
      ClearThenKeyMode(sh.events + pk.events, tail.events);
    } else {
      assert PasswordCleared !in evs;
    }
  }

  lemma ProvisionShape(d: Driver, env: Environment, debug: string, authOutcome: Outcome, swarmOutcome: Outcome)
    ensures ProvisionRun(d, env, debug, authOutcome, swarmOutcome)
            == AndThen(SetHostnameRun(d, env, debug, d.machineName),
               AndThen(InstallPublicKeyRun(d, env, debug),
               AndThen(StepRun(Pass, if d.canClearPasswd then [PasswordCleared] else []),
                       ProvisionTail(ClearedDriver(d), env, debug, authOutcome, swarmOutcome))))
  {
  }

  /** `Provision` clears the password exactly once when the driver can clear
      it and the run got past the public key, never otherwise, right after
      the public key's events; and every command issued after the clear
      authenticates with keys, because nothing caches the mode and the
      cleared driver resolves to key mode on every call. */
  lemma ProvisionClearsPasswordOnce(d: Driver, env: Environment, debug: string, authOutcome: Outcome, swarmOutcome: Outcome)
    ensures var r := ProvisionRun(d, env, debug, authOutcome, swarmOutcome);
            var sh := SetHostnameRun(d, env, debug, d.machineName);
            var pk := InstallPublicKeyRun(d, env, debug);
            var clears := d.canClearPasswd && sh.outcome.Pass? && pk.outcome.Pass?;
            multiset(r.events)[PasswordCleared] == (if clears then 1 else 0)
            && (clears ==> r.events[..|sh.events| + |pk.events| + 1] == sh.events + pk.events + [PasswordCleared])
            && KeyModeAfterClear(r.events)
  {
    HeadNoClear(d, env, debug);
    TailMode(ClearedDriver(d), env, debug, authOutcome, swarmOutcome);
    if d.canClearPasswd {
      ClearedPasswordForcesKeyMode(d);
    }
    var sh := SetHostnameRun(d, env, debug, d.machineName);
    var pk := InstallPublicKeyRun(d, env, debug);
    var tail := ProvisionTail(ClearedDriver(d), env, debug, authOutcome, swarmOutcome);
    ProvisionShape(d, env, debug, authOutcome, swarmOutcome);
    assert ProvisionRun(d, env, debug, authOutcome, swarmOutcome).events == ClearRunEvents(sh, pk, d.canClearPasswd, tail);
    ClearCount(sh, pk, d.canClearPasswd, tail);
    ClearOrder(sh, pk, d.canClearPasswd, tail);
  }

  /** A host that holds the driver `Provision` ran on sees the clear: once
      `Provision` got past the public key on a driver that can clear its
      password, every command built through the host-level entry point for
      that driver is key-based too. */
  lemma ProvisionedHostUsesKeys(d: Driver, env: Environment, debug: string, keyBuild: Outcome,
                                args: seq<string>)
    requires d.canClearPasswd
    requires SetHostnameRun(d, env, debug, d.machineName).outcome.Pass?
    requires InstallPublicKeyRun(d, env, debug).outcome.Pass?
    ensures var r := Libmachine.GetSSHCommand(Libmachine.Host(ProvisionedDriver(d, env, debug), keyBuild), args, debug);
            r.Ok? ==> ModeOf(r.value) == KeyMode
  {
    var h := Libmachine.Host(ClearSSHPasswd(d), keyBuild);
    assert ProvisionedDriver(d, env, debug) == h.driver;
    assert ModeOf(HostDefaultCmd(args)) == KeyMode;
  }

  // ---------------------------------------------------------------------
  // Docker options

  /** The engine options name the requested port: different ports give
      different configuration lines. */
  lemma DockerOptionsDistinguishPorts(defaultDaemonOpts: string, port1: int, port2: int)
    requires port1 != port2
    ensures GenerateDockerOptions(defaultDaemonOpts, port1).value.engineOptions
            != GenerateDockerOptions(defaultDaemonOpts, port2).value.engineOptions
  {
    var hosts := "--host=unix:///var/run/docker.sock --host=tcp://0.0.0.0:";
    Fmt.FormatIntInjective(port1, port2);
    PrefixKeepsDifference(hosts, Fmt.FormatInt(port1), Fmt.FormatInt(port2));
    PrefixKeepsDifference(defaultDaemonOpts + " ", DaemonHostOptions(port1), DaemonHostOptions(port2));
    assert defaultDaemonOpts + " " + DaemonHostOptions(port1) != defaultDaemonOpts + " " + DaemonHostOptions(port2);
  }

  lemma PrefixKeepsDifference(pre: string, s1: string, s2: string)
    ensures s1 != s2 ==> pre + s1 != pre + s2
  {
    assert (pre + s1)[|pre|..] == s1;
    assert (pre + s2)[|pre|..] == s2;
  }
}
