/** The remote-shell command builder of package `ssh`: the password-mode
    invocation through `sshpass`, and the shape of every command the rest of
    the model can hold. */
module Ssh {
  import opened Base
  import Fmt

  /** A command ready to run.
      `Exec` is an `exec.Cmd` built in this model: program, arguments after the
      program name, and whether standard output and standard error are wired
      to the caller's. The other three are built by code that is not part of
      this model and are kept opaque: `KeyCmd` is `ssh.GetSSHCommand`,
      `DriverDefaultCmd` is the driver package's own key-mode builder
      `getSSHCommandFromDriver`, `HostDefaultCmd` is `Host.getSSHCommand`. */
  datatype Command =
    | Exec(program: string, argv: seq<string>, stdoutWired: bool, stderrWired: bool)
    | KeyCmd(host: string, port: int, user: string, keyPath: string, args: seq<string>)
    | DriverDefaultCmd(args: seq<string>)
    | HostDefaultCmd(args: seq<string>)

  const SSHPassProgram: string := "sshpass"

  /** The five `-o` client options, in the order they are passed. */
  const ConnectionOptions: seq<string> := [
    "-o", "IdentitiesOnly=yes",
    "-o", "StrictHostKeyChecking=no",
    "-o", "UserKnownHostsFile=/dev/null",
    "-o", "ConnectionAttempts=30",
    "-o", "LogLevel=quiet"
  ]

  /** `GetSSHCommandWithSSHPass`: an `sshpass` invocation carrying the password,
      the `ssh` client with the fixed options, the port, `user@host`, then the
      caller's tokens. `debug` is the value of the DEBUG environment variable. */
  function GetSSHCommandWithSSHPass(host: string, port: int, user: string, passwd: string,
                                    args: seq<string>, debug: string): (c: Command)
    ensures c.Exec? && c.program == SSHPassProgram
    ensures |c.argv| == 15 + |args|
    ensures c.argv[0] == "-p" + passwd && c.argv[1] == "ssh"
    ensures c.argv[2..12] == ConnectionOptions
    ensures c.argv[12] == "-p" && c.argv[13] == Fmt.FormatInt(port)
    ensures c.argv[14] == user + "@" + host
    ensures c.argv[15..] == args
    ensures c.stderrWired
    ensures c.stdoutWired <==> debug != ""
  {
    var defaultSSHArgs := ["-p" + passwd, "ssh"] + ConnectionOptions
                          + ["-p", Fmt.FormatInt(port), user + "@" + host];
    Exec(SSHPassProgram, defaultSSHArgs + args, debug != "", true)
  }

  /** The remote command tokens a command carries after its connection part. */
  function RemoteArgs(c: Command): seq<string> {
    match c
    case Exec(_, argv, _, _) => if |argv| >= 15 then argv[15..] else []
    case KeyCmd(_, _, _, _, args) => args
    case DriverDefaultCmd(args) => args
    case HostDefaultCmd(args) => args
  }

  /** What an `sshpass` argument vector says: where to connect, as whom, with
      which password, to run what. */
  datatype SSHPassRequest =
    SSHPassRequest(host: string, port: int, user: string, passwd: string, args: seq<string>)

  /** The position of the last `ch` in `s`, if any. */
  function LastIndexOf(s: string, ch: char): (r: Option<nat>)
    ensures r.Some? ==> r.value < |s| && s[r.value] == ch
    ensures r.Some? ==> forall i :: r.value < i < |s| ==> s[i] != ch
    ensures r.None? ==> ch !in s
    decreases |s|
  {
    if |s| == 0 then None
    else if s[|s| - 1] == ch then Some(|s| - 1)
    else LastIndexOf(s[..|s| - 1], ch)
  }

  /** Reads an `sshpass` argument vector back, as the `ssh` client would
      split its target at the last `@`. None when the vector does not have
      the fixed shape. */
  function ParseSSHPassArgv(argv: seq<string>): Option<SSHPassRequest> {
    if |argv| < 15 || |argv[0]| < 2 || argv[0][..2] != "-p" || argv[1] != "ssh"
       || argv[2..12] != ConnectionOptions || argv[12] != "-p" then None
    else match (Fmt.ParseInt(argv[13]), LastIndexOf(argv[14], '@'))
      case (Some(port), Some(at)) =>
        Some(SSHPassRequest(argv[14][at + 1..], port, argv[14][..at], argv[0][2..], argv[15..]))
      case _ => None
  }

  lemma {:induction false} LastAtIsSeparator(user: string, host: string)
    requires '@' !in host
    ensures LastIndexOf(user + "@" + host, '@') == Some(|user|)
    decreases |host|
  {
    var s := user + "@" + host;
    if |host| > 0 {
      assert s[|s| - 1] == host[|host| - 1];
      assert s[..|s| - 1] == user + "@" + host[..|host| - 1];
      LastAtIsSeparator(user, host[..|host| - 1]);
    }
  }

  /** Everything the builder was given can be read back from the argument
      vector it produced, whenever the host name has no `@`. */
  lemma SSHPassRoundTrip(host: string, port: int, user: string, passwd: string,
                         args: seq<string>, debug: string)
    requires '@' !in host
    ensures ParseSSHPassArgv(GetSSHCommandWithSSHPass(host, port, user, passwd, args, debug).argv)
            == Some(SSHPassRequest(host, port, user, passwd, args))
  {
    var c := GetSSHCommandWithSSHPass(host, port, user, passwd, args, debug);
    Fmt.FormatIntRoundTrip(port);
    LastAtIsSeparator(user, host);
    var target := user + "@" + host;
    assert target[..|user|] == user;
    assert target[|user| + 1..] == host;
    assert c.argv[0][..2] == "-p" && c.argv[0][2..] == passwd;
  }

  /** Two sshpass commands whose host names have no `@` and that agree on
      their argument vector were built from the same host, port, user,
      password and command tokens. */
  lemma SSHPassInjective(host1: string, port1: int, user1: string, passwd1: string, args1: seq<string>,
                         host2: string, port2: int, user2: string, passwd2: string, args2: seq<string>,
                         debug: string)
    requires '@' !in host1 && '@' !in host2
    requires GetSSHCommandWithSSHPass(host1, port1, user1, passwd1, args1, debug).argv
             == GetSSHCommandWithSSHPass(host2, port2, user2, passwd2, args2, debug).argv
    ensures host1 == host2 && port1 == port2 && user1 == user2 && passwd1 == passwd2 && args1 == args2
  {
    SSHPassRoundTrip(host1, port1, user1, passwd1, args1, debug);
    SSHPassRoundTrip(host2, port2, user2, passwd2, args2, debug);
  }
}
