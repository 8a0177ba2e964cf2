/** The driver-level credential resolver of package `drivers`
    (drivers/drivers_ext.go): decide, on every call, whether a command for a
    driver goes through `sshpass` with the driver's password or through the
    key-based client. */
module Drivers {
  import opened Base
  import opened Ssh

  /** Whether the driver has a `GetSSHPasswd()` method, and what it returns now.
      The Go code finds this out by probing the driver's dynamic type. */
  datatype AuthCapability = NoPasswordGetter | PasswordGetter(passwd: string)

  /** What the resolver and the provisioner read from a machine driver.
      `hostname` and `port` are the results of `GetSSHHostname()` and
      `GetSSHPort()`; `canClearPasswd` says whether the driver has a
      `ClearSSHPasswd()` method; `keyBuild` is the outcome of the driver
      package's own key-mode builder `getSSHCommandFromDriver`, whose code is
      not part of this model. */
  datatype Driver = Driver(
    hostname: Result<string>,
    port: Result<int>,
    user: string,
    keyPath: string,
    machineName: string,
    driverName: string,
    auth: AuthCapability,
    canClearPasswd: bool,
    keyBuild: Outcome)

  /** The credential a built command authenticates with. */
  datatype AuthMode = KeyMode | PasswordMode(secret: string)

  /** Reads the credential off a command: an `sshpass` invocation whose first
      argument is `-p<secret>` uses that password; anything else uses keys. */
  function ModeOf(c: Command): AuthMode {
    if c.Exec? && c.program == SSHPassProgram && |c.argv| > 0
       && |c.argv[0]| >= 2 && c.argv[0][..2] == "-p"
    then PasswordMode(c.argv[0][2..])
    else KeyMode
  }

  /** The mode the resolver is meant to pick for a driver in its current state:
      a password only when the driver has a getter and it returns a non-empty
      string. */
  function ExpectedMode(d: Driver): AuthMode {
    match d.auth
    case NoPasswordGetter => KeyMode
    case PasswordGetter(p) => if p == "" then KeyMode else PasswordMode(p)
  }

  lemma SSHPassMode(host: string, port: int, user: string, passwd: string,
                    args: seq<string>, debug: string)
    ensures ModeOf(GetSSHCommandWithSSHPass(host, port, user, passwd, args, debug)) == PasswordMode(passwd)
  {
    var c := GetSSHCommandWithSSHPass(host, port, user, passwd, args, debug);
    assert c.argv[0][..2] == "-p" && c.argv[0][2..] == passwd;
  }

  /** `getSSHCommandFromDriver`: the driver package's key-mode builder. */
  function DefaultSSHCommand(d: Driver, args: seq<string>): (r: Result<Command>)
    ensures r.Ok? <==> d.keyBuild.Pass?
    ensures r.Ok? ==> r.value == DriverDefaultCmd(args)
  {
    match d.keyBuild
    case Fail(e) => Err(e)
    case Pass => Ok(DriverDefaultCmd(args))
  }

  /** `getSSHCommandWithSSHPassFromDriver`. Host name first, then port, each
      error returned as it is; then an empty password selects the key-based
      client and any other password `sshpass`. Called directly on a driver
      without a getter it keeps the empty initial password and still builds
      an `sshpass` command. */
  function GetSSHCommandWithSSHPassFromDriver(d: Driver, args: seq<string>, debug: string): (r: Result<Command>)
    ensures d.hostname.Err? ==> r == Err(d.hostname.error)
    ensures d.hostname.Ok? && d.port.Err? ==> r == Err(d.port.error)
    ensures d.hostname.Ok? && d.port.Ok? ==> r.Ok? && RemoteArgs(r.value) == args
    ensures r.Ok? && d.auth.PasswordGetter? ==> ModeOf(r.value) == ExpectedMode(d)
    ensures r.Ok? && d.auth.NoPasswordGetter? ==> ModeOf(r.value) == PasswordMode("")
  {
    if d.hostname.Err? then Err(d.hostname.error)
    else if d.port.Err? then Err(d.port.error)
    else
      var host, port := d.hostname.value, d.port.value;
      var passwd := if d.auth.PasswordGetter? then d.auth.passwd else "";
      if d.auth.PasswordGetter? && passwd == "" then
        Ok(KeyCmd(host, port, d.user, d.keyPath, args))
      else
        SSHPassMode(host, port, d.user, passwd, args, debug);
        Ok(GetSSHCommandWithSSHPass(host, port, d.user, passwd, args, debug))
  }

  /** `GetSSHCommandFromDriver`: the entry point every provisioning command
      goes through. */
  function GetSSHCommandFromDriver(d: Driver, args: seq<string>, debug: string): (r: Result<Command>)
    // no password getter: the key-mode builder, whatever the arguments
    ensures d.auth.NoPasswordGetter? ==> (r.Ok? <==> d.keyBuild.Pass?)
    ensures d.auth.NoPasswordGetter? && r.Ok? ==> r.value == DriverDefaultCmd(args)
    ensures d.auth.NoPasswordGetter? && r.Err? ==> r.error == d.keyBuild.error
    // password getter: host name error wins, then port error
    ensures d.auth.PasswordGetter? && d.hostname.Err? ==> r == Err(d.hostname.error)
    ensures d.auth.PasswordGetter? && d.hostname.Ok? && d.port.Err? ==> r == Err(d.port.error)
    ensures d.auth.PasswordGetter? && d.hostname.Ok? && d.port.Ok? ==> r.Ok?
    // a built command uses the expected credential and carries the caller's tokens
    ensures r.Ok? ==> ModeOf(r.value) == ExpectedMode(d) && RemoteArgs(r.value) == args
  {
    if d.auth.NoPasswordGetter? then DefaultSSHCommand(d, args)
    else GetSSHCommandWithSSHPassFromDriver(d, args, debug)
  }

  /** Whether building any command for this driver fails, and with what. */
  function BuildError(d: Driver): Option<Error> {
    match d.auth
    case NoPasswordGetter => if d.keyBuild.Fail? then Some(d.keyBuild.error) else None
    case PasswordGetter(_) =>
      if d.hostname.Err? then Some(d.hostname.error)
      else if d.port.Err? then Some(d.port.error)
      else None
  }

  /** Whether a command builds does not depend on the command: the resolver
      only fails on the driver's metadata. */
  lemma BuildFailsUniformly(d: Driver, args: seq<string>, debug: string)
    ensures GetSSHCommandFromDriver(d, args, debug).Err? <==> BuildError(d).Some?
    ensures BuildError(d).Some? ==> GetSSHCommandFromDriver(d, args, debug) == Err(BuildError(d).value)
  {
  }

  /** With a non-empty password and readable metadata, the command is exactly
      the `sshpass` invocation for that password, host, port, user and tokens. */
  lemma PasswordModeCommand(d: Driver, args: seq<string>, debug: string)
    requires d.auth.PasswordGetter? && d.auth.passwd != ""
    requires d.hostname.Ok? && d.port.Ok?
    ensures GetSSHCommandFromDriver(d, args, debug)
            == Ok(GetSSHCommandWithSSHPass(d.hostname.value, d.port.value, d.user, d.auth.passwd, args, debug))
  {
  }

  /** With an empty password and readable metadata, the command is the
      key-based client for the driver's host, port, user and key path. */
  lemma KeyModeCommand(d: Driver, args: seq<string>, debug: string)
    requires d.auth.PasswordGetter? && d.auth.passwd == ""
    requires d.hostname.Ok? && d.port.Ok?
    ensures GetSSHCommandFromDriver(d, args, debug)
            == Ok(KeyCmd(d.hostname.value, d.port.value, d.user, d.keyPath, args))
  {
  }

  /** The driver's `ClearSSHPasswd()` (its code is not part of this model):
      afterwards the password getter returns the empty string. */
  function ClearSSHPasswd(d: Driver): (d': Driver)
    ensures d'.auth.PasswordGetter? <==> d.auth.PasswordGetter?
    ensures d'.auth.PasswordGetter? ==> d'.auth.passwd == ""
    ensures d' == d.(auth := d'.auth)
  {
    match d.auth
    case NoPasswordGetter => d
    case PasswordGetter(_) => d.(auth := PasswordGetter(""))
  }

  /** Nothing is cached: once the password is cleared, every later resolution
      for that driver, for any command, is key-based, and clearing again
      changes nothing. */
  lemma ClearedPasswordForcesKeyMode(d: Driver)
    ensures ExpectedMode(ClearSSHPasswd(d)) == KeyMode
    ensures ClearSSHPasswd(ClearSSHPasswd(d)) == ClearSSHPasswd(d)
    ensures forall args, debug :: GetSSHCommandFromDriver(ClearSSHPasswd(d), args, debug).Ok? ==>
              ModeOf(GetSSHCommandFromDriver(ClearSSHPasswd(d), args, debug).value) == KeyMode
  {
  }
}
