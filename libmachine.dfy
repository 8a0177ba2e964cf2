/** The host-level entry point of package `libmachine`
    (libmachine/host_ext.go): the same password-or-key decision as the driver
    package, falling back to the host's own key-based builder. */
module Libmachine {
  import opened Base
  import opened Ssh
  import opened Drivers

  /** A machine host: its driver, and the outcome of `Host.getSSHCommand`,
      the host's key-mode builder, whose code is not part of this model. */
  datatype Host = Host(driver: Driver, keyBuild: Outcome)

  /** `h.getSSHCommand(args...)`. */
  function HostDefaultSSHCommand(h: Host, args: seq<string>): (r: Result<Command>)
    ensures r.Ok? <==> h.keyBuild.Pass?
    ensures r.Ok? ==> r.value == HostDefaultCmd(args)
  {
    match h.keyBuild
    case Fail(e) => Err(e)
    case Pass => Ok(HostDefaultCmd(args))
  }

  /** `Host.GetSSHCommand`. */
  function GetSSHCommand(h: Host, args: seq<string>, debug: string): (r: Result<Command>)
    // no password getter: the host's key-mode builder
    ensures h.driver.auth.NoPasswordGetter? ==> r == HostDefaultSSHCommand(h, args)
    // password getter: the host name error is checked first, then the port error
    ensures h.driver.auth.PasswordGetter? && h.driver.hostname.Err? ==> r == Err(h.driver.hostname.error)
    ensures h.driver.auth.PasswordGetter? && h.driver.hostname.Ok? && h.driver.port.Err?
            ==> r == Err(h.driver.port.error)
    // readable metadata: a cleared password falls back to the key-mode builder,
    // any other password gives the sshpass command for exactly these values
    ensures h.driver.auth.PasswordGetter? && h.driver.hostname.Ok? && h.driver.port.Ok? ==>
              r == (if h.driver.auth.passwd == "" then HostDefaultSSHCommand(h, args)
                    else Ok(GetSSHCommandWithSSHPass(h.driver.hostname.value, h.driver.port.value,
                                                     h.driver.user, h.driver.auth.passwd, args, debug)))
  {
    match h.driver.auth
    case PasswordGetter(passwd) =>
      if h.driver.hostname.Err? then Err(h.driver.hostname.error)
      else
        var addr := h.driver.hostname.value;
        var user := h.driver.user;
        if h.driver.port.Err? then Err(h.driver.port.error)
        else if passwd == "" then HostDefaultSSHCommand(h, args)
        else Ok(GetSSHCommandWithSSHPass(addr, h.driver.port.value, user, passwd, args, debug))
    case NoPasswordGetter =>
      HostDefaultSSHCommand(h, args)
  }

  /** The host-level and the driver-level entry points are near-copies: on
      the same driver they fail with the same error, and when both succeed
      they authenticate the same way and, in password mode, build the very
      same `sshpass` command. They differ only in which key-mode builder they
      fall back to, and in that builder's own failures. */
  lemma {:induction false} EntryPointsAgree(h: Host, args: seq<string>, debug: string)
    requires h.keyBuild.Pass? && h.driver.keyBuild.Pass?
    ensures GetSSHCommand(h, args, debug).Err? <==> GetSSHCommandFromDriver(h.driver, args, debug).Err?
    ensures GetSSHCommand(h, args, debug).Err? ==>
              GetSSHCommand(h, args, debug) == GetSSHCommandFromDriver(h.driver, args, debug)
    ensures GetSSHCommand(h, args, debug).Ok? ==>
              ModeOf(GetSSHCommand(h, args, debug).value) == ExpectedMode(h.driver)
              == ModeOf(GetSSHCommandFromDriver(h.driver, args, debug).value)
    ensures ExpectedMode(h.driver).PasswordMode? ==>
              GetSSHCommand(h, args, debug) == GetSSHCommandFromDriver(h.driver, args, debug)
  {
    var d := h.driver;
    match d.auth
    case NoPasswordGetter =>
      assert ModeOf(HostDefaultCmd(args)) == KeyMode;
    case PasswordGetter(p) =>
      if d.hostname.Ok? && d.port.Ok? {
        if p == "" {
          assert ModeOf(HostDefaultCmd(args)) == KeyMode;
        } else {
          PasswordModeCommand(d, args, debug);
          SSHPassMode(d.hostname.value, d.port.value, d.user, p, args, debug);
        }
      }
  }
}
