# Aiyara provisioning over sshpass, in Dafny

Machine-Aiyara is a Docker Machine fork that provisions ARM boards reached by
SSH with a password. This project models its core in Dafny and proves
properties of the model:

- `ssh/sshpass.go`: the builder of an `sshpass` command line. It carries the
  password, the fixed `ssh` options, the port, `user@host` and the remote
  command.
- `drivers/drivers_ext.go` and `libmachine/host_ext.go`: the two entry points
  that decide, on every call, whether a command authenticates with the
  driver's password or with keys.
- `libmachine/provision/aiyara.go`: the Aiyara provisioner. It sets the host
  name and installs the public key while the password still works. It then
  clears the password and installs a custom Docker build. After that it waits
  for the daemon and hands over to the authentication and swarm
  configuration.

Modules:

- `Base` (base.dfy): the error, outcome, result and option types. They stand
  for Go's `error` and `(T, error)` returns.
- `Fmt` (fmt.dfy): Go's `%d` rendering of an integer and a parser that undoes it.
- `Ssh` (ssh.dfy): commands as values, and the `sshpass` builder with its
  inverse.
- `Drivers` (drivers.dfy): the driver as the resolver sees it, and the
  resolver itself. The reference definition `ExpectedMode` says which
  credential the resolver must pick.
- `Libmachine` (libmachine.dfy): the host-level entry point.
- `AiyaraSpec` (aiyara_spec.dfy): each provisioning step as a function. It
  gives the step's error outcome and the ordered events the step causes:
  commands run, the key file read, the password cleared, the configuration
  collaborators called.
- `AiyaraProperties` (aiyara_properties.dfy): lemmas about those step
  functions.
- `Aiyara` (aiyara.dfy): the class `AiyaraProvisioner`. Its `trace` field
  records the events. Each method is proved to produce exactly what the
  matching step function describes.

The outside world is a parameter, `Environment`. It gives each command's exit
status, what a command prints, and the contents of local files. The model is
therefore deterministic in it.

## Model

| member | source | states |
|---|---|---|
| Fmt.NatDigits | ssh/sshpass.go:21 | the rendering of a natural number is non-empty, all decimal digits, and has no leading zero |
| Fmt.FormatInt | ssh/sshpass.go:21 | `%d` is non-empty and starts with a minus sign exactly when the number is negative |
| Fmt.ParseNatDigits | ssh/sshpass.go:21 | parsing the digits of a natural number gives the number back |
| Fmt.FormatIntRoundTrip | ssh/sshpass.go:21 | parsing the `%d` rendering gives back every integer |
| Fmt.FormatIntInjective | ssh/sshpass.go:21 | distinct ports render differently |
| Ssh.GetSSHCommandWithSSHPass | ssh/sshpass.go:12-36 | runs `sshpass` with exactly 15 fixed tokens before the caller's arguments: `-p<password>`, `ssh`, the five `-o` options in order, `-p`, the decimal port, `user@host`; stderr is always wired, stdout exactly when DEBUG is non-empty |
| Ssh.LastAtIsSeparator | ssh/sshpass.go:22 | in `user@host` with no `@` in the host, the last `@` is the one the builder inserted |
| Ssh.SSHPassRoundTrip | ssh/sshpass.go:13-26 | when the host name has no `@`, host, port, user, password and remote arguments can all be read back from the argument vector |
| Ssh.SSHPassInjective | ssh/sshpass.go:13-26 | when the host names have no `@`, two builds with the same argument vector had the same host, port, user, password and arguments |
| Drivers.SSHPassMode | ssh/sshpass.go:14 | an `sshpass` command authenticates with exactly the password it was built with |
| Drivers.DefaultSSHCommand | drivers/drivers_ext.go:13 | the driver's own key-mode builder succeeds exactly when that builder does, carrying the caller's arguments |
| Drivers.GetSSHCommandWithSSHPassFromDriver | drivers/drivers_ext.go:19-44 | host name error first, then port error; with readable metadata it always builds, carries the arguments, and uses the expected credential (an empty initial password without a getter) |
| Drivers.GetSSHCommandFromDriver | drivers/drivers_ext.go:9-17 | without a password getter the key builder's result; with one, host name then port errors; any command built uses `ExpectedMode` and carries the caller's arguments |
| Drivers.BuildFailsUniformly | drivers/drivers_ext.go:9-28 | whether and how building fails depends on the driver only, never on the command |
| Drivers.PasswordModeCommand | drivers/drivers_ext.go:33-43 | a non-empty password with readable metadata gives exactly the `sshpass` command for that host, port, user and password |
| Drivers.KeyModeCommand | drivers/drivers_ext.go:36-40 | an empty password gives the key-based client for the driver's host, port, user and key path |
| Drivers.ClearSSHPasswd | libmachine/provision/aiyara.go:152-156 | afterwards the getter, if there is one, returns the empty string; nothing else about the driver changes |
| Drivers.ClearedPasswordForcesKeyMode | drivers/drivers_ext.go:36-40 | after a clear, every command for that driver is key-based, and clearing twice is clearing once |
| Libmachine.HostDefaultSSHCommand | libmachine/host_ext.go:36 | the host's key-mode builder succeeds exactly when that builder does |
| Libmachine.GetSSHCommand | libmachine/host_ext.go:9-37 | without a getter the host's key builder; with one, host name then port errors, then an empty password falls back to keys and any other gives that exact `sshpass` command |
| Libmachine.EntryPointsAgree | libmachine/host_ext.go:9-37 | when both key-mode builders succeed, the host-level and driver-level entry points fail alike, authenticate alike, and build the same `sshpass` command in password mode |
| AiyaraSpec.AndThen | libmachine/provision/aiyara.go:144-150 | a failed step is the result; after a success the next step's outcome follows both steps' events |
| AiyaraSpec.FlattenSnoc | libmachine/provision/aiyara.go:140-175 | the events of the first k+1 steps are those of the first k followed by step k's |
| AiyaraSpec.SequenceStopsAtFirstFailure | libmachine/provision/aiyara.go:140-175 | steps run in order return the first failure, with the events of the steps before it followed by the failing step's own |
| AiyaraSpec.SequenceAllPass | libmachine/provision/aiyara.go:140-175 | when every step succeeds the sequence succeeds with all their events |
| AiyaraSpec.ServiceLine | libmachine/provision/aiyara.go:40 | a service command is `service`, the service name, then the action's name, separated by single spaces |
| AiyaraSpec.SetHostnameLine | libmachine/provision/aiyara.go:194-199 | the line is exactly three parts: set the live host name, write the quoted name to /etc/hostname, append the loopback alias to /etc/hosts |
| AiyaraSpec.RunLine | libmachine/provision/aiyara.go:42-49 | a build failure returns the driver's error with nothing run; otherwise exactly one command runs, the one `SSHCommand` built for the line, and its status is the result |
| AiyaraSpec.BestEffortLine | libmachine/provision/aiyara.go:76-81 | a build failure is returned; otherwise exactly one command runs, the one `SSHCommand` built for the line, and its status is ignored |
| AiyaraSpec.DockerDaemonResponding | libmachine/provision/aiyara.go:59-72 | the daemon is up exactly when `docker version` builds and runs cleanly; the built `docker version` command is the only thing it runs, and nothing runs when the build fails |
| AiyaraSpec.WaitForDockerRun | libmachine/provision/aiyara.go:162-164 | the wait succeeds exactly when the daemon responds, and fails with the timeout error otherwise |
| AiyaraSpec.ProvisionPhases | libmachine/provision/aiyara.go:140-175 | `Provision` has seven phases |
| AiyaraSpec.HostnameResult | libmachine/provision/aiyara.go:177-191 | succeeds exactly when `hostname` builds and runs cleanly, and then returns what it printed; a failure returns the build error, or else the run error |
| AiyaraSpec.BuildCommand | libmachine/provision/aiyara.go:212-214 | a command built for a line carries that line as its only remote token and uses the credential `ExpectedMode` gives for the driver |
| AiyaraSpec.AuthorizedKeysLine | libmachine/provision/aiyara.go:88 | the line is `echo "`, the public key exactly as read, then the closing quote and the append of `tee -a ~/.ssh/authorized_keys` |
| AiyaraSpec.ServiceRun | libmachine/provision/aiyara.go:39-52 | no contract; `Service` as `RunLine` of `ServiceLine`, so a build failure and the command's failure are both returned |
| AiyaraSpec.SetHostnameRun | libmachine/provision/aiyara.go:193-206 | no contract; `SetHostname` as `RunLine` of `SetHostnameLine`; `SetHostnameSingleCommand` states its result |
| AiyaraSpec.InstallPublicKeyRun | libmachine/provision/aiyara.go:74-94 | no contract; `installPublicKey` as an early-exit chain of the best-effort mkdir, the read of `<keyPath>.pub` and the append; `InstallPublicKeyOrder` states its result |
| AiyaraSpec.InstallCustomDockerRun | libmachine/provision/aiyara.go:96-105 | no contract; `installCustomDocker` as the ignored stop, the cleanup whose build error alone is returned, then `InstallDockerFilesRun`; `InstallDockerCommands` states its result |
| AiyaraSpec.InstallDockerFilesRun | libmachine/provision/aiyara.go:107-137 | no contract; download, link and init script chained with early exits, then the start with its result dropped |
| AiyaraSpec.ClearedDriver | libmachine/provision/aiyara.go:152-156 | no contract; the driver after `ClearSSHPasswd` when the driver has that method, the driver unchanged otherwise |
| AiyaraSpec.ClearPasswordRun | libmachine/provision/aiyara.go:152-156 | no contract; always succeeds, and records the clear exactly when the driver has `ClearSSHPasswd` |
| AiyaraSpec.ProvisionRun | libmachine/provision/aiyara.go:140-175 | no contract; `Provision` as the early-exit chain of host name, public key, clear, then `ProvisionTail` on the cleared driver; `ProvisionRunIsSequence` and the `Provision*` lemmas state its result |
| AiyaraSpec.ProvisionTail | libmachine/provision/aiyara.go:158-174 | no contract; Docker installation, the wait for the daemon, `ConfigureAuth` and `configureSwarm`, each returning early on failure |
| AiyaraSpec.ProvisionedDriver | libmachine/provision/aiyara.go:144-156 | no contract; the driver cleared when host name and public key succeeded, unchanged when `Provision` returned before the clear; `ProvisionedHostUsesKeys` states what it builds |
| AiyaraSpec.GenerateDockerOptions | libmachine/provision/aiyara.go:224-235 | never fails; writes to /etc/default/docker a `DOCKER_OPTS` export that holds the default options then the unix and tcp host options with the port, and ends with the ARM label |
| AiyaraProperties.SetHostnameSingleCommand | libmachine/provision/aiyara.go:193-206 | `SetHostname` runs one command carrying its line and returns its status, or fails before running anything |
| AiyaraProperties.InstallPublicKeyOrder | libmachine/provision/aiyara.go:74-94 | with readable driver metadata: mkdir, then the key file read, then the append; the mkdir status never matters, a missing key file stops before the append |
| AiyaraProperties.InstallPublicKeyBuildFailure | libmachine/provision/aiyara.go:76-81 | a driver that cannot build commands fails the step with its error and nothing happens |
| AiyaraProperties.InstallDockerShape | libmachine/provision/aiyara.go:96-138 | for any six one-command steps shaped like these, a prefix of at least three commands runs in order, it succeeds exactly when all six run, and a download, link or init-script command fails exactly when it is the last one issued |
| AiyaraProperties.InstallDockerCommands | libmachine/provision/aiyara.go:96-138 | with readable driver metadata: stop, cleanup and download always run, in that order; a download, link or init-script command fails exactly when it is the last one issued, so the step stops right after the first of them that fails, with that command's error; stop, cleanup and start never decide the result |
| AiyaraProperties.InstallDockerBuildFailure | libmachine/provision/aiyara.go:96-105 | without buildable commands the stop is skipped silently and the cleanup's build error is returned, with nothing run |
| AiyaraProperties.SequenceOfSeven | libmachine/provision/aiyara.go:140-175 | seven steps in order are the steps chained one after another |
| AiyaraProperties.ProvisionRunIsSequence | libmachine/provision/aiyara.go:140-175 | `Provision` is its seven phases run in order, stopping at the first failure |
| AiyaraProperties.ProvisionStopsAtFirstFailure | libmachine/provision/aiyara.go:140-175 | `Provision` returns the first failing phase's error after the events of that phase and the ones before; no later phase runs |
| AiyaraProperties.ProvisionSucceeds | libmachine/provision/aiyara.go:140-175 | when every phase succeeds, `Provision` succeeds having done all of them in order |
| AiyaraProperties.ProvisionUnreadableMetadata | libmachine/provision/aiyara.go:144-146 | unreadable driver metadata fails `Provision` at its first command, before anything runs |
| AiyaraProperties.RanInModeConcat | libmachine/provision/aiyara.go:212-214 | two event lists that each use one credential use it together |
| AiyaraProperties.RunLineMode | libmachine/provision/aiyara.go:212-214 | a step's command uses the credential the driver's current state calls for, and no step clears the password |
| AiyaraProperties.AndThenKeeps | libmachine/provision/aiyara.go:144-172 | sequencing keeps "every command uses this credential" and "no clear here" |
| AiyaraProperties.InstallDockerMode | libmachine/provision/aiyara.go:96-138 | every Docker installation command uses the driver's expected credential |
| AiyaraProperties.TailMode | libmachine/provision/aiyara.go:158-172 | every command after the clear uses the credential of the driver as it then is |
| AiyaraProperties.HeadNoClear | libmachine/provision/aiyara.go:144-150 | setting the host name and installing the key never clear the password |
| AiyaraProperties.ClearRunEvents | libmachine/provision/aiyara.go:144-158 | the events of `Provision` around the clear, for any phase results |
| AiyaraProperties.ClearCount | libmachine/provision/aiyara.go:152-156 | the clear event appears once when the run got past the key and the driver can clear, and never otherwise |
| AiyaraProperties.ClearThenKeyMode | libmachine/provision/aiyara.go:152-158 | after a clear followed by key-mode commands, every command after the clear is key-based |
| AiyaraProperties.ClearOrder | libmachine/provision/aiyara.go:148-158 | the clear comes right after the public key's events, and all later commands are key-based |
| AiyaraProperties.ProvisionClearsPasswordOnce | libmachine/provision/aiyara.go:148-158 | `Provision` clears the password at most once, right after the key, only when it got that far and the driver can clear; every later command uses keys |
| AiyaraProperties.ProvisionedHostUsesKeys | libmachine/host_ext.go:10-30 | once `Provision` got past the public key on a driver that can clear, a host holding that driver builds only key-based commands |
| AiyaraProperties.DockerOptionsDistinguishPorts | libmachine/provision/aiyara.go:227 | different Docker ports give different engine option lines |
| Aiyara.AiyaraProvisioner.constructor | libmachine/provision/aiyara.go:23-30 | a new provisioner holds the driver, no OS release information, and has done nothing |
| Aiyara.AiyaraProvisioner.SSHCommand | libmachine/provision/aiyara.go:212-214 | resolves through the driver-level entry point on the current driver: expected credential, the line as the remote command, failures exactly when the driver's metadata fails |
| Aiyara.AiyaraProvisioner.Run | libmachine/provision/aiyara.go:47 | running a command records it and returns its exit status |
| Aiyara.AiyaraProvisioner.RunLine | libmachine/provision/aiyara.go:42-49 | builds and runs one line as `RunLine` describes |
| Aiyara.AiyaraProvisioner.Service | libmachine/provision/aiyara.go:39-52 | runs `service <name> <action>` and returns either failure |
| Aiyara.AiyaraProvisioner.Package | libmachine/provision/aiyara.go:54-57 | does nothing and succeeds |
| Aiyara.AiyaraProvisioner.DockerDaemonResponding | libmachine/provision/aiyara.go:59-72 | answers and records as `DockerDaemonResponding` describes |
| Aiyara.AiyaraProvisioner.InstallPublicKey | libmachine/provision/aiyara.go:74-94 | does and returns what `InstallPublicKeyRun` describes |
| Aiyara.AiyaraProvisioner.InstallCustomDocker | libmachine/provision/aiyara.go:96-105 | does and returns what `InstallCustomDockerRun` describes |
| Aiyara.AiyaraProvisioner.InstallDockerFiles | libmachine/provision/aiyara.go:107-137 | download, link and init script, each fatal, then the start, as `InstallDockerFilesRun` describes |
| Aiyara.AiyaraProvisioner.SetHostname | libmachine/provision/aiyara.go:193-206 | does and returns what `SetHostnameRun` describes |
| Aiyara.AiyaraProvisioner.Hostname | libmachine/provision/aiyara.go:177-191 | returns `HostnameResult` after running at most the one `hostname` command |
| Aiyara.AiyaraProvisioner.Provision | libmachine/provision/aiyara.go:140-175 | does and returns what `ProvisionRun` describes, and leaves the driver cleared exactly when it got past the key and the driver can clear |
| Aiyara.AiyaraProvisioner.ProvisionRemaining | libmachine/provision/aiyara.go:158-174 | the phases after the clear, as `ProvisionTail` describes |
| Aiyara.AiyaraProvisioner.GetDockerOptionsDir | libmachine/provision/aiyara.go:208-210 | always /etc/docker |
| Aiyara.AiyaraProvisioner.CompatibleWithHost | libmachine/provision/aiyara.go:216-219 | compatible exactly when the distribution is ubuntu, debian or aiyara |
| Aiyara.AiyaraProvisioner.SetOsReleaseInfo | libmachine/provision/aiyara.go:221-223 | stores the OS release information, or its absence for Go's nil |

## Left out

- Process execution: exit statuses, captured standard output and local file
  contents come from the `Environment` parameter. Inheriting the parent's
  stderr and stdout is recorded on the command but not performed.
- Aiyara.AiyaraProvisioner.Hostname: Go points the command's standard
  output at a buffer before running it. The model records the command as
  built, with standard output wired exactly when DEBUG is set, and takes
  the captured output from `Environment.stdout`.
- Logging (`log.Debugf`, `log.Info`, `log.Warn`) is left out; it has no
  effect on results.
- AiyaraSpec.WaitForDockerRun: the polling of `utils.WaitFor` is left out.
  The model makes one readiness probe, so it leaves out the number of
  attempts, the delay between them, and the one `docker version` command per
  attempt; a real timeout runs that command many times where the trace holds
  one. The timeout error text is not part of this model; `WaitTimeout`
  stands for it.
- `ConfigureAuth` and `configureSwarm` are not part of this model.
  `Provision` takes their outcomes as parameters and records that each was
  called.
- `getDefaultDaemonOpts` is not part of this model. `GenerateDockerOptions`
  takes its result as a parameter.
- `ssh.GetSSHCommand`, `getSSHCommandFromDriver` and `Host.getSSHCommand`,
  the key-based builders, are not part of this model. They are the opaque
  commands `KeyCmd`, `DriverDefaultCmd` and `HostDefaultCmd`. The two that
  can fail carry their outcome as the `keyBuild` field.
- `ClearSSHPasswd` and `GetSSHPasswd` belong to drivers that are not part of
  this model. A clear is taken to make the getter return the empty string.
- `pkgaction.ServiceAction.String` is not part of this model; the actions
  are taken to print as `start` and `stop`.
- AiyaraSpec.ServiceLine: `ServiceAction` has only `Start` and `Stop`, the
  two actions the provisioner uses. `Service` accepts any `pkgaction`
  action, such as a restart; the other actions are not modelled.
- The driver getters `GetSSHHostname`, `GetSSHPort`, `GetSSHUsername` and
  `GetSSHKeyPath` are called again for every command in Go. The `Driver`
  value fixes their answers, so each getter is taken to answer the same way
  on every call. `BuildFailsUniformly`, `InstallDockerBuildFailure` and
  `ProvisionUnreadableMetadata` rest on that.
- Aiyara.AiyaraProvisioner.Provision: the provisioner holds the driver as a
  value. In Go the provisioner and the `Host` share one driver object, so
  the clear is visible to later host-level commands. The model does not
  capture that sharing (aliasing). `ProvisionedHostUsesKeys` states its
  effect for a host given the driver `Provision` ends with.
- AiyaraSpec.SetHostnameLine: `%q` is modelled as plain double quotes,
  without Go's escaping of quotes, backslashes and control characters in the
  host name.
- Aiyara.AiyaraProvisioner.CompatibleWithHost: requires the OS release
  information to have been set; the Go code dereferences it unchecked
  otherwise.
- Ports are unbounded integers. Go's `int` width is not modelled; `%d`
  renders every value the same way.
- `init` registration, `GetDriver`, the `packages` list and the
  `SwarmOptions` field are left out; nothing in the core reads them.
- `Host.GetSSHCommand` reads the user name between the host name and the
  port. Reading it has no effect, so the model does not order it.
- Aiyara.AiyaraProvisioner.ProvisionRemaining and
  Aiyara.AiyaraProvisioner.InstallDockerFiles split single Go functions in
  two, to keep each proof small. Their bodies are consecutive parts of
  `Provision` and `installCustomDocker`.
