/**
 * The `JunosDevice` class of python/utils/junosDevice.py as imperative code: the device it
 * talks to (`Remote`), the class attributes and local files every instance shares (`Host`),
 * and the instance itself. Each method is proved to do what its function in DeviceSpec
 * says, so the lemmas there are facts about these methods.
 */
module Junos {
  import opened Wrappers
  import opened Text
  import opened Errors
  import opened Transport
  import opened DeviceSpec
  import Paths

  /** The device behind a session: its configurations, the exclusive lock, its facts and what it was told to do. */
  class Remote {
    var running: Config
    var candidate: Config
    var locked: bool
    var facts: map<string, string>
    var actions: seq<Action>

    function State(): RemoteState
      reads this
    {
      RemoteState(running, candidate, locked, facts, actions)
    }

    /** A device running `running`, nothing staged, unlocked. */
    constructor (running: Config, facts: map<string, string>)
      ensures State() == RemoteState(running, running, false, facts, [])
    {
      this.running := running;
      this.candidate := running;
      this.locked := false;
      this.facts := facts;
      this.actions := [];
    }
  }

  /** The class attributes `dump_path`, `device_list_file` and `dir_name`, and the local file system. */
  class Host {
    var dumpPath: string
    var deviceListFile: string
    var dirName: Option<string>
    var dirs: set<string>
    var written: seq<(string, Dump)>

    function State(): HostState
      reads this
    {
      HostState(dumpPath, deviceListFile, dirName, dirs, written)
    }

    /** The attributes as a driver sets them before any device is handled. */
    constructor (dumpPath: string, deviceListFile: string)
      ensures State() == HostState(dumpPath, deviceListFile, None, {}, [])
    {
      this.dumpPath := dumpPath;
      this.deviceListFile := deviceListFile;
      this.dirName := None;
      this.dirs := {};
      this.written := [];
    }
  }

  class JunosDevice {
    const name: string
    const ip: Option<string>
    const console: Option<string>
    const user: Option<string>
    const password: Option<string>
    /** The `Device(...)` built by `dev_connection`; `open` says whether its session is open. */
    const dev: Connection
    var open: bool
    const remote: Remote
    const host: Host

    /** Everything an operation can observe or change, as DeviceSpec sees it. */
    function View(): World
      reads this, remote, host
    {
      World(open, remote.State(), host.State())
    }

    /**
     * `JunosDevice(name, user, password, ip, console)`: the session's parameters come from
     * `ip or console`, which must name a target.
     */
    constructor (name: string, user: Option<string>, password: Option<string>, ip: Option<string>,
                 console: Option<string>, remote: Remote, host: Host)
      requires TargetOf(ip, console).Some?
      ensures this.name == name && this.user == user && this.password == password
      ensures this.ip == ip && this.console == console
      ensures dev == DevConnection(TargetOf(ip, console).value, user, password)
      ensures !open && this.remote == remote && this.host == host
    {
      this.name := name;
      this.ip := ip;
      this.console := console;
      this.user := user;
      this.password := password;
      this.dev := DevConnection(Or(ip, console).value, user, password);
      this.open := false;
      this.remote := remote;
      this.host := host;
    }

    /** `connect()`: -1 on bad credentials, -2 on any other connection error, nothing on success. */
    method Connect(attempt: Outcome) returns (r: Step<Option<int>>)
      modifies this
      ensures (r, View()) == DeviceSpec.Connect(old(View()), attempt)
    {
      match attempt
      case Ok =>
        open := true;
        r := Returns(None);
      case Raise(e) =>
        if IsA(e, ConnectAuthError) {
          r := Returns(Some(-1));
        } else if IsA(e, ConnectError) {
          r := Returns(Some(-2));
        } else {
          r := Raises(e);
        }
    }

    /** `disconnect()`: a failure to close is swallowed and reported as -99. */
    method Disconnect(closed: Outcome) returns (r: Option<int>)
      modifies this
      ensures (r, View()) == DeviceSpec.Disconnect(old(View()), closed)
    {
      match closed
      case Ok =>
        open := false;
        r := None;
      case Raise(_) =>
        r := Some(-99);
    }

    /** `__create_dir(module_name)` at time `t`: makes the directory and returns its path. */
    method CreateDir(operation: string, t: string) returns (dir: string)
      modifies host
      ensures dir == DumpDir(old(host.State()), operation, t)
      ensures host.State() == old(host.State()).(dirs := old(host.dirs) + {DirName(dir)})
    {
      dir := Paths.CreatePath(host.dumpPath, operation, BaseName(host.deviceListFile), t);
      host.dirs := host.dirs + {DirName(dir)};
    }

    /** `write_to_file(file_name, contents)`. */
    method WriteToFile(fileName: string, contents: Dump)
      modifies host
      ensures host.State() == Write(old(host.State()), fileName, contents)
    {
      host.written := host.written + [(fileName, contents)];
    }

    /**
     * `get_config(form, conf_xpath)` at time `t`; the filter only reaches the RPC, whose reply
     * is the oracle's.
     */
    method GetConfig(form: string, o: Oracle, t: string) returns (code: int)
      modifies this, host
      ensures (code, View()) == GetConfigSpec(old(View()), name, form, o, t)
    {
      var dir := CreateDir("config", t);
      host.dirName := Some(dir);
      var c := Connect(o.open);
      if c.Raises? {
        return GetConfigCode(c.exc);
      }
      match o.getConfig
      case Raises(e) =>
        code := GetConfigCode(e);
      case Returns(doc) =>
        var contents := StripConfigTags(doc, form);
        var fileName := host.dirName.value + name + "." + form;
        WriteToFile(fileName, TextDump(contents));
        var _ := Disconnect(o.close);
        code := 0;
    }

    /** `get_facts(key)` at time `t`. */
    method GetFacts(key: Option<string>, o: Oracle, t: string) returns (code: int)
      modifies this, host
      ensures (code, View()) == GetFactsSpec(old(View()), name, key, o, t)
    {
      var c := Connect(o.open);
      if c.Raises? {
        return GetFactsCode(c.exc);
      }
      var dir := CreateDir("facts", t);
      host.dirName := Some(dir);
      var contents: map<string, string>;
      if Truthy(key) {
        if key.value !in remote.facts {
          return GetFactsCode(KeyError);
        }
        contents := map[key.value := remote.facts[key.value]];
      } else {
        contents := remote.facts;
      }
      if o.facts.Raise? {
        return GetFactsCode(o.facts.exc);
      }
      var fileName := host.dirName.value + name + "_facts";
      WriteToFile(fileName, FactsDump(contents));
      var _ := Disconnect(o.close);
      code := 0;
    }

    /**
     * `load_config(conf, env_file, config_file_dir, template_path, form, overwrite)`, the
     * configuration source's lines (or the exception reading it raises) being `load`.
     */
    method LoadConfig(envFile: Option<string>, configFileDir: Option<string>, templatePath: Option<string>,
                      form: string, overwrite: bool, load: Step<Config>) returns (r: Step<LoadReturn>)
      modifies remote
      ensures (r, remote.State()) == LoadConfigSpec(old(remote.State()),
        SelectSource(name, envFile, configFileDir, templatePath, form), overwrite, load)
    {
      if Truthy(configFileDir) || (Truthy(envFile) && Truthy(templatePath)) {
        // a file is loaded with the caller's overwrite flag, a rendered template is merged
        var action := if Truthy(configFileDir) && overwrite then Override else Merge;
        match load
        case Raises(e) =>
          r := if IsA(e, FileNotFoundError) then Returns(Code(-11)) else Raises(e);
        case Returns(lines) =>
          remote.candidate := Load(action, remote.candidate, lines);
          r := Returns(Staged);
      } else {
        r := Returns(Code(-11));
      }
    }

    /** The body of the `with Config(self.dev, mode="exclusive")` block. */
    method ConfigBlock(a: SetArgs, o: Oracle) returns (exit: BlockExit)
      requires host.dirName.Some?
      modifies remote, host
      ensures (exit, View()) == InBlock(old(View()), name, a, o)
    {
      var ret := LoadConfig(a.envFile, a.configFileDir, a.templatePath, a.form, a.overwrite, o.load);
      if ret.Raises? {
        return Raised(ret.exc);
      }
      if ret.value.Code? {
        return Returned(SetResult(ret.value.code, name, None));
      }
      if o.diff.Raise? {
        return Raised(o.diff.exc);
      }
      var diff := Diff(remote.running, remote.candidate);
      var code := if diff.None? then 0 else 1;
      var fileName := host.dirName.value + name + "." + a.form;
      WriteToFile(fileName, TextDump(if diff.None? then "None" else diff.value));
      if !a.dry {
        if o.commit.Raise? {
          return Raised(o.commit.exc);
        }
        remote.running := remote.candidate;
      }
      exit := Finished(code, fileName);
    }

    /** `set_config(env_file, config_file_dir, template_path, dry, form, overwrite)` at time `t`. */
    method SetConfig(a: SetArgs, o: Oracle, t: string) returns (r: SetResult)
      modifies this, remote, host
      ensures (r, View()) == SetConfigSpec(old(View()), name, a, o, t)
    {
      SetConfigStages(View(), name, a, o, t);
      var c := Connect(o.open);
      if c.Raises? {
        return Failed(name, c.exc);
      }
      var dir := CreateDir("delta", t);
      host.dirName := Some(dir);
      ghost var w2 := View();
      // entering the block takes the lock
      if remote.locked {
        return Failed(name, LockError);
      }
      if o.lock.Raise? {
        return Failed(name, o.lock.exc);
      }
      remote.locked := true;
      assert View() == w2.(remote := w2.remote.(locked := true));
      var exit := ConfigBlock(a, o);
      // leaving it releases the lock, whose failure replaces however the block was left
      if o.unlock.Raise? {
        exit := Raised(o.unlock.exc);
      } else {
        remote.locked := false;
      }
      ghost var w5 := View();
      match exit {
        case Finished(code, fileName) =>
          var _ := Disconnect(o.close);
          r := SetResult(code, name, Some(fileName));
        case Returned(result) =>
          r := result;
        case Raised(e) =>
          r := Failed(name, e);
      }
      assert (r, View()) == Conclude(w5, name, exit, o.close);
    }

    /**
     * `power_junos(power, t, dry)`, on a fresh session with the same parameters as `dev`
     * (that session's own state is not part of the world).
     */
    method PowerJunos(power: string, t: int, dry: bool, o: Oracle) returns (code: int)
      modifies remote
      ensures (code, remote.State()) == PowerSpec(old(remote.State()), power, t, dry, o)
    {
      if o.open.Raise? {
        return DeviceOpCode(o.open.exc);
      }
      if o.sw.Raise? {
        return DeviceOpCode(o.sw.exc);
      }
      if !dry {
        if power == "poweroff" {
          if o.poweroff.Raise? {
            return DeviceOpCode(o.poweroff.exc);
          }
          remote.actions := remote.actions + [PowerOff(t)];
        } else {
          if o.reboot.Raise? {
            return DeviceOpCode(o.reboot.exc);
          }
          remote.actions := remote.actions + [Reboot(t)];
        }
      }
      if o.close.Raise? {
        return DeviceOpCode(o.close.exc);
      }
      code := 0;
    }

    /** `upgrade_junos(dry, package, validate, checksum_algorithm, remote_path)`, on a fresh session. */
    method UpgradeJunos(dry: bool, package: string, validate: bool, checksumAlgorithm: string,
                        remotePath: string, o: Oracle) returns (code: int)
      modifies remote
      ensures (code, remote.State()) == UpgradeSpec(old(remote.State()), dry, package, validate, checksumAlgorithm, remotePath, o)
    {
      if o.open.Raise? {
        return DeviceOpCode(o.open.exc);
      }
      if !dry {
        if o.sw.Raise? {
          return DeviceOpCode(o.sw.exc);
        }
        if o.install.Raises? {
          return DeviceOpCode(o.install.exc);
        }
        if o.install.value {
          remote.actions := remote.actions + [Install(package, remotePath, validate, checksumAlgorithm)];
          if o.reboot.Raise? {
            return DeviceOpCode(o.reboot.exc);
          }
          remote.actions := remote.actions + [Reboot(0)];
        }
      }
      if o.close.Raise? {
        return DeviceOpCode(o.close.exc);
      }
      code := 0;
    }

    /** `zeroize_junos(dry)`, on a fresh session. */
    method ZeroizeJunos(dry: bool, o: Oracle) returns (code: int)
      modifies remote
      ensures (code, remote.State()) == ZeroizeSpec(old(remote.State()), dry, o)
    {
      if o.open.Raise? {
        return DeviceOpCode(o.open.exc);
      }
      if !dry {
        if o.sw.Raise? {
          return DeviceOpCode(o.sw.exc);
        }
        if o.zeroize.Raise? {
          return DeviceOpCode(o.zeroize.exc);
        }
        remote.actions := remote.actions + [Zeroize];
      }
      if o.close.Raise? {
        return DeviceOpCode(o.close.exc);
      }
      code := 0;
    }
  }
}
