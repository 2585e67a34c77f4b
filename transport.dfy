/**
 * How a device's connection parameters are chosen (`JunosDevice.dev_connection` and the
 * address selection in `JunosDevice.__init__`; `dev_connection` in python/show_config.py is
 * the same rule applied to the inventory key).
 */
module Transport {
  import opened Wrappers
  import opened Text

  /** NETCONF over SSH (the library's default), or a console server reached over telnet. */
  datatype Mode = Netconf | Telnet(port: string, attempts: nat)

  /** The arguments given to the device library's `Device(...)`. */
  datatype Connection = Connection(host: string, mode: Mode, user: Option<string>,
                                   password: Option<string>, gatherFacts: bool)

  /** `self.ip or self.console`: the address when it is set and non-empty, otherwise the console. */
  function TargetOf(ip: Option<string>, console: Option<string>): (t: Option<string>)
    ensures Truthy(ip) ==> t == ip
    ensures !Truthy(ip) ==> t == console
  {
    Or(ip, console)
  }

  /**
   * `dev_connection(name, ip, user, password)`: a ':' in the target selects telnet, with the
   * host before the first ':' and the port between the first and the second; otherwise the
   * whole target is the host. Facts are never gathered on open.
   */
  function DevConnection(target: string, user: Option<string>, password: Option<string>): (c: Connection)
    ensures c.mode.Telnet? <==> ':' in target
    ensures ':' !in target ==> c.host == target
    ensures c.mode.Telnet? ==> c.mode.attempts == 5
    ensures c.user == user && c.password == password && !c.gatherFacts
  {
    if ':' in target then
      var parts := Split(target, ':');
      SplitFirst(target, ':');
      Connection(parts[0], Telnet(parts[1], 5), user, password, false)
    else
      SplitFirst(target, ':');
      Connection(target, Netconf, user, password, false)
  }

  /**
   * With a ':' in the target, the host is the text before the first ':' and the port is the
   * text after it up to the next ':' or the end.
   */
  lemma TelnetHostPort(target: string, user: Option<string>, password: Option<string>)
    requires ':' in target
    ensures var c := DevConnection(target, user, password);
      var h, p := c.host, c.mode.port;
      && |h| < |target| && target[..|h|] == h && ':' !in h && target[|h|] == ':'
      && var rest := target[|h| + 1..];
      && |p| <= |rest| && rest[..|p|] == p && ':' !in p
      && (|p| == |rest| || rest[|p|] == ':')
  {
    var parts := Split(target, ':');
    SplitFirst(target, ':');
    var rest := target[|parts[0]| + 1..];
    SplitFirst(rest, ':');
    assert parts[1..] == Split(rest, ':');
    assert parts[1] == Split(rest, ':')[0];
    if ':' !in rest {
      assert Split(rest, ':') == [rest];
    }
  }
}
