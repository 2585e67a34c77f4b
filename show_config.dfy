/**
 * The helpers of python/show_config.py: the credential fallback, the text collection and
 * index-aligned pairing of the `bgp_sessions` and `interfaces_list` tables, and the
 * `final_result` list every `show_config` call appends to. The connection rule it shares
 * with `JunosDevice` is `Transport.DevConnection`.
 */
module ShowConfig {
  import opened Wrappers
  import opened Text
  import opened Errors
  import opened Inventory
  import DeviceSpec

  // ---------------------------------------------------------------- credentials

  /** `data['devices'][device].get(field)` when the entry is truthy, failing on a truthy entry that is not a mapping. */
  function EntryField(e: Entry, field: Entry -> Option<string>): Result<Option<string>, Exc> {
    match e
    case Mapping(_, _, _, _, _) => Ok(field(e))
    case Bare(v) => if Truthy(v) then Err(AttributeError) else Ok(None)
  }

  /** The per-device value if truthy, otherwise the fleet-level one (a missing key raises `KeyError`). */
  function Fallback(own: Result<Option<string>, Exc>, fleet: Key): Result<Option<string>, Exc> {
    match own
    case Err(e) => Err(e)
    case Ok(v) => if Truthy(v) then Ok(v) else Index(fleet)
  }

  function UserOf(e: Entry): Option<string> { if e.Mapping? then e.user else None }
  function PasswordOf(e: Entry): Option<string> { if e.Mapping? then e.password else None }

  /**
   * `get_dev_user_passord(data, device)`: user, then password, each the entry's own value
   * when the entry and that value are truthy, the fleet default otherwise. A truthy entry
   * that is not a mapping has no `.get`.
   */
  function GetDevUserPassword(data: Fleet, device: string): (r: Result<(Option<string>, Option<string>), Exc>)
    requires device in data.devices
    ensures data.devices[device].Bare? && Truthy(data.devices[device].value) ==> r == Err(AttributeError)
    ensures data.devices[device].Mapping? ==>
      var e := data.devices[device];
      && (r.Ok? <==> (Truthy(e.user) || data.user.Present?) && (Truthy(e.password) || data.password.Present?))
      && (r.Ok? ==> r.value.0 == (if Truthy(e.user) then e.user else data.user.value))
      && (r.Ok? ==> r.value.1 == (if Truthy(e.password) then e.password else data.password.value))
    ensures r.Err? ==> r.error in {AttributeError, KeyError}
  {
    var e := data.devices[device];
    match Fallback(EntryField(e, UserOf), data.user)
    case Err(err) => Err(err)
    case Ok(user) =>
      match Fallback(EntryField(e, PasswordOf), data.password)
      case Err(err) => Err(err)
      case Ok(password) => Ok((user, password))
  }

  /**
   * The two tools resolve credentials alike except for one kind of entry: for a mapping, or
   * an empty bare entry, `get_dev_user_passord` succeeds exactly when `parse_device_data`
   * does, with the same user and password; a non-empty bare entry, which `parse_device_data`
   * accepts, makes `get_dev_user_passord` fail.
   */
  lemma CredentialsAgree(data: Fleet, device: string)
    requires device in data.devices
    ensures var e := data.devices[device];
      var p := ParseDeviceData(data, device);
      var q := GetDevUserPassword(data, device);
      && (!(e.Bare? && Truthy(e.value)) ==>
            && (q.Ok? <==> p.Ok?)
            && (q.Ok? ==> q.value == (p.value.user, p.value.password)))
      && (e.Bare? && Truthy(e.value) && p.Ok? ==> q.Err?)
  {
  }

  // ---------------------------------------------------------------- tables

  /** A collected text value: `text.replace('\n', '')`. */
  function Clean(s: string): (c: string)
    ensures c == Without(s, '\n')
    ensures '\n' !in c
    ensures forall x :: x != '\n' ==> (x in c <==> x in s)
  {
    RemoveAllChar(s, '\n');
    RemoveAllCharIsWithout(s, '\n');
    RemoveAll(s, "\n")
  }

  /** The loop collecting the texts of the nodes an XPath query selected. */
  method CollectTexts(nodes: seq<string>) returns (texts: seq<string>)
    ensures |texts| == |nodes|
    ensures forall i :: 0 <= i < |nodes| ==> texts[i] == Clean(nodes[i]) && '\n' !in texts[i]
  {
    texts := [];
    var i := 0;
    while i < |nodes|
      invariant 0 <= i <= |nodes|
      invariant |texts| == i
      invariant forall j :: 0 <= j < i ==> texts[j] == Clean(nodes[j])
    {
      texts := texts + [Clean(nodes[i])];
      i := i + 1;
    }
  }

  /** `pairs` is the BGP table for these peer addresses and states: one row per state, row i from the i-th of each. */
  predicate BgpTable(addresses: seq<string>, states: seq<string>, pairs: seq<(string, string)>)
    requires |states| <= |addresses|
  {
    |pairs| == |states| && forall i :: 0 <= i < |states| ==> pairs[i] == (Clean(addresses[i]), Clean(states[i]))
  }

  /**
   * `bgp_sessions(dev, device)`, the RPC's peer addresses and peer states given: a row per
   * state pairing it with the address at the same position; more states than addresses
   * runs off the address list.
   */
  method BgpSessions(addresses: seq<string>, states: seq<string>) returns (r: Result<seq<(string, string)>, Exc>)
    ensures r.Ok? <==> |states| <= |addresses|
    ensures r.Err? ==> r.error == IndexError
    ensures r.Ok? ==> BgpTable(addresses, states, r.value)
  {
    var neighbors := CollectTexts(addresses);
    var sessions := CollectTexts(states);
    var res: seq<(string, string)> := [];
    var i := 0;
    while i < |sessions|
      invariant 0 <= i <= |sessions|
      invariant i <= |neighbors|
      invariant |res| == i
      invariant forall j :: 0 <= j < i ==> res[j] == (neighbors[j], sessions[j])
    {
      if i >= |neighbors| {
        return Err(IndexError);
      }
      res := res + [(neighbors[i], sessions[i])];
      i := i + 1;
    }
    r := Ok(res);
  }

  /** `rows` is the interface table: one row per operational state, row i from the i-th name, admin and oper state. */
  predicate InterfaceTable(names: seq<string>, admins: seq<string>, opers: seq<string>, rows: seq<(string, string, string)>)
    requires |opers| <= |names| && |opers| <= |admins|
  {
    && |rows| == |opers|
    && forall i :: 0 <= i < |opers| ==> rows[i] == (Clean(names[i]), Clean(admins[i]), Clean(opers[i]))
  }

  /**
   * `interfaces_list(dev, device)`, the RPC's interface names, admin states and operational
   * states given: a row per operational state; a shorter name or admin list runs out.
   */
  method InterfacesList(names: seq<string>, admins: seq<string>, opers: seq<string>)
    returns (r: Result<seq<(string, string, string)>, Exc>)
    ensures r.Ok? <==> |opers| <= |names| && |opers| <= |admins|
    ensures r.Err? ==> r.error == IndexError
    ensures r.Ok? ==> InterfaceTable(names, admins, opers, r.value)
  {
    var intList := CollectTexts(names);
    var adminList := CollectTexts(admins);
    var operList := CollectTexts(opers);
    var res: seq<(string, string, string)> := [];
    var i := 0;
    while i < |operList|
      invariant 0 <= i <= |operList|
      invariant i <= |intList| && i <= |adminList|
      invariant |res| == i
      invariant forall j :: 0 <= j < i ==> res[j] == (intList[j], adminList[j], operList[j])
    {
      if i >= |intList| || i >= |adminList| {
        return Err(IndexError);
      }
      res := res + [(intList[i], adminList[i], operList[i])];
      i := i + 1;
    }
    r := Ok(res);
  }

  // ---------------------------------------------------------------- show_config

  /** The two queries the tool offers. */
  datatype Rpc = InterfacesListRpc | BgpSessionsRpc

  /** One device's table. */
  datatype Table = Interfaces(rows: seq<(string, string, string)>) | Bgp(pairs: seq<(string, string)>)

  /**
   * What the device does: opening, the replies of the two RPCs (the texts of the selected
   * nodes, in document order), and closing.
   */
  datatype ShowOracle = ShowOracle(open: DeviceSpec.Outcome,
                                   interfaces: DeviceSpec.Step<(seq<string>, seq<string>, seq<string>)>,
                                   bgp: DeviceSpec.Step<(seq<string>, seq<string>)>,
                                   close: DeviceSpec.Outcome)

  /** Whether `show_config` gets as far as appending a table: credentials, session and query all succeed. */
  predicate Reaches(data: Fleet, device: string, rpc: Rpc, o: ShowOracle)
    requires device in data.devices
  {
    && GetDevUserPassword(data, device).Ok?
    && o.open.Ok?
    && match rpc
       case InterfacesListRpc => o.interfaces.Returns?
         && |o.interfaces.value.2| <= |o.interfaces.value.0| && |o.interfaces.value.2| <= |o.interfaces.value.1|
       case BgpSessionsRpc => o.bgp.Returns? && |o.bgp.value.1| <= |o.bgp.value.0|
  }

  /** The directory `show_config` dumps its tables into. */
  const ShowDir: string := "dumped_files/show_config/"

  /** The query's name on the command line, which also ends the dump file's name. */
  function RpcName(rpc: Rpc): string {
    match rpc
    case InterfacesListRpc => "interfaces_list"
    case BgpSessionsRpc => "bgp_sessions"
  }

  /** The module-level `final_result` and the files the tables are dumped to. */
  class ShowRun {
    var finalResult: seq<Table>
    var written: seq<(string, Table)>

    constructor ()
      ensures finalResult == [] && written == []
    {
      finalResult := [];
      written := [];
    }

    /**
     * `show_config(data, device, rpc)`: resolves the credentials, opens a session, runs the
     * query, appends its table to `final_result`, dumps it to
     * `dumped_files/show_config/<device>.<rpc>` and closes the session. Any failure escapes
     * and is returned; a failure to close comes after the table was appended and dumped.
     */
    method ShowConfig(data: Fleet, device: string, rpc: Rpc, o: ShowOracle) returns (failure: Option<Exc>)
      requires device in data.devices
      modifies this
      ensures |finalResult| == |old(finalResult)| + (if Reaches(data, device, rpc, o) then 1 else 0)
      ensures finalResult[..|old(finalResult)|] == old(finalResult)
      ensures Reaches(data, device, rpc, o) ==>
        var t := finalResult[|old(finalResult)|];
        && written == old(written) + [(ShowDir + device + "." + RpcName(rpc), t)]
        && (rpc.BgpSessionsRpc? ==> t.Bgp? && BgpTable(o.bgp.value.0, o.bgp.value.1, t.pairs))
        && (rpc.InterfacesListRpc? ==>
              t.Interfaces? && InterfaceTable(o.interfaces.value.0, o.interfaces.value.1, o.interfaces.value.2, t.rows))
      ensures !Reaches(data, device, rpc, o) ==> written == old(written) && failure.Some?
      ensures failure.None? <==> Reaches(data, device, rpc, o) && o.close.Ok?
    {
      var creds := GetDevUserPassword(data, device);
      if creds.Err? {
        return Some(creds.error);
      }
      if o.open.Raise? {
        return Some(o.open.exc);
      }
      var res: Table;
      if rpc.InterfacesListRpc? {
        if o.interfaces.Raises? {
          return Some(o.interfaces.exc);
        }
        var (names, admins, opers) := o.interfaces.value;
        var rows := InterfacesList(names, admins, opers);
        if rows.Err? {
          return Some(rows.error);
        }
        res := Interfaces(rows.value);
      } else {
        if o.bgp.Raises? {
          return Some(o.bgp.exc);
        }
        var (addresses, states) := o.bgp.value;
        var pairs := BgpSessions(addresses, states);
        if pairs.Err? {
          return Some(pairs.error);
        }
        res := Bgp(pairs.value);
      }
      finalResult := finalResult + [res];
      written := written + [(ShowDir + device + "." + RpcName(rpc), res)];
      if o.close.Raise? {
        return Some(o.close.exc);
      }
      failure := None;
    }
  }
}
