/**
 * Resolution of one inventory entry into the identity a JunosDevice is built from
 * (`parse_device_data` in python/utils/utils.py).
 */
module Inventory {
  import opened Wrappers
  import opened Text
  import opened Errors

  /**
   * One value of the inventory's `devices` mapping: either a mapping whose keys are looked up
   * with `.get` (an absent key and a null value both read as `None`), or anything else (a bare
   * scalar, or nothing at all), whose own value is `value`.
   */
  datatype Entry =
    | Mapping(name: Option<string>, ip: Option<string>, console: Option<string>,
              user: Option<string>, password: Option<string>)
    | Bare(value: Option<string>)

  /** A top-level key read with `data[key]`: a missing key raises `KeyError`, a present one may hold null. */
  datatype Key = Missing | Present(value: Option<string>)

  /** The parts of the loaded inventory that entry resolution reads. */
  datatype Fleet = Fleet(devices: map<string, Entry>, user: Key, password: Key)

  /** The tuple `(name, ip, console, user, password)`. */
  datatype Identity = Identity(name: string, ip: string, console: Option<string>,
                               user: Option<string>, password: Option<string>)

  /** `data[key]` for a top-level key. */
  function Index(k: Key): Result<Option<string>, Exc> {
    if k.Missing? then Err(KeyError) else Ok(k.value)
  }

  /** `per_device or data[key]`: the fleet default is only read when the per-device value is falsy. */
  function WithDefault(own: Option<string>, fleet: Key): Result<Option<string>, Exc> {
    if Truthy(own) then Ok(own) else Index(fleet)
  }

  /**
   * `parse_device_data(data, device)`. The caller passes a key of `data['devices']`.
   * A missing fleet-level `user` or `password` raises `KeyError` when it is needed.
   */
  function ParseDeviceData(data: Fleet, device: string): (r: Result<Identity, Exc>)
    requires device in data.devices
    // the error case: exactly when a needed fleet default is missing
    ensures r.Err? <==> match data.devices[device]
      case Mapping(_, _, _, u, p) => (!Truthy(u) && data.user.Missing?) || (!Truthy(p) && data.password.Missing?)
      case Bare(_) => data.user.Missing? || data.password.Missing?
    ensures r.Err? ==> r.error == KeyError
    // a mapping entry: per-device values take priority over fallbacks
    ensures r.Ok? && data.devices[device].Mapping? ==>
      var e, id := data.devices[device], r.value;
      && (Truthy(e.name) ==> id.name == e.name.value) && (!Truthy(e.name) ==> id.name == device)
      && (Truthy(e.ip) ==> id.ip == e.ip.value)
      && (!Truthy(e.ip) && Truthy(e.console) ==> id.ip == e.console.value)
      && (!Truthy(e.ip) && !Truthy(e.console) ==> id.ip == device)
      && id.console == e.console
      && (Truthy(e.user) ==> id.user == e.user) && (!Truthy(e.user) ==> id.user == data.user.value)
      && (Truthy(e.password) ==> id.password == e.password)
      && (!Truthy(e.password) ==> id.password == data.password.value)
    // a bare entry: the key is name, address and console, and the credentials are the fleet's
    ensures r.Ok? && data.devices[device].Bare? ==>
      r.value == Identity(device, device, Some(device), data.user.value, data.password.value)
  {
    match data.devices[device]
    case Mapping(n, i, c, u, p) =>
      var name := OrElse(n, device);
      var ip := OrElse(Or(i, c), device);
      (match WithDefault(u, data.user)
       case Err(e) => Err(e)
       case Ok(user) =>
         match WithDefault(p, data.password)
         case Err(e) => Err(e)
         case Ok(password) => Ok(Identity(name, ip, c, user, password)))
    case Bare(_) =>
      match Index(data.user)
      case Err(e) => Err(e)
      case Ok(user) =>
        match Index(data.password)
        case Err(e) => Err(e)
        case Ok(password) => Ok(Identity(device, device, Some(device), user, password))
  }

  /**
   * The address a JunosDevice connects to (`ip or console`) is never empty for a non-empty
   * device key: resolution always yields a non-empty `ip`, which takes precedence over `console`.
   */
  lemma ResolvedAddressUsed(data: Fleet, device: string)
    requires device in data.devices && device != ""
    requires ParseDeviceData(data, device).Ok?
    ensures var id := ParseDeviceData(data, device).value;
      id.ip != "" && Or(Some(id.ip), id.console) == Some(id.ip)
  {
  }

  /** The credentials an entry resolves to do not depend on its name, address or console fields. */
  lemma CredentialsIndependentOfAddress(data: Fleet, device: string, other: Entry)
    requires device in data.devices && data.devices[device].Mapping? && other.Mapping?
    requires other.user == data.devices[device].user && other.password == data.devices[device].password
    ensures var data' := data.(devices := data.devices[device := other]);
      var r, r' := ParseDeviceData(data, device), ParseDeviceData(data', device);
      r.Ok? == r'.Ok? && (r.Ok? ==> r.value.user == r'.value.user && r.value.password == r'.value.password)
  {
  }
}
