/**
 * The exception kinds the core raises or catches, the class hierarchy that decides which
 * `except` clause catches which kind, and the handler chains of the JunosDevice operations.
 */
module Errors {

  /**
   * The most specific class of a raised exception. `ConnectError` stands for every
   * connection error other than an authentication failure (refused, timed out, closed, ...);
   * `RpcError` for every RPC error without a more specific class here.
   */
  datatype Exc =
    | ConnectAuthError | ConnectError
    | RpcError | LockError | UnlockError | CommitError | ConfigLoadError | RpcTimeoutError
    | RuntimeError | ValueError | KeyError | IndexError | AttributeError | FileNotFoundError
    | OtherError

  /** `isinstance(e, c)`: the device library derives its RPC errors from `RpcError` and its authentication error from `ConnectError`. */
  predicate IsA(e: Exc, c: Exc) {
    || e == c
    || (c == ConnectError && e == ConnectAuthError)
    || (c == RpcError && e in {LockError, UnlockError, CommitError, ConfigLoadError, RpcTimeoutError})
  }

  /** The handlers of `JunosDevice.get_config`, tried in order; `except Exception` gives -99. */
  function GetConfigCode(e: Exc): (code: int)
    ensures code in {-3, -4, -99}
  {
    if IsA(e, RpcError) then -3
    else if IsA(e, ValueError) then -4
    else -99
  }

  /** The handlers of `JunosDevice.get_facts`. */
  function GetFactsCode(e: Exc): (code: int)
    ensures code in {-6, -7, -99}
  {
    if IsA(e, KeyError) then -6
    else if IsA(e, RuntimeError) then -7
    else -99
  }

  /** The handlers of `JunosDevice.set_config`. */
  function SetConfigCode(e: Exc): (code: int)
    ensures code in {-7, -8, -9, -10, -12, -99}
  {
    if IsA(e, LockError) then -8
    else if IsA(e, CommitError) then -9
    else if IsA(e, ConfigLoadError) then -10
    else if IsA(e, RuntimeError) then -7
    else if IsA(e, RpcTimeoutError) then -12
    else -99
  }

  /** The handlers shared by `power_junos`, `upgrade_junos` and `zeroize_junos`. */
  function DeviceOpCode(e: Exc): (code: int)
    ensures code in {-1, -2, -7, -99}
  {
    if IsA(e, RuntimeError) then -7
    else if IsA(e, ConnectAuthError) then -1
    else if IsA(e, ConnectError) then -2
    else -99
  }

  /** `get_config`, kind by kind: every RPC error is a missing hierarchy (-3), a bad filter is -4, anything else -99. */
  lemma GetConfigCodes(e: Exc)
    ensures GetConfigCode(e) == (match e
      case RpcError | LockError | UnlockError | CommitError | ConfigLoadError | RpcTimeoutError => -3
      case ValueError => -4
      case _ => -99)
    ensures GetConfigCode(e) != 0
  {
  }

  /** `get_facts`: an absent fact is -6, a runtime error -7, anything else -99. */
  lemma GetFactsCodes(e: Exc)
    ensures GetFactsCode(e) == (match e case KeyError => -6 case RuntimeError => -7 case _ => -99)
  {
  }

  /** `set_config`'s taxonomy, kind by kind; an unlock failure or any other RPC error is -99. */
  lemma SetConfigCodes(e: Exc)
    ensures SetConfigCode(e) == (match e
      case LockError => -8
      case CommitError => -9
      case ConfigLoadError => -10
      case RuntimeError => -7
      case RpcTimeoutError => -12
      case _ => -99)
    ensures SetConfigCode(e) !in {0, 1, -11}
  {
  }

  /** Power, upgrade and zeroize: -7, -1 for bad credentials, -2 for any other connection error, else -99. */
  lemma DeviceOpCodes(e: Exc)
    ensures DeviceOpCode(e) == (match e
      case RuntimeError => -7
      case ConnectAuthError => -1
      case ConnectError => -2
      case _ => -99)
    ensures DeviceOpCode(e) != 0
  {
  }
}
