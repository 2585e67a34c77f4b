# jberry core, modelled in Dafny

jberry pushes configuration to, and reads state from, a fleet of Junos devices listed in
a YAML inventory. This project models its per-device logic:

- `JunosDevice` (python/utils/junosDevice.py) opens and closes sessions. It dumps the
  configuration or the facts, and loads a configuration from a file or a template into the
  candidate under the exclusive lock. It writes the diff, commits unless the run is dry, and
  powers off, reboots, upgrades or zeroizes a device. Every failure maps to a fixed integer code.
- `parse_device_data` (python/utils/utils.py) resolves an inventory entry to
  `(name, ip, console, user, password)`.
- `create_path` (python/utils/path.py) builds the dump directory of one run.
- The `set_config` driver (python/set_config.py) chooses the variables file and reads the
  overwrite flag. It collects the devices whose configuration differed and builds the
  escalation e-mail.
- The `show_config` tool (python/show_config.py) resolves credentials, pairs the parallel
  lists of the BGP and interface replies, and appends one table per device to `final_result`.

The device library is an oracle. Each call it makes (`open`, `close`, the `get_config` RPC,
gathering facts, lock, load, `diff`, `commit`, unlock and the software-utility calls)
either returns or raises one exception kind. Those kinds form the hierarchy of module
`Errors`, where `ConnectAuthError` is a `ConnectError` and the lock, unlock, commit, load and
timeout errors are `RpcError`s.

Module `DeviceSpec` gives each `JunosDevice` operation as a function over a value `World`,
which holds:

- the session flag;
- the device: running and candidate configuration, lock, facts and performed actions;
- the class attributes `dump_path`, `device_list_file` and `dir_name`;
- the local files.

Module `Junos` holds the class itself, whose fields its methods update in place. Each method
is proved to produce exactly the result and the new state of its `DeviceSpec` function, so
the lemmas about those functions hold for the methods. The drivers' module-level lists
(`failed_results`, `final_result`) are fields of the classes `SetConfig.SetConfigRun` and
`ShowConfig.ShowRun`.

Every time-dependent value, including the formatted time in `create_path` and the existence
of a variables file, is a parameter.

## Model

| member | source | states |
|---|---|---|
| Inventory.ParseDeviceData | python/utils/utils.py:2-15 | For a mapping entry, each field is the entry's own truthy value, else its fallback: the key for the name; console, then the key, for the address; the fleet default for the credentials. The console is the entry's own. A bare entry is key/key/key with the fleet credentials. KeyError exactly when a needed fleet default is missing |
| Inventory.ResolvedAddressUsed | python/utils/utils.py:5 | For a non-empty key the resolved address is never empty, so `ip or console` always picks it |
| Inventory.CredentialsIndependentOfAddress | python/utils/utils.py:7-8 | The resolved credentials depend only on the entry's user and password fields |
| Paths.CreatePathLayout | python/utils/path.py:3-9 | The dump directory is the base path, "/dumped_files/", the operation and '/', the list file, '_', the time string and a final '/': its length and the position of every segment, including the list file's |
| Paths.MakeDirsTarget | python/utils/path.py:7 | The directory handed to `makedirs` is the result without its trailing '/' |
| Paths.DistinctTimes | python/utils/path.py:4-6 | Different time strings give different directories |
| Paths.OperationsSeparated | python/utils/junosDevice.py:68-69 | The 'config', 'facts' and 'delta' directories never coincide |
| Text.BaseName | python/utils/junosDevice.py:69 | `os.path.basename`: a '/'-free suffix of the path |
| Text.BaseNameAfterLastSlash | python/utils/junosDevice.py:69 | The base name is the whole path, or starts just behind a '/': everything after the last '/' |
| Text.SplitFirst | python/utils/junosDevice.py:62-63 | `split(':')[0]` is the longest ':'-free prefix; with a ':' present the remaining pieces split what follows it |
| Text.RemoveAllChar | python/show_config.py:50 | `replace('\n', '')` leaves no newline and keeps exactly the characters other than newline that occur |
| Text.RemoveAllCharIsWithout | python/show_config.py:50 | Deleting one character equals an independent filter that drops it: every other character stays, in order and with its multiplicity |
| Transport.TargetOf | python/utils/junosDevice.py:32 | The target is `ip` when truthy, otherwise `console` |
| Transport.DevConnection | python/utils/junosDevice.py:58-66 | Telnet with 5 attempts exactly when the target holds ':'; otherwise the whole target is the host; credentials passed through; facts never gathered |
| Transport.TelnetHostPort | python/show_config.py:38-43 | With a ':' the host is the text before the first ':', and the port is the text between it and the next ':' or the end |
| Errors.GetConfigCode | python/utils/junosDevice.py:94-102 | `get_config`'s handlers yield -3, -4 or -99 |
| Errors.GetConfigCodes | python/utils/junosDevice.py:94-102 | Kind by kind: RpcError and each of its subclasses is -3, ValueError -4, every other kind -99; never 0 |
| Errors.GetFactsCode | python/utils/junosDevice.py:122-130 | `get_facts`'s handlers yield -6, -7 or -99 |
| Errors.GetFactsCodes | python/utils/junosDevice.py:122-130 | KeyError is -6, RuntimeError is -7, anything else is -99 |
| Errors.SetConfigCode | python/utils/junosDevice.py:182-199 | `set_config`'s handlers yield one of -7, -8, -9, -10, -12, -99 |
| Errors.SetConfigCodes | python/utils/junosDevice.py:182-199 | LockError -8, CommitError -9, ConfigLoadError -10, RuntimeError -7, RpcTimeoutError -12, else -99; never 0, 1 or -11 |
| Errors.DeviceOpCode | python/utils/junosDevice.py:220-231 | The device operations' handlers yield -1, -2, -7 or -99 |
| Errors.DeviceOpCodes | python/utils/junosDevice.py:246-257 | RuntimeError -7, bad credentials -1, other connection errors -2, else -99; never 0 |
| DeviceSpec.LoadKeeps | python/utils/junosDevice.py:137-143 | After a load the candidate holds every loaded line; a merge keeps the old candidate as its prefix and adds only loaded lines |
| DeviceSpec.LoadIdempotent | python/set_config.py:9 | Loading the same lines twice gives the candidate of loading them once |
| DeviceSpec.Diff | python/utils/junosDevice.py:164-169 | `diff()` is None exactly when candidate equals running; a diff text is never empty and never the string "None" |
| DeviceSpec.StripWrapper | python/utils/junosDevice.py:86-87 | A reply wrapped in `<configuration-F>`…`</configuration-F>` is dumped as exactly the text between the tags, provided neither the text nor the format contains '<' (a text-format reply comes back XML-escaped, so its body holds no '<') |
| DeviceSpec.GetConfigOutcomes | python/utils/junosDevice.py:79-102 | Codes 0, -3, -4, -99. `dir_name` is always the 'config' directory. 0 exactly when the RPC answers and opening did not escape; then exactly one file `<dir><name>.<form>` with the stripped reply is written, otherwise nothing. The device is untouched |
| DeviceSpec.GetConfigIgnoresConnect | python/utils/junosDevice.py:84-93 | The `connect()` result is ignored: after an open that failed on bad credentials, an RPC the oracle lets answer still gives 0 with the session closed |
| DeviceSpec.GetConfigFailureCodes | python/utils/junosDevice.py:79-102 | An escaping open is handled by its kind; otherwise an exception from the query is handled by its kind: any RPC error is -3, a bad filter -4, and every other exception -99 (so an RPC refused with a connection error after a failed open is -99) |
| DeviceSpec.GetFactsOutcomes | python/utils/junosDevice.py:104-130 | Codes 0, -6, -7, -99. An unknown key is -6 with nothing written. 0 exactly when reached, key known and facts gathered; then the dump `<dir><name>_facts` holds exactly that fact, or all facts without a key |
| DeviceSpec.GetFactsFailureCodes | python/utils/junosDevice.py:122-130 | A failing open maps through the handlers; a RuntimeError from the open or from gathering facts is -7; any other error from gathering facts (not KeyError, not RuntimeError) is -99 |
| DeviceSpec.SelectSource | python/utils/junosDevice.py:134-147 | The configuration directory wins, giving `<dir>/<name>.<form>`; else a template needs both the variables file and the template; no source otherwise |
| DeviceSpec.LoadConfigOutcomes | python/utils/junosDevice.py:132-150 | Only the candidate changes. -11 exactly when there is no source or the file is not found. A staged load holds every loaded line. Other failures escape unchanged |
| DeviceSpec.InBlockOutcomes | python/utils/junosDevice.py:158-177 | The block finishes exactly when it reaches the diff and any commit succeeds, with code 0 iff nothing changed. It returns early only with (-11, name, None). It writes the diff iff reached and commits the staged candidate only when not dry |
| DeviceSpec.SetConfigTaxonomy | python/utils/junosDevice.py:152-199 | The result always names the device. The code is 0, 1, -11 or a handler code. A file comes back exactly with 0/1 and is `<dir><name>.<form>`. 0/1 implies the diff was reached and unlock/commit succeeded. Only such runs close the session |
| DeviceSpec.SetConfigMissingSource | python/utils/junosDevice.py:161-163 | With no source nothing is written or committed and no file is returned. -11 exactly when open, lock and unlock pass. Then the lock is released but the session is not closed |
| DeviceSpec.SetConfigPersistsDiff | python/utils/junosDevice.py:164-172 | Once the diff is reached, exactly one file is written, holding "None" or the diff, whatever commit and unlock do. Before that, nothing is written |
| DeviceSpec.SetConfigReportsChange | python/utils/junosDevice.py:164-169 | A returned 0 or 1 says whether the staged candidate differed from the running configuration |
| DeviceSpec.SetConfigDryRun | python/utils/junosDevice.py:173-177 | A dry run never changes the running configuration |
| DeviceSpec.SetConfigCommits | python/utils/junosDevice.py:173-181 | Any change to running comes from a commit the device accepted, on a non-dry run that reached the diff |
| DeviceSpec.SetConfigCommitted | python/utils/junosDevice.py:173-181 | A non-dry run returning 0 or 1 leaves running equal to the candidate |
| DeviceSpec.InBlockFailures | python/utils/junosDevice.py:158-174 | A missing configuration file returns (-11, name, None); any other load failure, a failing `diff()` and a rejected commit leave the block by raising their error |
| DeviceSpec.SetConfigEntryCodes | python/utils/junosDevice.py:152-199 | An escaping open is handled by its kind (RuntimeError -7); a device already locked is -8; a refused lock is handled by its kind |
| DeviceSpec.SetConfigRaised | python/utils/junosDevice.py:158-199 | When the block raises an exception, `set_config` reports it through its handlers, unless the lock's release fails, whose exception is reported instead |
| DeviceSpec.SetConfigReturned | python/utils/junosDevice.py:158-163 | When the block returns early, `set_config` returns that result, unless the lock's release fails, whose exception is reported instead |
| DeviceSpec.SetConfigUnlockFailure | python/utils/junosDevice.py:158-199 | Once the lock is taken, a failed release is reported through the handlers whatever the block did |
| DeviceSpec.SetConfigDiffFailure | python/utils/junosDevice.py:158-199 | A failing `diff()` is reported by its kind (a timeout is -12), unless the release fails |
| DeviceSpec.SetConfigMissingFile | python/utils/junosDevice.py:148-163 | A missing configuration file gives (-11, name, None) when the release succeeds, and running is unchanged |
| DeviceSpec.SetConfigLoadFailure | python/utils/junosDevice.py:158-190 | A source failing to load with ConfigLoadError is -10 when the release succeeds; otherwise the release's failure decides the code |
| DeviceSpec.SetConfigCommitFailure | python/utils/junosDevice.py:173-187 | A rejected commit is -9 when the release succeeds; otherwise the release's failure decides the code |
| DeviceSpec.SetConfigUnlockMasksCommit | python/utils/junosDevice.py:158-199 | A rejected commit followed by an UnlockError is -99, not -9 |
| DeviceSpec.SetConfigReleasesLock | python/utils/junosDevice.py:158 | The lock stays held only if it already was or the release failed |
| DeviceSpec.SetConfigIdempotent | python/set_config.py:9 | A committed push followed by the same push: the first returns 0/1, the second 0, and running stays as the first left it |
| DeviceSpec.PowerOutcomes | python/utils/junosDevice.py:259-287 | Codes 0, -1, -2, -7, -99. A dry run acts on nothing. Otherwise poweroff for "poweroff" and reboot for anything else, in `t` minutes. 0 exactly when every call succeeds, and then the action happened. Configuration and lock are untouched |
| DeviceSpec.UpgradeOutcomes | python/utils/junosDevice.py:201-231 | A reboot happens exactly after an install that reports success and only on a real run; a dry run does neither. 0 exactly when open and close succeed and, on a real run, the utility succeeds, the install call returns (a reported failure still gives 0, without a reboot) and any reboot succeeds |
| DeviceSpec.ZeroizeOutcomes | python/utils/junosDevice.py:233-257 | A zeroize happens exactly on a real run whose calls succeed; 0 exactly when open and close succeed and, on a real run, the zeroize does |
| DeviceSpec.DeviceOpFailureCodes | python/utils/junosDevice.py:204-287 | In power, upgrade and zeroize a failed open leaves the device untouched and is -1 for bad credentials, -2 for other connection errors, -7 for a runtime error; a runtime error building the utility on a real run is -7 |
| Junos.JunosDevice.constructor | python/utils/junosDevice.py:26-32 | Stores the five fields; the session's parameters come from `ip or console`; the session starts closed |
| Junos.JunosDevice.Connect | python/utils/junosDevice.py:37-45 | Result and new state are those of `DeviceSpec.Connect`: -1, -2 or open, other exceptions escape |
| Junos.JunosDevice.Disconnect | python/utils/junosDevice.py:47-52 | Closes, or swallows the failure as -99 |
| Junos.JunosDevice.CreateDir | python/utils/junosDevice.py:68-69 | Returns the `create_path` directory for the list file's base name and creates it |
| Junos.JunosDevice.WriteToFile | python/utils/junosDevice.py:71-75 | Appends exactly one file write |
| Junos.JunosDevice.GetConfig | python/utils/junosDevice.py:79-102 | Result and new state equal `GetConfigSpec`, so GetConfigOutcomes holds of it |
| Junos.JunosDevice.GetFacts | python/utils/junosDevice.py:104-130 | Result and new state equal `GetFactsSpec`, so GetFactsOutcomes holds of it |
| Junos.JunosDevice.LoadConfig | python/utils/junosDevice.py:132-150 | Result and new device state equal `LoadConfigSpec` of the selected source |
| Junos.JunosDevice.ConfigBlock | python/utils/junosDevice.py:158-177 | Exit and new state equal `InBlock` |
| Junos.JunosDevice.SetConfig | python/utils/junosDevice.py:152-199 | Result and new state equal `SetConfigSpec`, so every SetConfig lemma holds of it |
| Junos.JunosDevice.PowerJunos | python/utils/junosDevice.py:259-287 | Code and new device state equal `PowerSpec` |
| Junos.JunosDevice.UpgradeJunos | python/utils/junosDevice.py:201-231 | Code and new device state equal `UpgradeSpec` |
| Junos.JunosDevice.ZeroizeJunos | python/utils/junosDevice.py:233-257 | Code and new device state equal `ZeroizeSpec` |
| SetConfig.GetEnvFile | python/set_config.py:44-48 | The device's own variables file when it exists, otherwise common.yml; always under files/environment_variables/ |
| SetConfig.OverwriteFlag | python/set_config.py:59-62 | Overwrite is on exactly for the string "True" |
| SetConfig.DriverAlwaysHasVariables | python/set_config.py:75-77 | With the driver's variables file, `set_config` lacks a source exactly when neither a configuration directory nor a template is set |
| SetConfig.ChangedOfExactly | python/set_config.py:78-80 | An entry is collected exactly for a result with code 1, carrying its name and file |
| SetConfig.ChangedHaveFiles | python/set_config.py:78-80 | Given `set_config`'s taxonomy, every collected entry names a diff file |
| SetConfig.ChangedOfConcat | python/set_config.py:78-80 | Collecting two batches is collecting each in turn |
| SetConfig.NamesConcat | python/set_config.py:91-92 | The body's names for two runs of entries are concatenated |
| SetConfig.NameAt | python/set_config.py:91-92 | Entry i's name, followed by four spaces, sits between the names before it and those after it |
| SetConfig.SetConfigRun.constructor | python/set_config.py:23-25 | `failed_results` starts empty |
| SetConfig.SetConfigRun.EvalResults | python/set_config.py:99-106 | Appends `[dev_name, file_name]` exactly when ret is 1; otherwise nothing changes |
| SetConfig.SetConfigRun.CollectResults | python/set_config.py:78-80 | `failed_results` grows by exactly the code-1 results, in completion order |
| SetConfig.SetConfigRun.EmailResults | python/set_config.py:87-97 | A mail exactly when sender, recipient and server are truthy. The body is "Diff detected for: " plus each name and four spaces, in order. The attachments are the files, index-aligned |
| SetConfig.SetConfigRun.Escalate | python/set_config.py:83-85 | A mail exactly when some device differed and mailing is configured; its body lists the changed devices and attachment i is device i's diff file |
| ShowConfig.GetDevUserPassword | python/show_config.py:27-36 | User and password each come from the entry when it and the field are truthy, else from the fleet. A missing fleet key is KeyError; a truthy non-mapping entry is AttributeError |
| ShowConfig.CredentialsAgree | python/show_config.py:27-36 | Same credentials as `parse_device_data` except on a non-empty bare entry, where this one fails |
| ShowConfig.Clean | python/show_config.py:50 | A collected text is the node's text with every '\n' dropped and every other character kept, in order |
| ShowConfig.CollectTexts | python/show_config.py:49-50 | One cleaned text per node, in order |
| ShowConfig.BgpSessions | python/show_config.py:45-62 | One pair per peer state, pair i = (address i, state i). IndexError exactly when states outnumber addresses |
| ShowConfig.InterfacesList | python/show_config.py:64-86 | One triple per oper state, index-aligned with names and admin states. IndexError exactly when either of those lists is shorter |
| ShowConfig.ShowRun.constructor | python/show_config.py:17 | `final_result` starts empty |
| ShowConfig.ShowRun.ShowConfig | python/show_config.py:88-102 | Exactly one table is appended, and dumped to `dumped_files/show_config/<device>.<rpc>`, when credentials, open and query succeed; otherwise nothing is. A failure escapes, including a close failure after the dump |

## Left out

- The command-line drivers and `main` of python/set_config.py and python/show_config.py
  (argparse, YAML loading, the thread pool) are left out because they are plumbing. Only the
  sequential collection of completed results and the final escalation are modelled.
- Concurrency is left out: threads share `JunosDevice.dir_name`, which another device's
  call may overwrite between `__create_dir` and the use of `dir_name`. Each model operation
  runs alone.
- The device library, lxml, json and yaml internals are left out; only their outcomes are
  modelled, as oracle entries. A load is modelled as replacing the candidate's lines (overwrite)
  or adding the missing ones (merge and template).
- DeviceSpec.DiffText: the text of a non-empty diff is a stand-in rendering. Only its
  being non-empty and different from "None" is used.
- Device-library outcomes do not depend on whether the session opened. `get_config`,
  `get_facts` and `set_config` ignore a failed `connect()`, and the oracle may then still let
  an RPC, the lock or the facts answer. The real library refuses calls on an unopened session
  with a connection error, which `get_config` and `get_facts` report as -99
  (DeviceSpec.GetConfigFailureCodes states that case for `get_config`). In `set_config` the
  first call on the session is the exclusive lock, whose refusal may surface as a LockError (-8).
  DeviceSpec.GetConfigIgnoresConnect and DeviceSpec.ReachesDiff rest on this freedom.
- DeviceSpec.GetConfigSpec: the XPath filter is not modelled. The RPC's reply, or its
  RpcError or ValueError, is the oracle's.
- Junos.JunosDevice.WriteToFile: the error branch of `write_to_file` is not modelled,
  because it names undefined variables and would itself raise. Writes always succeed.
- `os.makedirs` failures in `create_path` are not modelled; the created directory is only
  recorded. In `show_config` the `makedirs` of the dump directory is not modelled at all.
- Junos.JunosDevice.constructor: requires `ip or console` to name a target. The source
  fails with a TypeError inside `dev_connection` otherwise, which the model does not represent.
- ShowConfig.ShowRun.ShowConfig: the session parameters from `dev_connection` are not recorded
  (Transport.DevConnection states them). A text node without text, which would raise an
  AttributeError, is not modelled.
- SetConfig.SetConfigRun.EmailResults: sending the mail (python/utils/j_email.py) is not
  modelled. The method returns the message it would send.
- The JSON rendering of facts and the `str()` rendering of show tables are not modelled.
  The dump records the facts map or the table itself.
- The order in which `get_facts` gathers facts, and the logging, are not modelled.
- In the inventory, a key that is present but null and a key that is absent inside a
  device mapping are not distinguished, since `.get` reads both as `None`.
- Clock readings are parameters (`t`), as is which variables files exist.
