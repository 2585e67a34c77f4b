/**
 * The driver python/set_config.py around `JunosDevice.set_config`: choosing each device's
 * variables file, reading the overwrite flag, collecting the devices whose configuration
 * differed into `failed_results`, and building the escalation e-mail.
 */
module SetConfig {
  import opened Wrappers
  import opened Text
  import opened DeviceSpec

  // ---------------------------------------------------------------- arguments

  /** Where the per-device variables files live. */
  const EnvDir: string := "files/environment_variables/"

  /** The variables file that belongs to device `name`. */
  function DeviceEnvFile(name: string): string {
    EnvDir + name + ".yml"
  }

  /** The variables file shared by devices without their own. */
  const CommonEnvFile: string := EnvDir + "common.yml"

  /**
   * `get_env_file(name)`, `existing` being the files present: the device's own variables
   * file when it exists, otherwise the common one.
   */
  function GetEnvFile(name: string, existing: set<string>): (f: string)
    ensures DeviceEnvFile(name) in existing ==> f == DeviceEnvFile(name)
    ensures DeviceEnvFile(name) !in existing ==> f == CommonEnvFile
    ensures f in existing || f == CommonEnvFile
    ensures |f| > |EnvDir| && f[..|EnvDir|] == EnvDir
  {
    if DeviceEnvFile(name) in existing then DeviceEnvFile(name) else CommonEnvFile
  }

  /** The `--overwrite` argument: the string "True" turns overwriting on, anything else off. */
  function OverwriteFlag(arg: string): (overwrite: bool)
    ensures overwrite <==> arg == "True"
    ensures arg == "False" ==> !overwrite
  {
    if arg == "True" then true else false
  }

  /**
   * In the driver a variables file is always passed, so `set_config` finds no source only
   * when neither a configuration directory nor a template is configured.
   */
  lemma DriverAlwaysHasVariables(name: string, existing: set<string>, configFileDir: Option<string>,
                                 templatePath: Option<string>, form: string)
    ensures SelectSource(name, Some(GetEnvFile(name, existing)), configFileDir, templatePath, form) == NoSource
      <==> !Truthy(configFileDir) && !Truthy(templatePath)
  {
    var f := GetEnvFile(name, existing);
    assert f != [];
  }

  // ---------------------------------------------------------------- results

  /** An entry of `failed_results`: `[dev_name, file_name]`. */
  type Changed = (string, Option<string>)

  /** The entries `eval_results` adds for `results`, in order: the devices that returned 1. */
  function ChangedOf(results: seq<SetResult>): seq<Changed> {
    if results == [] then []
    else
      var last := results[|results| - 1];
      ChangedOf(results[..|results| - 1]) + (if last.ret == 1 then [(last.name, last.file)] else [])
  }

  /** An entry is collected exactly for a result with code 1, and carries its name and file. */
  lemma {:induction false} ChangedOfExactly(results: seq<SetResult>)
    ensures forall c :: c in ChangedOf(results) <==>
      exists i :: 0 <= i < |results| && results[i].ret == 1 && c == (results[i].name, results[i].file)
    ensures |ChangedOf(results)| <= |results|
  {
    if results != [] {
      var init := results[..|results| - 1];
      ChangedOfExactly(init);
      forall c | c in ChangedOf(results)
        ensures exists i :: 0 <= i < |results| && results[i].ret == 1 && c == (results[i].name, results[i].file)
      {
        if c in ChangedOf(init) {
          var i :| 0 <= i < |init| && init[i].ret == 1 && c == (init[i].name, init[i].file);
          assert results[i] == init[i];
        } else {
          assert results[|results| - 1].ret == 1;
        }
      }
      forall i | 0 <= i < |results| && results[i].ret == 1
        ensures (results[i].name, results[i].file) in ChangedOf(results)
      {
        if i < |init| {
          assert init[i] == results[i];
        }
      }
    }
  }

  /**
   * When every result carries a file exactly when its code is 0 or 1, as `set_config`
   * guarantees, every collected entry names an actual diff file.
   */
  lemma {:induction false} ChangedHaveFiles(results: seq<SetResult>)
    requires forall i :: 0 <= i < |results| ==> (results[i].file.Some? <==> results[i].ret in {0, 1})
    ensures forall c :: c in ChangedOf(results) ==> c.1.Some?
  {
    ChangedOfExactly(results);
  }

  /** Collecting the results of two batches is collecting each in turn. */
  lemma {:induction false} ChangedOfConcat(a: seq<SetResult>, b: seq<SetResult>)
    ensures ChangedOf(a + b) == ChangedOf(a) + ChangedOf(b)
    decreases |b|
  {
    if b == [] {
      assert a + b == a;
    } else {
      var b' := b[..|b| - 1];
      assert (a + b)[..|a + b| - 1] == a + b';
      ChangedOfConcat(a, b');
    }
  }

  // ---------------------------------------------------------------- escalation

  /** The message handed to the mailer: server, sender, recipient, subject, body and attachments. */
  datatype Mail = Mail(server: string, sender: string, recipient: string, subject: string,
                       body: string, attachments: seq<Option<string>>)

  /** The first words of the body. */
  const BodyIntro: string := "Diff detected for: "

  /** Each collected device name followed by four spaces, in order. */
  function Names(changed: seq<Changed>): string {
    if changed == [] then ""
    else Names(changed[..|changed| - 1]) + changed[|changed| - 1].0 + "    "
  }

  /** The names of two runs of entries, one after the other. */
  lemma {:induction false} NamesConcat(a: seq<Changed>, b: seq<Changed>)
    ensures Names(a + b) == Names(a) + Names(b)
    decreases |b|
  {
    if b == [] {
      assert a + b == a;
    } else {
      var b' := b[..|b| - 1];
      assert (a + b)[..|a + b| - 1] == a + b';
      NamesConcat(a, b');
    }
  }

  /** Entry `i`'s name appears after the names of the entries before it and before those after it. */
  lemma NameAt(changed: seq<Changed>, i: nat)
    requires i < |changed|
    ensures Names(changed) == Names(changed[..i]) + changed[i].0 + "    " + Names(changed[i + 1..])
  {
    var front := changed[..i + 1];
    assert changed == front + changed[i + 1..];
    NamesConcat(front, changed[i + 1..]);
    assert front[..|front| - 1] == changed[..i] && front[|front| - 1] == changed[i];
    assert Names(front) == Names(changed[..i]) + changed[i].0 + "    ";
  }

  /** The run's module-level state: `failed_results` and the addresses read from the inventory. */
  class SetConfigRun {
    var failedResults: seq<Changed>
    var fromEmail: Option<string>
    var toEmail: Option<string>

    constructor (fromEmail: Option<string>, toEmail: Option<string>)
      ensures failedResults == [] && this.fromEmail == fromEmail && this.toEmail == toEmail
    {
      failedResults := [];
      this.fromEmail := fromEmail;
      this.toEmail := toEmail;
    }

    /** `eval_results(ret, dev_name, file_name)`: only a device whose configuration differed is recorded. */
    method EvalResults(ret: int, devName: string, fileName: Option<string>)
      modifies this
      ensures failedResults == old(failedResults) + (if ret == 1 then [(devName, fileName)] else [])
      ensures fromEmail == old(fromEmail) && toEmail == old(toEmail)
    {
      if ret == 1 {
        failedResults := failedResults + [(devName, fileName)];
      } else if ret == 0 {
        // no difference: nothing to record
      } else {
        // an error: nothing to record
      }
    }

    /** The loop over completed `set_config` calls, in the order they complete. */
    method CollectResults(results: seq<SetResult>)
      modifies this
      ensures failedResults == old(failedResults) + ChangedOf(results)
      ensures fromEmail == old(fromEmail) && toEmail == old(toEmail)
    {
      var i := 0;
      while i < |results|
        invariant 0 <= i <= |results|
        invariant failedResults == old(failedResults) + ChangedOf(results[..i])
        invariant fromEmail == old(fromEmail) && toEmail == old(toEmail)
      {
        assert results[..i + 1][..i] == results[..i];
        var r := results[i];
        EvalResults(r.ret, r.name, r.file);
        i := i + 1;
      }
      assert results[..i] == results;
    }

    /**
     * `email_results(smtp_server)`: the message, when sender, recipient and server are all
     * set; its body names every recorded device in order and its attachments are their files.
     */
    method EmailResults(smtpServer: Option<string>) returns (mail: Option<Mail>)
      ensures mail.Some? <==> Truthy(fromEmail) && Truthy(toEmail) && Truthy(smtpServer)
      ensures mail.Some? ==>
        && mail.value.server == smtpServer.value
        && mail.value.sender == fromEmail.value && mail.value.recipient == toEmail.value
        && mail.value.subject == "jberry diff results"
        && mail.value.body == BodyIntro + Names(failedResults)
        && |mail.value.attachments| == |failedResults|
        && forall i :: 0 <= i < |failedResults| ==> mail.value.attachments[i] == failedResults[i].1
    {
      if !(Truthy(fromEmail) && Truthy(toEmail) && Truthy(smtpServer)) {
        return None;
      }
      var body := BodyIntro;
      var attachments: seq<Option<string>> := [];
      var i := 0;
      while i < |failedResults|
        invariant 0 <= i <= |failedResults|
        invariant body == BodyIntro + Names(failedResults[..i])
        invariant |attachments| == i
        invariant forall j :: 0 <= j < i ==> attachments[j] == failedResults[j].1
      {
        assert failedResults[..i + 1][..i] == failedResults[..i];
        body := body + failedResults[i].0 + "    ";
        attachments := attachments + [failedResults[i].1];
        i := i + 1;
      }
      assert failedResults[..i] == failedResults;
      mail := Some(Mail(smtpServer.value, fromEmail.value, toEmail.value, "jberry diff results", body, attachments));
    }

    /** The end of `main`: e-mail only when some device's configuration differed. */
    method Escalate(smtpServer: Option<string>) returns (mail: Option<Mail>)
      ensures mail.Some? <==> |failedResults| > 0 && Truthy(fromEmail) && Truthy(toEmail) && Truthy(smtpServer)
      ensures mail.Some? ==> mail.value.body == BodyIntro + Names(failedResults)
      ensures mail.Some? ==> |mail.value.attachments| == |failedResults|
      ensures mail.Some? ==> forall i :: 0 <= i < |failedResults| ==> mail.value.attachments[i] == failedResults[i].1
    {
      if |failedResults| > 0 {
        mail := EmailResults(smtpServer);
      } else {
        mail := None;
      }
    }
  }
}
