/**
 * The `detox test` command's runner (TestRunnerCommand.js): the environment
 * handed to the test runner, built from the CLI configuration and the process
 * environment, and the retry loop around the runner.
 *
 * Spawning the runner (`_doExecute`, `_buildSpawnArguments`) is an oracle: given
 * the test session index and the files to run, it passes, or fails with an
 * error and the per-file results the session collected.
 */
module TestRunner {
  import opened Wrappers
  import opened Values
  import opened Text

  const ForceAdbInstallKey := "DETOX_FORCE_ADB_INSTALL"
  const ConfigSnapshotPathKey := "DETOX_CONFIG_SNAPSHOT_PATH"
  const DetoxPrefix := "DETOX_"
  const AndroidPrefix := "android."

  /** Each environment variable `replicateCLIConfig` fills and the CLI option it comes from, except `DETOX_FORCE_ADB_INSTALL`. */
  const EnvFields: map<string, string> := map[
    DetoxPrefix + "APP_LAUNCH_ARGS" := "appLaunchArgs",
    DetoxPrefix + "ARTIFACTS_LOCATION" := "artifactsLocation",
    DetoxPrefix + "CAPTURE_VIEW_HIERARCHY" := "captureViewHierarchy",
    DetoxPrefix + "CLEANUP" := "cleanup",
    DetoxPrefix + "CONFIGURATION" := "configuration",
    DetoxPrefix + "CONFIG_PATH" := "configPath",
    DetoxPrefix + "DEBUG_SYNCHRONIZATION" := "debugSynchronization",
    DetoxPrefix + "DEVICE_BOOT_ARGS" := "deviceBootArgs",
    DetoxPrefix + "DEVICE_NAME" := "deviceName",
    DetoxPrefix + "GPU" := "gpu",
    DetoxPrefix + "HEADLESS" := "headless",
    DetoxPrefix + "KEEP_LOCKFILE" := "keepLockFile",
    DetoxPrefix + "LOGLEVEL" := "loglevel",
    DetoxPrefix + "READ_ONLY_EMU" := "readonlyEmu",
    DetoxPrefix + "RECORD_LOGS" := "recordLogs",
    DetoxPrefix + "RECORD_PERFORMANCE" := "recordPerformance",
    DetoxPrefix + "RECORD_VIDEOS" := "recordVideos",
    DetoxPrefix + "REPORT_SPECS" := "jestReportSpecs",
    DetoxPrefix + "RETRIES" := "retries",
    DetoxPrefix + "REUSE" := "reuse",
    DetoxPrefix + "TAKE_SCREENSHOTS" := "takeScreenshots",
    DetoxPrefix + "USE_CUSTOM_LOGGER" := "useCustomLogger"]

  const ForceAdbInstallField := "forceAdbInstall"

  /**
   * `_.omitBy({...}, _.isUndefined)` over a variable-to-option table: an option
   * that is absent is `undefined` and its variable is dropped; an option set to
   * `null` is kept.
   */
  function DefinedFields(fields: map<string, string>, cli: map<string, Value>): (r: map<string, Value>)
    ensures forall k :: k in r <==> k in fields && fields[k] in cli
    ensures forall k :: k in r ==> r[k] == cli[fields[k]]
  {
    map k | k in fields && fields[k] in cli :: cli[fields[k]]
  }

  /** Every variable of the table is a `DETOX_` variable, and none is `DETOX_FORCE_ADB_INSTALL`. */
  lemma EnvFieldKeys()
    ensures forall k :: k in EnvFields ==> StartsWith(k, DetoxPrefix)
    ensures ForceAdbInstallKey !in EnvFields
  {
    forall k | k in EnvFields
      ensures StartsWith(k, DetoxPrefix)
    {
      var suffix := k[|DetoxPrefix|..];
      assert k == DetoxPrefix + suffix;
    }
  }

  /** `_cli2env`: the table's defined options, and `forceAdbInstall` only for Android devices. */
  function CliToEnv(cli: map<string, Value>, deviceType: string): (r: map<string, Value>)
    ensures forall k :: k in r && k != ForceAdbInstallKey <==> k in EnvFields && EnvFields[k] in cli
    ensures forall k :: k in r && k != ForceAdbInstallKey ==> r[k] == cli[EnvFields[k]]
    ensures ForceAdbInstallKey in r <==> StartsWith(deviceType, AndroidPrefix) && ForceAdbInstallField in cli
    ensures ForceAdbInstallKey in r ==> r[ForceAdbInstallKey] == cli[ForceAdbInstallField]
    ensures forall k :: k in r ==> StartsWith(k, DetoxPrefix)
  {
    EnvFieldKeys();
    var fields := DefinedFields(EnvFields, cli);
    if StartsWith(deviceType, AndroidPrefix) && ForceAdbInstallField in cli then
      fields[ForceAdbInstallKey := cli[ForceAdbInstallField]]
    else fields
  }

  /** Whether an upper-cased environment variable goes into the hint. */
  predicate HintKey(k: string) {
    StartsWith(k, DetoxPrefix) && k != ConfigSnapshotPathKey
  }

  /**
   * `_envHint` from the process environment, given as its entries in
   * enumeration order: keys upper-cased, only `DETOX_` keys, without
   * `DETOX_CONFIG_SNAPSHOT_PATH`.
   */
  function EnvHint(env: seq<(string, string)>): map<string, Value>
    decreases |env|
  {
    if |env| == 0 then map[]
    else
      var key := Upper(env[|env| - 1].0);
      var rest := EnvHint(env[..|env| - 1]);
      if HintKey(key) then rest[key := Str(env[|env| - 1].1)] else rest
  }

  /** The value of the last entry whose upper-cased key is `k`. */
  function LastValue(env: seq<(string, string)>, k: string): (r: Option<string>)
    ensures r.Some? <==> exists j :: 0 <= j < |env| && Upper(env[j].0) == k
    ensures r.Some? ==> exists j :: 0 <= j < |env| && Upper(env[j].0) == k && env[j].1 == r.value &&
                                    forall j' :: j < j' < |env| ==> Upper(env[j'].0) != k
    decreases |env|
  {
    if |env| == 0 then None
    else if Upper(env[|env| - 1].0) == k then Some(env[|env| - 1].1)
    else
      var prefix := env[..|env| - 1];
      assert forall j :: 0 <= j < |prefix| ==> prefix[j] == env[j];
      LastValue(prefix, k)
  }

  /**
   * The hint holds exactly the upper-cased `DETOX_` keys of the environment other
   * than the snapshot path, each with the value of its last entry: a later entry
   * wins a clash between keys that differ only in case.
   */
  lemma {:induction false} EnvHintContents(env: seq<(string, string)>)
    ensures forall k :: k in EnvHint(env) ==> HintKey(k) && IsUpper(k)
    ensures forall k :: k in EnvHint(env) <==> HintKey(k) && LastValue(env, k).Some?
    ensures forall k :: k in EnvHint(env) ==> EnvHint(env)[k] == Str(LastValue(env, k).value)
    decreases |env|
  {
    if |env| > 0 {
      EnvHintContents(env[..|env| - 1]);
      UpperIsUpper(env[|env| - 1].0);
    }
  }

  datatype DeviceConfig = DeviceConfig(deviceType: string)

  /** The runner config: `args` is the positional test-file list `args._`, not the whole argument object. */
  datatype RunnerConfig = RunnerConfig(args: seq<string>, inspectBrk: bool, retries: nat, forwardEnv: bool)

  datatype TestFileResult = TestFileResult(testFilePath: string, success: bool, isPermanentFailure: bool)

  datatype RunOutcome = Passed | Failed(error: string, results: seq<TestFileResult>)

  datatype CommandError = MissingDeviceConfig | RunFailed(error: string)

  /** Some file failed permanently. */
  predicate AnyPermanentFailure(results: seq<TestFileResult>) {
    exists i :: 0 <= i < |results| && !results[i].success && results[i].isPermanentFailure
  }

  /** The paths of the files that failed but not permanently, in order. */
  function RetryPaths(results: seq<TestFileResult>): seq<string> {
    if |results| == 0 then []
    else
      var rest := RetryPaths(results[1..]);
      if !results[0].success && !results[0].isPermanentFailure then [results[0].testFilePath] + rest else rest
  }

  /** A path is retried exactly when some file with that path failed but not permanently. */
  lemma {:induction false} RetryPathsContents(results: seq<TestFileResult>)
    ensures forall p :: p in RetryPaths(results) <==>
      exists i :: 0 <= i < |results| && !results[i].success && !results[i].isPermanentFailure && results[i].testFilePath == p
    ensures RetryPaths(results) == [] <==>
      forall i :: 0 <= i < |results| ==> results[i].success || results[i].isPermanentFailure
    decreases |results|
  {
    if |results| > 0 {
      RetryPathsContents(results[1..]);
      assert forall i :: 1 <= i < |results| ==> results[1..][i - 1] == results[i];
    }
  }

  /** One run of the test runner: its session index, its files and how it ended. */
  datatype Attempt = Attempt(index: nat, files: seq<string>, outcome: RunOutcome)

  /** Whether the loop goes round again after this outcome (runs left permitting). */
  predicate Retries(outcome: RunOutcome, bail: bool) {
    outcome.Failed? && !(bail && AnyPermanentFailure(outcome.results)) && RetryPaths(outcome.results) != []
  }

  /**
   * The runs `execute` makes, starting from `files` and session `index` with
   * `runsLeft` runs allowed: each failed run is retried on exactly its retryable
   * files with the next session index, until a run passes, a permanent failure
   * bails, nothing is retryable or the runs are used up.
   */
  function ExecSpec(run: (nat, seq<string>) -> RunOutcome, bail: bool, files: seq<string>, index: nat, runsLeft: nat)
    : (a: seq<Attempt>)
    requires runsLeft >= 1
    ensures |a| >= 1
    decreases runsLeft
  {
    var outcome := run(index, files);
    var attempt := Attempt(index, files, outcome);
    if !Retries(outcome, bail) || runsLeft == 1 then [attempt]
    else [attempt] + ExecSpec(run, bail, RetryPaths(outcome.results), index + 1, runsLeft - 1)
  }

  /**
   * At most `runsLeft` runs, each with the next session index; every run but the
   * last failed retryably and is followed by a run of exactly its retryable
   * files; the last run stops the loop, or used up the runs.
   */
  lemma {:induction false} ExecAttempts(run: (nat, seq<string>) -> RunOutcome, bail: bool, files: seq<string>,
                                        index: nat, runsLeft: nat)
    requires runsLeft >= 1
    ensures var a := ExecSpec(run, bail, files, index, runsLeft);
      |a| <= runsLeft && a[0] == Attempt(index, files, run(index, files))
    ensures var a := ExecSpec(run, bail, files, index, runsLeft);
      forall i :: 0 <= i < |a| ==> a[i].index == index + i && a[i].outcome == run(a[i].index, a[i].files)
    ensures var a := ExecSpec(run, bail, files, index, runsLeft);
      forall i :: 0 <= i < |a| - 1 ==> Retries(a[i].outcome, bail) && a[i + 1].files == RetryPaths(a[i].outcome.results)
    ensures var a := ExecSpec(run, bail, files, index, runsLeft);
      !Retries(a[|a| - 1].outcome, bail) || |a| == runsLeft
    decreases runsLeft
  {
    var outcome := run(index, files);
    if Retries(outcome, bail) && runsLeft > 1 {
      var next := RetryPaths(outcome.results);
      ExecAttempts(run, bail, next, index + 1, runsLeft - 1);
      var a := ExecSpec(run, bail, files, index, runsLeft);
      var b := ExecSpec(run, bail, next, index + 1, runsLeft - 1);
      assert a == [Attempt(index, files, outcome)] + b;
      assert forall i :: 1 <= i < |a| ==> a[i] == b[i - 1];
    }
  }

  function Last(a: seq<Attempt>): Attempt
    requires |a| >= 1
  {
    a[|a| - 1]
  }

  /** The last run is this one when the loop stops here, and otherwise the last run of the retry. */
  lemma ExecStep(run: (nat, seq<string>) -> RunOutcome, bail: bool, files: seq<string>, index: nat, runsLeft: nat)
    requires runsLeft >= 1
    ensures var outcome := run(index, files);
      outcome.Passed? || (bail && AnyPermanentFailure(outcome.results)) || RetryPaths(outcome.results) == [] ||
      runsLeft == 1 ==>
        Last(ExecSpec(run, bail, files, index, runsLeft)) == Attempt(index, files, outcome)
    ensures var outcome := run(index, files);
      outcome.Failed? && !(bail && AnyPermanentFailure(outcome.results)) && RetryPaths(outcome.results) != [] &&
      runsLeft > 1 ==>
        Last(ExecSpec(run, bail, files, index, runsLeft)) ==
        Last(ExecSpec(run, bail, RetryPaths(outcome.results), index + 1, runsLeft - 1))
  {
  }

  /** How `execute` ends after its last run. */
  function Outcome(last: Attempt): Result<(), CommandError> {
    if last.outcome.Passed? then Ok(()) else Err(RunFailed(last.outcome.error))
  }

  /** A run passing is what ends the loop without an error, and no run follows a passing one. */
  lemma {:induction false} StopsAtFirstSuccess(run: (nat, seq<string>) -> RunOutcome, bail: bool, files: seq<string>,
                                              index: nat, runsLeft: nat)
    requires runsLeft >= 1
    ensures var a := ExecSpec(run, bail, files, index, runsLeft);
      Outcome(a[|a| - 1]).Ok? <==> exists i :: 0 <= i < |a| && a[i].outcome.Passed?
  {
    var a := ExecSpec(run, bail, files, index, runsLeft);
    ExecAttempts(run, bail, files, index, runsLeft);
    if exists i :: 0 <= i < |a| && a[i].outcome.Passed? {
      var i :| 0 <= i < |a| && a[i].outcome.Passed?;
      if i < |a| - 1 {
        assert Retries(a[i].outcome, bail);
      }
    }
  }

  /** `--inspect-brk` turns retries off. */
  function RetriesFor(config: RunnerConfig): (n: nat)
    ensures config.inspectBrk ==> n == 0
    ensures !config.inspectBrk ==> n == config.retries
  {
    if config.inspectBrk then 0 else config.retries
  }

  /** With retries off, the runner runs once. */
  lemma InspectBrkRunsOnce(run: (nat, seq<string>) -> RunOutcome, bail: bool, config: RunnerConfig, files: seq<string>, index: nat)
    requires config.inspectBrk
    ensures ExecSpec(run, bail, files, index, 1 + RetriesFor(config)) == [Attempt(index, files, run(index, files))]
  {
  }

  class TestRunnerCommand {
    /** `this._argv._`, the test files to run. */
    var files: seq<string>
    var cli2env: map<string, Value>
    var envHint: map<string, Value>
    var envFwd: map<string, Value>
    var retries: nat
    var deviceConfig: Option<DeviceConfig>
    /** `detox.session.testSessionIndex` */
    var testSessionIndex: nat

    constructor (testSessionIndex: nat)
      ensures files == [] && cli2env == map[] && envHint == map[] && envFwd == map[] && retries == 0
      ensures deviceConfig == None && this.testSessionIndex == testSessionIndex
    {
      files := [];
      cli2env := map[];
      envHint := map[];
      envFwd := map[];
      retries := 0;
      deviceConfig := None;
      this.testSessionIndex := testSessionIndex;
    }

    method SetDeviceConfig(config: DeviceConfig)
      modifies this
      ensures deviceConfig == Some(config)
      ensures files == old(files) && cli2env == old(cli2env) && envHint == old(envHint) && envFwd == old(envFwd)
      ensures retries == old(retries) && testSessionIndex == old(testSessionIndex)
    {
      deviceConfig := Some(config);
    }

    /**
     * `replicateCLIConfig`; `env` is the process environment. Without a device
     * configuration the source dereferences `null` and throws.
     */
    method ReplicateCLIConfig(cli: map<string, Value>, env: seq<(string, string)>) returns (r: Result<(), CommandError>)
      modifies this
      ensures old(deviceConfig).None? ==> r == Err(MissingDeviceConfig) && cli2env == old(cli2env) && envHint == old(envHint)
      ensures old(deviceConfig).Some? ==>
        r == Ok(()) && cli2env == CliToEnv(cli, old(deviceConfig).value.deviceType) && envHint == EnvHint(env)
      ensures files == old(files) && envFwd == old(envFwd) && retries == old(retries)
      ensures deviceConfig == old(deviceConfig) && testSessionIndex == old(testSessionIndex)
    {
      if deviceConfig.None? {
        return Err(MissingDeviceConfig);
      }
      cli2env := CliToEnv(cli, deviceConfig.value.deviceType);
      envHint := EnvHint(env);
      r := Ok(());
    }

    /** `setRunnerConfig`: with `forwardEnv` the CLI map is forwarded and overrides the hint. */
    method SetRunnerConfig(config: RunnerConfig)
      modifies this
      ensures files == config.args && retries == RetriesFor(config)
      ensures config.forwardEnv ==> envFwd == old(cli2env) && envHint == old(envHint) + old(cli2env)
      ensures !config.forwardEnv ==> envFwd == old(envFwd) && envHint == old(envHint)
      ensures cli2env == old(cli2env) && deviceConfig == old(deviceConfig) && testSessionIndex == old(testSessionIndex)
    {
      files := config.args;
      retries := if config.inspectBrk then 0 else config.retries;
      if config.forwardEnv {
        envFwd := cli2env;
        envHint := envHint + cli2env;
      }
    }

    /**
     * `execute`: the do/while retry loop. `run` stands for `_doExecute`
     * together with the test results it leaves in the session, and `bail` for
     * the runner's `bail` option.
     */
    method Execute(run: (nat, seq<string>) -> RunOutcome, bail: bool) returns (r: Result<(), CommandError>)
      modifies this`files, this`testSessionIndex
      ensures var last := Last(ExecSpec(run, bail, old(files), old(testSessionIndex), 1 + old(retries)));
        r == Outcome(last) && files == last.files && testSessionIndex == last.index
      ensures cli2env == old(cli2env) && envHint == old(envHint) && envFwd == old(envFwd)
      ensures retries == old(retries) && deviceConfig == old(deviceConfig)
    {
      var runsLeft := 1 + retries;
      ghost var last := Last(ExecSpec(run, bail, files, testSessionIndex, runsLeft));
      var launchError: Option<string> := None;
      while true
        invariant runsLeft >= 1
        invariant Last(ExecSpec(run, bail, files, testSessionIndex, runsLeft)) == last
        decreases runsLeft
      {
        ExecStep(run, bail, files, testSessionIndex, runsLeft);
        var outcome := run(testSessionIndex, files);
        if outcome.Passed? {
          launchError := None;
        } else {
          launchError := Some(outcome.error);
          if bail && AnyPermanentFailure(outcome.results) {
            return Err(RunFailed(outcome.error));
          }
          var toRetry := RetryPaths(outcome.results);
          if toRetry == [] {
            return Err(RunFailed(outcome.error));
          }
          runsLeft := runsLeft - 1;
          if runsLeft > 0 {
            files := toRetry;
            testSessionIndex := testSessionIndex + 1;
          }
        }
        if !(launchError.Some? && runsLeft > 0) {
          break;
        }
      }
      if launchError.Some? {
        return Err(RunFailed(launchError.value));
      }
      r := Ok(());
    }
  }
}
