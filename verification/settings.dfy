/**
 * The settings record of the test driver: the recognised environments, the
 * validation of a settings value, the derivation of a run identifier from a
 * test identifier and a UUID, and the entry point `New`, which writes the
 * process-wide settings object in place and then validates it.
 *
 * Strings are sequences of bytes (each `char` stands for one byte), so `|s|`
 * is Go's `len(s)`.
 */
module Settings {
  import opened Wrappers
  import opened Strings
  import Uuid

  /** The maximum length of a test identifier. */
  const MaxTestIDLength: nat := 30

  /** A testing environment, by name. */
  type EnvironmentID = string

  const Local: EnvironmentID := "local"
  const Kubernetes: EnvironmentID := "kubernetes"

  predicate IsRecognized(environment: EnvironmentID) {
    environment == Local || environment == Kubernetes
  }

  /** The two ways a settings value can be invalid; each carries what its message reports. */
  datatype SettingsError =
    | UnrecognizedEnvironment(environment: EnvironmentID)
    | InvalidTestID(maxLength: nat)

  /**
   * The validation of a settings value, which reads only its environment and
   * its test identifier. No error (None) exactly when the environment is
   * recognised and the test identifier is non-empty and at most
   * MaxTestIDLength bytes long; the environment is checked first.
   */
  function Validate(environment: EnvironmentID, testID: string): (r: Option<SettingsError>)
    ensures r.None? <==> IsRecognized(environment) && 0 < |testID| <= MaxTestIDLength
    ensures !IsRecognized(environment) ==> r == Some(UnrecognizedEnvironment(environment))
    ensures IsRecognized(environment) && r.Some? ==> r == Some(InvalidTestID(MaxTestIDLength))
  {
    if environment != Local && environment != Kubernetes then
      Some(UnrecognizedEnvironment(environment))
    else if testID == "" || |testID| > MaxTestIDLength then
      Some(InvalidTestID(MaxTestIDLength))
    else
      None
  }

  /**
   * "kube", which the comment on ISTIO_TEST_ENVIRONMENT names as a value, is
   * not a recognised environment: only "kubernetes" passes the validation.
   */
  lemma KubeIsUnrecognized(testID: string)
    ensures Validate("kube", testID) == Some(UnrecognizedEnvironment("kube"))
  {
    assert "kube" != Kubernetes by {
      assert |"kube"| != |Kubernetes|;
    }
  }

  /**
   * The run identifier for `testID`, given the text form `uuid` of a fresh
   * UUID: the test identifier with underscores turned into dashes, a dash, and
   * as many leading hex digits of the UUID as keep the part before the
   * separator plus the suffix at MaxTestIDLength bytes. None stands for the
   * run-time panic of the slice when the test identifier is too long.
   */
  function GenerateRunID(testID: string, uuid: string): (r: Option<string>)
    requires Uuid.IsCanonical(uuid)
    ensures r.Some? <==> |testID| <= MaxTestIDLength
    ensures r.Some? ==> |r.value| == MaxTestIDLength + 1
    ensures r.Some? ==>
      forall i :: 0 <= i < |testID| ==> r.value[i] == if testID[i] == '_' then '-' else testID[i]
    ensures r.Some? ==> r.value[|testID|] == '-'
    ensures r.Some? ==> r.value[|testID| + 1..] == Uuid.Digits(uuid)[..MaxTestIDLength - |testID|]
  {
    Uuid.StripDashes(uuid);
    var u := Remove(uuid, '-');
    var id := Replace(testID, '_', '-');
    var padding := MaxTestIDLength - |id|;
    match Slice(u, 0, padding)
    case None => None
    case Some(suffix) => Some(id + "-" + suffix)
  }

  /** The part of a run identifier before its separator has the test identifier's length and no underscore. */
  lemma RunIDPrefixHasNoUnderscore(testID: string, uuid: string)
    requires Uuid.IsCanonical(uuid)
    requires |testID| <= MaxTestIDLength
    ensures GenerateRunID(testID, uuid).value[..|testID|] == Replace(testID, '_', '-')
    ensures '_' !in GenerateRunID(testID, uuid).value[..|testID|]
  {
  }

  /**
   * The random suffix of a run identifier is made of hex digits, is
   * MaxTestIDLength - len(testID) long, so between 0 and 30 bytes; it is at
   * least 6 bytes long only for test identifiers of at most 24 bytes, and
   * empty for one of 30 bytes.
   */
  lemma RunIDSuffix(testID: string, uuid: string)
    requires Uuid.IsCanonical(uuid)
    requires |testID| <= MaxTestIDLength
    ensures var suffix := GenerateRunID(testID, uuid).value[|testID| + 1..];
      && |suffix| == MaxTestIDLength - |testID| <= MaxTestIDLength
      && (forall c :: c in suffix ==> Uuid.IsLowerHex(c))
      && (|suffix| >= 6 <==> |testID| <= 24)
      && (|testID| == MaxTestIDLength ==> suffix == [])
  {
  }

  /** The run identifier of "my_suite": "my-suite-" followed by 22 hex digits of the UUID. */
  lemma UnderscoreRunID(uuid: string)
    requires Uuid.IsCanonical(uuid)
    ensures GenerateRunID("my_suite", uuid) == Some("my-suite-" + Uuid.Digits(uuid)[..22])
  {
    var id := "my_suite";
    var r := GenerateRunID(id, uuid).value;
    var expected := "my-suite-" + Uuid.Digits(uuid)[..22];
    Uuid.StripDashes(uuid);
    forall i | 0 <= i < 31 ensures r[i] == expected[i] {
      if i < 8 {
        assert r[i] == if id[i] == '_' then '-' else id[i];
      } else if i > 8 {
        assert r[i] == r[9..][i - 9];
      }
    }
    assert |r| == |expected| == 31;
    assert r == expected;
  }

  /** The settings object: the set of arguments to the test driver. */
  class Settings {
    var environment: EnvironmentID
    var testID: string
    var runID: string
    var noCleanup: bool
    var workDir: string

    /** A settings object with only its environment set; every other field has Go's zero value. */
    constructor (environment: EnvironmentID)
      ensures this.environment == environment
      ensures testID == "" && runID == "" && !noCleanup && workDir == ""
    {
      this.environment := environment;
      testID := "";
      runID := "";
      noCleanup := false;
      workDir := "";
    }
  }

  /** What New ends with: the settings it returns, the error it returns, or a run-time panic. */
  datatype NewResult =
    | Created(settings: Settings)
    | Failed(error: SettingsError)
    | Panicked

  /**
   * The package state: the pointer to the process-wide settings object, set
   * once when the package is loaded and never reassigned.
   */
  class Package {
    const globalSettings: Settings

    /** Package initialisation, given the resolved value of the environment variable. */
    constructor (environment: EnvironmentID)
      ensures fresh(globalSettings)
      ensures globalSettings.environment == environment
      ensures globalSettings.testID == "" && globalSettings.runID == ""
      ensures !globalSettings.noCleanup && globalSettings.workDir == ""
    {
      globalSettings := new Settings(environment);
    }

    /**
     * New(testID), with `uuid` the text form of the UUID that generateRunID
     * draws. It takes no copy: it writes the test identifier, then the run
     * identifier, into the global object itself, and validates afterwards.
     * A test identifier longer than MaxTestIDLength panics while the run
     * identifier is derived, after the test identifier is written; otherwise
     * the global object holds this call's test and run identifiers whatever
     * the validation says, and a successful result is the global object.
     */
    method New(testID: string, uuid: string) returns (result: NewResult)
      requires Uuid.IsCanonical(uuid)
      modifies globalSettings
      ensures globalSettings.environment == old(globalSettings.environment)
      ensures globalSettings.noCleanup == old(globalSettings.noCleanup)
      ensures globalSettings.workDir == old(globalSettings.workDir)
      ensures globalSettings.testID == testID
      ensures |testID| > MaxTestIDLength ==>
        result == Panicked && globalSettings.runID == old(globalSettings.runID)
      ensures |testID| <= MaxTestIDLength ==>
        Some(globalSettings.runID) == GenerateRunID(testID, uuid)
      ensures result.Created? <==> Validate(globalSettings.environment, testID).None?
      ensures result.Created? ==> result.settings == globalSettings
      ensures result.Failed? <==>
        |testID| <= MaxTestIDLength && Validate(globalSettings.environment, testID).Some?
      ensures result.Failed? ==> Some(result.error) == Validate(globalSettings.environment, testID)
      ensures testID == "" ==> result.Failed?
    {
      var s := globalSettings;
      s.testID := testID;
      var runID := GenerateRunID(testID, uuid);
      if runID.None? {
        return Panicked;
      }
      s.runID := runID.value;
      var err := Validate(s.environment, s.testID);
      if err.Some? {
        return Failed(err.value);
      }
      return Created(s);
    }
  }

  /**
   * Two calls in a row, in a recognised environment: "suite-a" succeeds, then ""
   * fails; the failing call has rewritten the settings the first call
   * returned, since both are the global object.
   */
  method SharedGlobalSettings(p: Package, uuid1: string, uuid2: string)
    returns (first: NewResult, second: NewResult)
    requires Uuid.IsCanonical(uuid1) && Uuid.IsCanonical(uuid2)
    requires IsRecognized(p.globalSettings.environment)
    modifies p.globalSettings
    ensures first.Created? && second == Failed(InvalidTestID(MaxTestIDLength))
    ensures first.settings == p.globalSettings
    ensures first.settings.testID == ""
    ensures first.settings.runID == "-" + Uuid.Digits(uuid2)[..30]
  {
    first := p.New("suite-a", uuid1);
    second := p.New("", uuid2);
    Uuid.StripDashes(uuid2);
    var r := p.globalSettings.runID;
    assert r == r[..0] + [r[0]] + r[1..];
  }
}
