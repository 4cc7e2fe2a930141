# Test-driver settings: a Dafny model

This project models the settings record of a test framework's driver
(`pkg/test/framework/settings/settings.go`). It covers:

- the recognised environments `"local"` and `"kubernetes"` and the constant
  `MaxTestIDLength` = 30;
- the validation of a settings value;
- the derivation of a run identifier from a test identifier and a UUID;
- the entry point `New`, which writes the process-wide settings object and then
  validates it.

Strings are sequences of bytes, so `|s|` is Go's `len(s)`: each `char` stands
for one byte. The UUID that `generateRunID` draws is an input string in the
canonical 8-4-4-4-12 lower-case hex text form. Stripping its dashes is modelled.

Files:

- `wrappers.dfy`: `Option`.
- `strings.dfy`: `strings.Replace` with a one-byte old string (to one byte or
  to nothing), and the Go slice `s[lo:hi]` with its bounds check.
- `uuid.dfy`: the canonical UUID text form and what stripping its dashes leaves.
- `settings.dfy`: constants, `Validate`, `GenerateRunID`, the `Settings`
  class, the `Package` class and `New`.

Behaviour of the code that the model keeps, where the source's own comments
suggest otherwise:

- `New` takes no copy. Line 72 says "Copy the default settings", but
  `s := &(*globalSettings)` (line 73) is the global pointer itself. Every call
  writes `TestID` and `RunID` of the one global object, also when validation
  then fails. A successful result is the global object. A later call therefore
  rewrites settings an earlier call returned (`SharedGlobalSettings`). The
  model passes the global object as the `Package` field `globalSettings`,
  which is set once.
- A test identifier longer than 30 bytes never reaches validation (line 78),
  so neither the environment error (line 90) nor the test-ID error (line 94)
  is reported. `generateRunID` runs first (line 76), and its slice
  `u[0:padding]` (line 106) panics for a negative `padding`. The model returns
  `Panicked` in that case. `TestID` has already been written and `RunID` has
  not.
- The run identifier is `MaxTestIDLength + 1` = 31 bytes long: 30 for the
  identifier and its suffix, plus the separator.
- The suffix is `30 - len(testID)` hex digits. Line 104 says "at least 6
  characters of uuid padding", but nothing enforces it: a 30-byte identifier
  gets an empty suffix.
- The comment at lines 41-42 names `"kube"` as a value of
  `ISTIO_TEST_ENVIRONMENT`, but validation accepts only `"kubernetes"`
  (lines 36-37, 87-90), so `"kube"` is an unrecognised environment
  (`KubeIsUnrecognized`).

## Model

| member | source | states |
|---|---|---|
| `Strings.Replace` | pkg/test/framework/settings/settings.go:103 | replacing `_` by `-` keeps the length, and each byte of the result is the input's byte, or the new byte where the input had the old one |
| `Strings.Remove` | pkg/test/framework/settings/settings.go:102 | removing a byte gives no longer a string whose bytes are exactly the input's other bytes |
| `Strings.RemoveAppend` | pkg/test/framework/settings/settings.go:102 | removal distributes over concatenation |
| `Uuid.StripDashes` | pkg/test/framework/settings/settings.go:101-102 | stripping the dashes of a canonical UUID text leaves its 32 hex digits, group after group |
| `Settings.Validate` | pkg/test/framework/settings/settings.go:85-98 | no error exactly when the environment is `local` or `kubernetes` and the test ID is non-empty and at most 30 bytes; an unrecognised environment is reported, with its value, before any test-ID error; otherwise the error is the test-ID error carrying 30 |
| `Settings.KubeIsUnrecognized` | pkg/test/framework/settings/settings.go:41-42 | `"kube"`, the value the comment on `ISTIO_TEST_ENVIRONMENT` names, fails validation as an unrecognised environment for every test ID |
| `Settings.GenerateRunID` | pkg/test/framework/settings/settings.go:100-107 | panics (None) exactly when the test ID is longer than 30 bytes; otherwise 31 bytes: the test ID with `_` turned into `-`, position by position, then `-`, then the first `30 - len(testID)` hex digits of the UUID |
| `Settings.RunIDPrefixHasNoUnderscore` | pkg/test/framework/settings/settings.go:103-106 | the part before the separator is the test ID with every `_` replaced by `-`, and holds no `_` |
| `Settings.RunIDSuffix` | pkg/test/framework/settings/settings.go:104-106 | the suffix is hex, `30 - len(testID)` long, within [0, 30], at least 6 long only for test IDs up to 24 bytes, empty for a 30-byte ID |
| `Settings.UnderscoreRunID` | pkg/test/framework/settings/settings.go:103-106 | the run ID of `my_suite` is `my-suite-` and 22 UUID digits |
| `Settings.Settings.constructor` | pkg/test/framework/settings/settings.go:51-68 | a settings object with only its environment set, every other field at Go's zero value |
| `Settings.Package.constructor` | pkg/test/framework/settings/settings.go:40-49 | the global settings object is fresh and holds only the resolved environment |
| `Settings.Package.New` | pkg/test/framework/settings/settings.go:70-83 | writes `TestID` into the global object, then `RunID` unless the derivation panics; leaves environment, no-cleanup and work directory unchanged; returns the global object exactly when validation passes, the validation error when it fails, a panic for IDs over 30 bytes; an empty ID always fails |
| `Settings.SharedGlobalSettings` | pkg/test/framework/settings/settings.go:72-83 | in either recognised environment, after `New("suite-a")` succeeds and `New("")` fails, the settings the first call returned hold the second call's test ID and run ID |

## Left out

- The random generation of the UUID (`uuid.New()`, line 101): the UUID is an input in its text form. Uniqueness of run identifiers across calls cannot be stated.
- The lookup of `ISTIO_TEST_ENVIRONMENT` with its default `local` (lines 44-47): it reads the process environment. The resolved value is the `Package` constructor's parameter. The `env` package is not part of this model.
- The text of the `fmt.Errorf` messages (lines 90, 94): errors are the two-case `SettingsError`, carrying the environment or the length bound.
- Concurrent callers racing on the shared global object: the model is sequential.
- Resolution of an empty work directory to `os.TempDir()`: that is not done in this file.
- Non-ASCII text: a `char` stands for one byte, so a multi-byte character is several elements.
