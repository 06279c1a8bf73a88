# mahjongsoul_sniffer configuration loader, modelled in Dafny

This project models the configuration object of mahjongsoul_sniffer
(`mahjongsoul_sniffer/config.py`). The sniffer reads `config.yaml` once at
start-up, validates it against a fixed JSON Schema and then serves eight
read-only accessors: the logging level, the log file path and its two
rotation limits, and the game-abstract storage selection (an `aws_s3` bucket
and key prefix, or a `local` prefix).

The model has seven modules:

- `Wrappers` (wrappers.dfy): `Option` and `Result`.
- `Json` (json.dfy): the parsed document, `Value` = null, boolean, integer,
  string, list or string-keyed mapping. Booleans are a constructor of their
  own, so they are never integers.
- `JsonSchema` (json_schema.dfy): an interpreter, `Validates`, for exactly the
  keywords the configuration schema uses. These are `type`, `enum`, `const`,
  `minimum` and `required` (sections 6.1.1, 6.1.2, 6.1.3, 6.2.4 and 6.5.3 of
  JSON Schema Validation, draft 2020-12) and `oneOf`, `properties` and
  `additionalProperties` (sections 10.2.1.3, 10.3.2.1 and 10.3.2.3 of JSON
  Schema Core, draft 2020-12).
- `ConfigSchema` (config_schema.dfy): the schema of config.py:10-114 written
  twice. It appears once as data for the interpreter, with one constant per
  nested schema object. It appears once as predicates in the configuration's
  own terms (`ValidDocument`, `ValidLogging`, `ValidLogFile`,
  `IsAwsS3Storage`, ...). Agreement lemmas prove that the two accept the same
  documents, level by level.
- `Config` (config.dfy): construction and the accessors. `FromDocument` runs
  the interpreter on an already-parsed document, as the source does with
  `jsonschema.validate`. It keeps the document when validation passes and
  fails with `ValidationError` otherwise. A `Config` holds a `Document`, the
  subset type of valid documents. The accessors are functions of it, and
  their contracts state the defaulting and variant-selection rules in terms
  of the stored document.
- `ConfigProperties` (config_properties.dfy): what happens when one key is set
  or removed at one object level of a valid document. This covers strictness
  at every level, required keys and the accepted values of each field.
- `ConfigView` (config_view.dfy): the results of all accessors as one typed
  `Settings` value, and `Render`, which builds a document for any settings
  the accessors can produce. The round trip proves that the accessors' stated
  ranges are exact.

The source uses the module-level object directly. Here a configuration is an
immutable value. Every accessor is a Dafny function of that value, so the
accessors cannot change the stored document, and calling one twice gives the
same result.

## Model

| member | source | states |
|---|---|---|
| `JsonSchema.HasType` | mahjongsoul_sniffer/config.py:129 | the `type` keyword: null, boolean, object, array, string as their own constructors; `integer` and `number` accept integers only, never booleans |
| `JsonSchema.Validates` | mahjongsoul_sniffer/config.py:129 | what `jsonschema.validate` checks for the eight keywords: all keywords of a schema hold together; `enum`/`const` by structural equality; `minimum` only on integers; object keywords only on mappings; `oneOf` only when listed |
| `JsonSchema.ObjectValidates` | mahjongsoul_sniffer/config.py:129 | on a mapping: every `required` name is present, every present declared property satisfies its subschema, and with `additionalProperties: false` no undeclared key is present |
| `JsonSchema.ExactlyOne` | mahjongsoul_sniffer/config.py:129 | `oneOf`: some alternative accepts the instance and every other alternative rejects it |
| `ConfigSchema.LevelSchema` | mahjongsoul_sniffer/config.py:18-27 | the `level` schema as data: an `enum` of the five names and null |
| `ConfigSchema.RotationLimitSchema` | mahjongsoul_sniffer/config.py:35-56 | the `max_bytes`/`backup_count` schema as data: `oneOf` an integer with minimum 0, or the const null |
| `ConfigSchema.LogFileSchema` | mahjongsoul_sniffer/config.py:28-59 | the `log_file` schema as data: an object requiring `path`, declaring path/max_bytes/backup_count, closed |
| `ConfigSchema.LoggingSchema` | mahjongsoul_sniffer/config.py:14-62 | the `logging` schema as data: an object requiring `log_file`, declaring level/log_file, closed |
| `ConfigSchema.AwsS3StorageSchema` | mahjongsoul_sniffer/config.py:71-90 | the `aws_s3` variant as data: requires type/bucket_name/key_prefix, tag const `aws_s3`, two strings, closed |
| `ConfigSchema.LocalStorageSchema` | mahjongsoul_sniffer/config.py:91-106 | the `local` variant as data: requires type/prefix, tag const `local`, a string, closed |
| `ConfigSchema.StorageSchema` | mahjongsoul_sniffer/config.py:69-108 | the `storage` schema as data: `oneOf` the two variants |
| `ConfigSchema.GameAbstractSchema` | mahjongsoul_sniffer/config.py:63-111 | the `game_abstract` schema as data: an object requiring `storage`, closed |
| `ConfigSchema.DocumentSchema` | mahjongsoul_sniffer/config.py:10-114 | the whole schema as data: an object requiring `logging`, declaring logging/game_abstract, closed |
| `ConfigSchema.ValidLevel` | mahjongsoul_sniffer/config.py:18-27 | `level` is null or a string among the five names |
| `ConfigSchema.ValidRotationLimit` | mahjongsoul_sniffer/config.py:35-56 | a limit is null or an integer >= 0 |
| `ConfigSchema.ValidLogFile` | mahjongsoul_sniffer/config.py:28-59 | `log_file` is a mapping with a string `path`, at most the keys path/max_bytes/backup_count, and valid limits where present |
| `ConfigSchema.ValidLogging` | mahjongsoul_sniffer/config.py:14-62 | `logging` is a mapping with a valid `log_file`, at most the keys level/log_file, and a valid `level` where present |
| `ConfigSchema.IsAwsS3Storage` | mahjongsoul_sniffer/config.py:71-90 | a mapping whose keys are exactly type/bucket_name/key_prefix, tag `aws_s3`, two strings |
| `ConfigSchema.IsLocalStorage` | mahjongsoul_sniffer/config.py:91-106 | a mapping whose keys are exactly type/prefix, tag `local`, a string prefix |
| `ConfigSchema.ValidStorage` | mahjongsoul_sniffer/config.py:69-108 | a storage is one of the two variants |
| `ConfigSchema.ValidGameAbstract` | mahjongsoul_sniffer/config.py:63-111 | `game_abstract` is a mapping whose only key is `storage`, and that storage is valid |
| `ConfigSchema.ValidDocument` | mahjongsoul_sniffer/config.py:10-114 | a mapping with a valid `logging`, at most the keys logging/game_abstract, and a valid `game_abstract` where present |
| `JsonSchema.ExactlyOneOfTwo` | mahjongsoul_sniffer/config.py:36-44 | a two-branch `oneOf` accepts exactly when one branch accepts and the other rejects |
| `ConfigSchema.LevelAgrees` | mahjongsoul_sniffer/config.py:18-27 | the `level` enum accepts exactly null and the five level names |
| `ConfigSchema.RotationLimitAgrees` | mahjongsoul_sniffer/config.py:35-56 | the `oneOf` of `max_bytes`/`backup_count` accepts exactly null and integers >= 0 |
| `ConfigSchema.LogFileAgrees` | mahjongsoul_sniffer/config.py:28-59 | `log_file` is accepted iff it is a mapping with a string `path`, valid optional limits and no other key |
| `ConfigSchema.LoggingAgrees` | mahjongsoul_sniffer/config.py:14-62 | `logging` is accepted iff it is a mapping with a valid `log_file`, an optional valid `level` and no other key |
| `ConfigSchema.AwsS3StorageAgrees` | mahjongsoul_sniffer/config.py:71-90 | the `aws_s3` variant accepts exactly a mapping with keys type/bucket_name/key_prefix, tag `aws_s3`, two strings |
| `ConfigSchema.LocalStorageAgrees` | mahjongsoul_sniffer/config.py:91-106 | the `local` variant accepts exactly a mapping with keys type/prefix, tag `local`, a string prefix |
| `ConfigSchema.StorageAgrees` | mahjongsoul_sniffer/config.py:69-108 | `storage` is accepted iff it is one of the two variants |
| `ConfigSchema.GameAbstractAgrees` | mahjongsoul_sniffer/config.py:63-111 | `game_abstract` is accepted iff its only key is `storage` and that storage is valid |
| `ConfigSchema.DocumentAgrees` | mahjongsoul_sniffer/config.py:10-114 | the interpreter accepts a document against the whole schema iff `ValidDocument` holds |
| `Config.FromDocument` | mahjongsoul_sniffer/config.py:129-131 | construction succeeds iff the document is valid, then keeps it unchanged; otherwise fails with a validation error |
| `Config.LoggingLevel` | mahjongsoul_sniffer/config.py:133-141 | `INFO` when `level` is absent or null, else the stored name; always one of the five names |
| `Config.LogFilePath` | mahjongsoul_sniffer/config.py:143-145 | returns the stored `path` string unchanged |
| `Config.RotationLimit` | mahjongsoul_sniffer/config.py:148-156 | none exactly for absent, null or 0; otherwise the stored integer, which is >= 1 |
| `Config.LogFileMaxBytes` | mahjongsoul_sniffer/config.py:147-156 | none exactly when `max_bytes` is absent, null or 0; otherwise the stored integer n >= 1 |
| `Config.LogFileBackupCount` | mahjongsoul_sniffer/config.py:158-167 | none exactly when `backup_count` is absent, null or 0; otherwise the stored integer n >= 1 |
| `Config.GameAbstractStorageType` | mahjongsoul_sniffer/config.py:169-171 | with `game_abstract` present, returns the stored tag, which is `aws_s3` or `local` |
| `Config.GameAbstractStoragePrefix` | mahjongsoul_sniffer/config.py:173-177 | present iff the tag is `local`, iff the storage has a `prefix`; then the stored string |
| `Config.GameAbstractStorageBucketName` | mahjongsoul_sniffer/config.py:179-183 | present iff the tag is `aws_s3`, iff the storage has a `bucket_name`; then the stored string |
| `Config.GameAbstractStorageKeyPrefix` | mahjongsoul_sniffer/config.py:185-189 | present iff the tag is `aws_s3`, iff the storage has a `key_prefix`; then the stored string |
| `ConfigProperties.NonObjectRejected` | mahjongsoul_sniffer/config.py:10-11 | a document that is not a mapping (null, a scalar, a list) is rejected |
| `ConfigProperties.AcceptedDocumentShape` | mahjongsoul_sniffer/config.py:10-114 | an accepted document is a mapping with `logging` and no top-level key besides `logging` and `game_abstract` |
| `ConfigProperties.UnknownKeyRejected` | mahjongsoul_sniffer/config.py:10-114 | adding an undeclared key at any object level of a valid document (for the storage: outside its variant) makes it rejected |
| `ConfigProperties.RequiredKeyMissingRejected` | mahjongsoul_sniffer/config.py:10-114 | removing a required key at any level (for the storage: any key of its variant) makes a valid document rejected |
| `ConfigProperties.LevelAcceptance` | mahjongsoul_sniffer/config.py:18-27 | with `level` set to x, a valid document stays accepted iff x is null or one of the five names |
| `ConfigProperties.RotationLimitAcceptance` | mahjongsoul_sniffer/config.py:35-56 | with `max_bytes` or `backup_count` set to x, a valid document stays accepted iff x is null or an integer >= 0 |
| `ConfigProperties.LogFilePathAcceptance` | mahjongsoul_sniffer/config.py:32-34 | with `path` set to x, a valid document stays accepted iff x is a string |
| `ConfigProperties.StorageAcceptance` | mahjongsoul_sniffer/config.py:63-111 | adding `game_abstract` with storage x is accepted iff x is exactly an `aws_s3` or exactly a `local` variant |
| `ConfigProperties.StorageVariantsExclusive` | mahjongsoul_sniffer/config.py:69-107 | no value satisfies both storage variants, so `oneOf` here behaves as a plain choice |
| `ConfigView.View` | mahjongsoul_sniffer/config.py:133-189 | the accessors' results together: a known level, no zero limit, a storage iff `game_abstract` is present |
| `ConfigView.RenderAccepted` | mahjongsoul_sniffer/config.py:10-114 | the rendering of any such settings is a valid document |
| `ConfigView.RenderRoundTrip` | mahjongsoul_sniffer/config.py:133-189 | every combination of accessor results allowed by their contracts comes from some accepted document |

## Left out

- The existence and regular-file checks on `config.yaml` (config.py:119-126) are filesystem I/O. Construction takes the parsed document as a parameter.
- YAML parsing (config.py:127-128) is a foreign library. Its output is given as a `Json.Value`, and a syntax error is not modelled.
- Floating-point numbers are not in `Json.Value`. So the model does not capture that the validator would accept `1.0` as an integer.
- Mapping keys that are not strings, and YAML values such as dates or Python objects, are not modelled.
- Python's `True == 1` equality is not modelled. Booleans are never integers here, as in the validator's `type` check.
- Exception types and message texts (`RuntimeError`, `jsonschema.ValidationError` with its failing path) become the single `Config.Error` value `ValidationError`.
- The general `jsonschema` engine and its draft selection are not modelled. Only the eight keywords used by this schema are, and `additionalProperties` only as absent or `false`.
- The module-level singleton (config.py:192) is not modelled. A configuration is a value passed to whoever needs it.
- `log_file_path` is annotated as returning a `pathlib.Path` but returns the stored string. The model returns the string.
- The `game_abstract` accessors raise a key error in the source when `game_abstract` is absent. Here that case is excluded by the precondition `HasGameAbstract`.
