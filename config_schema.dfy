/**
  The configuration schema of mahjongsoul_sniffer/config.py, twice: once as
  data for the keyword interpreter (the constants, one per nested schema
  object), and once as hand-written predicates in the configuration's own
  terms. The lemmas at the end prove that the two agree on every document.
*/
module ConfigSchema {
  import opened Wrappers
  import opened Json
  import opened JsonSchema

  /** The accepted names of a logging level, in the order the schema lists them. */
  const LevelNames: seq<string> := ["DEBUG", "INFO", "WARNING", "ERROR", "CRITICAL"]

  // ---------------------------------------------------------------------------
  // The schema as data.
  // ---------------------------------------------------------------------------

  const StringSchema := Empty.(typ := Some(StringType))

  /** `level`: one of the five names, or null. */
  const LevelSchema := Empty.(enumValues := Some(
    [JStr("DEBUG"), JStr("INFO"), JStr("WARNING"), JStr("ERROR"), JStr("CRITICAL"), JNull]))

  const NonNegativeIntegerSchema := Empty.(typ := Some(IntegerType), minimum := Some(0))

  const NullSchema := Empty.(constValue := Some(JNull))

  /** `max_bytes` and `backup_count`: a non-negative integer, or else null. */
  const RotationLimitSchema := Empty.(oneOf := [NonNegativeIntegerSchema, NullSchema])

  const LogFileSchema := Empty.(
    typ := Some(ObjectType),
    required := {"path"},
    properties := map[
      "path" := StringSchema,
      "max_bytes" := RotationLimitSchema,
      "backup_count" := RotationLimitSchema],
    additionalProperties := false)

  const LoggingSchema := Empty.(
    typ := Some(ObjectType),
    required := {"log_file"},
    properties := map["level" := LevelSchema, "log_file" := LogFileSchema],
    additionalProperties := false)

  const AwsS3StorageSchema := Empty.(
    typ := Some(ObjectType),
    required := {"type", "bucket_name", "key_prefix"},
    properties := map[
      "type" := Empty.(constValue := Some(JStr("aws_s3"))),
      "bucket_name" := StringSchema,
      "key_prefix" := StringSchema],
    additionalProperties := false)

  const LocalStorageSchema := Empty.(
    typ := Some(ObjectType),
    required := {"type", "prefix"},
    properties := map[
      "type" := Empty.(constValue := Some(JStr("local"))),
      "prefix" := StringSchema],
    additionalProperties := false)

  /** `storage`: exactly one of the two variants. */
  const StorageSchema := Empty.(oneOf := [AwsS3StorageSchema, LocalStorageSchema])

  const GameAbstractSchema := Empty.(
    typ := Some(ObjectType),
    required := {"storage"},
    properties := map["storage" := StorageSchema],
    additionalProperties := false)

  /** The whole document. */
  const DocumentSchema := Empty.(
    typ := Some(ObjectType),
    required := {"logging"},
    properties := map["logging" := LoggingSchema, "game_abstract" := GameAbstractSchema],
    additionalProperties := false)

  // ---------------------------------------------------------------------------
  // The schema in the configuration's own terms.
  // ---------------------------------------------------------------------------

  predicate ValidLevel(v: Value) {
    v == JNull || (v.JStr? && v.s in LevelNames)
  }

  predicate ValidRotationLimit(v: Value) {
    v == JNull || (v.JInt? && v.i >= 0)
  }

  predicate ValidLogFile(v: Value) {
    && v.JObj?
    && "path" in v.fields
    && v.fields.Keys <= {"path", "max_bytes", "backup_count"}
    && v.fields["path"].JStr?
    && ("max_bytes" in v.fields ==> ValidRotationLimit(v.fields["max_bytes"]))
    && ("backup_count" in v.fields ==> ValidRotationLimit(v.fields["backup_count"]))
  }

  predicate ValidLogging(v: Value) {
    && v.JObj?
    && "log_file" in v.fields
    && v.fields.Keys <= {"level", "log_file"}
    && ("level" in v.fields ==> ValidLevel(v.fields["level"]))
    && ValidLogFile(v.fields["log_file"])
  }

  /** An `aws_s3` storage: exactly the tag, a bucket name and a key prefix. */
  predicate IsAwsS3Storage(v: Value) {
    && v.JObj?
    && v.fields.Keys == {"type", "bucket_name", "key_prefix"}
    && v.fields["type"] == JStr("aws_s3")
    && v.fields["bucket_name"].JStr?
    && v.fields["key_prefix"].JStr?
  }

  /** A `local` storage: exactly the tag and a prefix. */
  predicate IsLocalStorage(v: Value) {
    && v.JObj?
    && v.fields.Keys == {"type", "prefix"}
    && v.fields["type"] == JStr("local")
    && v.fields["prefix"].JStr?
  }

  predicate ValidStorage(v: Value) {
    IsAwsS3Storage(v) || IsLocalStorage(v)
  }

  predicate ValidGameAbstract(v: Value) {
    && v.JObj?
    && v.fields.Keys == {"storage"}
    && ValidStorage(v.fields["storage"])
  }

  predicate ValidDocument(v: Value) {
    && v.JObj?
    && "logging" in v.fields
    && v.fields.Keys <= {"logging", "game_abstract"}
    && ValidLogging(v.fields["logging"])
    && ("game_abstract" in v.fields ==> ValidGameAbstract(v.fields["game_abstract"]))
  }

  // ---------------------------------------------------------------------------
  // Agreement of the interpreter on the schema data with the predicates.
  // ---------------------------------------------------------------------------

  lemma LevelAgrees(v: Value)
    ensures Validates(LevelSchema, v) <==> ValidLevel(v)
  {
  }

  lemma RotationLimitAgrees(v: Value)
    ensures Validates(RotationLimitSchema, v) <==> ValidRotationLimit(v)
  {
    ExactlyOneOfTwo(NonNegativeIntegerSchema, NullSchema, v);
  }

  lemma LogFileAgrees(v: Value)
    ensures Validates(LogFileSchema, v) <==> ValidLogFile(v)
  {
    var s := LogFileSchema;
    if v.JObj? {
      if "max_bytes" in v.fields { RotationLimitAgrees(v.fields["max_bytes"]); }
      if "backup_count" in v.fields { RotationLimitAgrees(v.fields["backup_count"]); }
      if Validates(s, v) {
        assert ObjectValidates(s, v.fields);
        assert "path" in s.required;
        assert Validates(s.properties["path"], v.fields["path"]);
        assert "max_bytes" in v.fields ==> Validates(s.properties["max_bytes"], v.fields["max_bytes"]);
        assert "backup_count" in v.fields ==> Validates(s.properties["backup_count"], v.fields["backup_count"]);
      }
      if ValidLogFile(v) {
        forall k | k in v.fields && k in s.properties
          ensures Validates(s.properties[k], v.fields[k])
        {
          assert k == "path" || k == "max_bytes" || k == "backup_count";
        }
        assert ObjectValidates(s, v.fields);
      }
    }
  }

  lemma LoggingAgrees(v: Value)
    ensures Validates(LoggingSchema, v) <==> ValidLogging(v)
  {
    if v.JObj? {
      if "level" in v.fields { LevelAgrees(v.fields["level"]); }
      if "log_file" in v.fields { LogFileAgrees(v.fields["log_file"]); }
    }
  }

  lemma AwsS3StorageAgrees(v: Value)
    ensures Validates(AwsS3StorageSchema, v) <==> IsAwsS3Storage(v)
  {
    var s := AwsS3StorageSchema;
    if v.JObj? {
      if Validates(s, v) {
        assert ObjectValidates(s, v.fields);
        assert s.required == {"type", "bucket_name", "key_prefix"} <= v.fields.Keys;
        assert Validates(s.properties["type"], v.fields["type"]);
        assert Validates(s.properties["bucket_name"], v.fields["bucket_name"]);
        assert Validates(s.properties["key_prefix"], v.fields["key_prefix"]);
      }
      if IsAwsS3Storage(v) {
        forall k | k in v.fields && k in s.properties
          ensures Validates(s.properties[k], v.fields[k])
        {
          assert k == "type" || k == "bucket_name" || k == "key_prefix";
        }
      }
    }
  }

  lemma LocalStorageAgrees(v: Value)
    ensures Validates(LocalStorageSchema, v) <==> IsLocalStorage(v)
  {
    var s := LocalStorageSchema;
    if v.JObj? {
      if Validates(s, v) {
        assert ObjectValidates(s, v.fields);
        assert s.required == {"type", "prefix"} <= v.fields.Keys;
        assert Validates(s.properties["type"], v.fields["type"]);
        assert Validates(s.properties["prefix"], v.fields["prefix"]);
      }
      if IsLocalStorage(v) {
        forall k | k in v.fields && k in s.properties
          ensures Validates(s.properties[k], v.fields[k])
        {
          assert k == "type" || k == "prefix";
        }
      }
    }
  }

  lemma StorageAgrees(v: Value)
    ensures Validates(StorageSchema, v) <==> ValidStorage(v)
  {
    ExactlyOneOfTwo(AwsS3StorageSchema, LocalStorageSchema, v);
    AwsS3StorageAgrees(v);
    LocalStorageAgrees(v);
  }

  lemma GameAbstractAgrees(v: Value)
    ensures Validates(GameAbstractSchema, v) <==> ValidGameAbstract(v)
  {
    if v.JObj? && "storage" in v.fields { StorageAgrees(v.fields["storage"]); }
  }

  /** The interpreter accepts a document against the schema exactly when it is a valid configuration. */
  lemma DocumentAgrees(v: Value)
    ensures Validates(DocumentSchema, v) <==> ValidDocument(v)
  {
    if v.JObj? {
      if "logging" in v.fields { LoggingAgrees(v.fields["logging"]); }
      if "game_abstract" in v.fields { GameAbstractAgrees(v.fields["game_abstract"]); }
    }
  }
}
