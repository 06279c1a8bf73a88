/**
  The `Config` object of mahjongsoul_sniffer/config.py: construction validates
  an already-parsed document against the configuration schema and keeps it;
  the eight accessors are reads of that document with the source's defaulting
  and variant-selection rules. A configuration never changes after
  construction, so it is a value and every accessor is a function of it.
*/
module Config {
  import opened Wrappers
  import opened Json
  import opened JsonSchema
  import opened ConfigSchema

  /** Construction fails only when the document violates the schema. */
  datatype Error = ValidationError

  /** The smallest valid document: a log file path and nothing else. */
  const MinimalDocument :=
    JObj(map["logging" := JObj(map["log_file" := JObj(map["path" := JStr("")])])])

  /** Documents that passed validation. */
  type Document = v: Value | ValidDocument(v) witness MinimalDocument

  /** A constructed configuration: the validated document, kept as it was read. */
  datatype Config = Config(document: Document)

  /**
    Validate-then-store: the document is checked by the schema interpreter
    against the configuration schema and kept unchanged when it passes.
  */
  function FromDocument(v: Value): (r: Result<Config, Error>)
    ensures r.Success? <==> ValidDocument(v)
    ensures r.Success? ==> r.value.document == v
    ensures r.Failure? ==> r.error == ValidationError
  {
    DocumentAgrees(v);
    if Validates(DocumentSchema, v) then Success(Config(v)) else Failure(ValidationError)
  }

  /** The fields of the `logging` section. */
  function Logging(c: Config): map<string, Value> {
    c.document.fields["logging"].fields
  }

  /** The fields of the `logging.log_file` section. */
  function LogFile(c: Config): map<string, Value> {
    Logging(c)["log_file"].fields
  }

  /** The document has the optional `game_abstract` section. */
  predicate HasGameAbstract(c: Config) {
    "game_abstract" in c.document.fields
  }

  /** The fields of the `game_abstract.storage` section. */
  function Storage(c: Config): map<string, Value>
    requires HasGameAbstract(c)
  {
    c.document.fields["game_abstract"].fields["storage"].fields
  }

  /** The logging level: `INFO` when `level` is absent or null, else the stored name. */
  function LoggingLevel(c: Config): (level: string)
    ensures level in LevelNames
    ensures "level" !in Logging(c) || Logging(c)["level"] == JNull ==> level == "INFO"
    ensures "level" in Logging(c) && Logging(c)["level"] != JNull ==> Logging(c)["level"] == JStr(level)
  {
    var logging := Logging(c);
    if "level" in logging then
      var level := logging["level"];
      if level.JNull? then "INFO" else level.s
    else
      "INFO"
  }

  /** The log file path, exactly as stored. */
  function LogFilePath(c: Config): (path: string)
    ensures LogFile(c)["path"] == JStr(path)
  {
    LogFile(c)["path"].s
  }

  /**
    The shared rule of `max_bytes` and `backup_count` in a valid `log_file`
    section: absent, null and zero all mean "no limit"; any other stored
    integer is returned as it is.
  */
  function RotationLimit(logFile: map<string, Value>, key: string): (limit: Option<nat>)
    requires key in logFile ==> ValidRotationLimit(logFile[key])
    ensures limit.None? <==> key !in logFile || logFile[key] == JNull || logFile[key] == JInt(0)
    ensures limit.Some? ==> limit.value >= 1 && logFile[key] == JInt(limit.value)
  {
    if key in logFile then
      match logFile[key]
      case JInt(n) => if n == 0 then None else Some(n)
      case _ => None
    else
      None
  }

  /** The maximum log file size in bytes, or none for "no size limit". */
  function LogFileMaxBytes(c: Config): (maxBytes: Option<nat>)
    ensures maxBytes.None? <==> "max_bytes" !in LogFile(c) || LogFile(c)["max_bytes"] in {JNull, JInt(0)}
    ensures maxBytes.Some? ==> maxBytes.value >= 1 && LogFile(c)["max_bytes"] == JInt(maxBytes.value)
  {
    RotationLimit(LogFile(c), "max_bytes")
  }

  /** The number of rotated log files kept, or none for "no backup limit". */
  function LogFileBackupCount(c: Config): (backupCount: Option<nat>)
    ensures backupCount.None? <==> "backup_count" !in LogFile(c) || LogFile(c)["backup_count"] in {JNull, JInt(0)}
    ensures backupCount.Some? ==> backupCount.value >= 1 && LogFile(c)["backup_count"] == JInt(backupCount.value)
  {
    RotationLimit(LogFile(c), "backup_count")
  }

  /** The storage tag; the caller must know that `game_abstract` is present. */
  function GameAbstractStorageType(c: Config): (storageType: string)
    requires HasGameAbstract(c)
    ensures storageType == "aws_s3" || storageType == "local"
    ensures Storage(c)["type"] == JStr(storageType)
  {
    Storage(c)["type"].s
  }

  /** The prefix of a `local` storage; none for any other storage. */
  function GameAbstractStoragePrefix(c: Config): (prefix: Option<string>)
    requires HasGameAbstract(c)
    ensures prefix.Some? <==> Storage(c)["type"] == JStr("local")
    ensures prefix.Some? <==> "prefix" in Storage(c)
    ensures prefix.Some? ==> Storage(c)["prefix"] == JStr(prefix.value)
  {
    if GameAbstractStorageType(c) != "local" then None
    else Some(Storage(c)["prefix"].s)
  }

  /** The bucket name of an `aws_s3` storage; none for any other storage. */
  function GameAbstractStorageBucketName(c: Config): (bucketName: Option<string>)
    requires HasGameAbstract(c)
    ensures bucketName.Some? <==> Storage(c)["type"] == JStr("aws_s3")
    ensures bucketName.Some? <==> "bucket_name" in Storage(c)
    ensures bucketName.Some? ==> Storage(c)["bucket_name"] == JStr(bucketName.value)
  {
    if GameAbstractStorageType(c) != "aws_s3" then None
    else Some(Storage(c)["bucket_name"].s)
  }

  /** The key prefix of an `aws_s3` storage; none for any other storage. */
  function GameAbstractStorageKeyPrefix(c: Config): (keyPrefix: Option<string>)
    requires HasGameAbstract(c)
    ensures keyPrefix.Some? <==> Storage(c)["type"] == JStr("aws_s3")
    ensures keyPrefix.Some? <==> "key_prefix" in Storage(c)
    ensures keyPrefix.Some? ==> Storage(c)["key_prefix"] == JStr(keyPrefix.value)
  {
    if GameAbstractStorageType(c) != "aws_s3" then None
    else Some(Storage(c)["key_prefix"].s)
  }
}
