/**
  The typed view of a configuration: the results of all eight accessors
  together. Every combination the accessors' contracts allow is the view of
  some accepted document, which `Render` builds.
*/
module ConfigView {
  import opened Wrappers
  import opened Json
  import opened ConfigSchema
  import opened Config

  datatype StorageSettings =
    | AwsS3(bucketName: string, keyPrefix: string)
    | Local(prefix: string)

  datatype Settings = Settings(
    level: string,
    logFilePath: string,
    maxBytes: Option<nat>,
    backupCount: Option<nat>,
    storage: Option<StorageSettings>)

  /** The views the accessors can produce: a known level, and no limit of zero. */
  predicate Canonical(s: Settings) {
    s.level in LevelNames && s.maxBytes != Some(0) && s.backupCount != Some(0)
  }

  /** All accessors of `c`; the storage is read only when `game_abstract` is present. */
  function View(c: Config): (s: Settings)
    ensures Canonical(s)
    ensures s.storage.Some? <==> HasGameAbstract(c)
  {
    var storage :=
      if !HasGameAbstract(c) then None
      else if GameAbstractStorageType(c) == "aws_s3" then
        Some(AwsS3(GameAbstractStorageBucketName(c).value, GameAbstractStorageKeyPrefix(c).value))
      else
        Some(Local(GameAbstractStoragePrefix(c).value));
    Settings(LoggingLevel(c), LogFilePath(c), LogFileMaxBytes(c), LogFileBackupCount(c), storage)
  }

  function RenderStorage(s: StorageSettings): Value {
    match s
    case AwsS3(bucketName, keyPrefix) =>
      JObj(map["type" := JStr("aws_s3"), "bucket_name" := JStr(bucketName), "key_prefix" := JStr(keyPrefix)])
    case Local(prefix) =>
      JObj(map["type" := JStr("local"), "prefix" := JStr(prefix)])
  }

  /** The `log_file` section; an unset limit is left out. */
  function RenderLogFile(s: Settings): map<string, Value> {
    map["path" := JStr(s.logFilePath)]
    + (if s.maxBytes.Some? then map["max_bytes" := JInt(s.maxBytes.value)] else map[])
    + (if s.backupCount.Some? then map["backup_count" := JInt(s.backupCount.value)] else map[])
  }

  /** A document whose accessors give `s`; an absent storage is left out. */
  function Render(s: Settings): Value {
    var logging := JObj(map["level" := JStr(s.level), "log_file" := JObj(RenderLogFile(s))]);
    JObj(map["logging" := logging]
      + (if s.storage.Some? then map["game_abstract" := JObj(map["storage" := RenderStorage(s.storage.value)])] else map[]))
  }

  lemma RenderLogFileValid(s: Settings)
    ensures ValidLogFile(JObj(RenderLogFile(s)))
  {
  }

  /** The rendering of a canonical view is accepted. */
  lemma RenderAccepted(s: Settings)
    requires Canonical(s)
    ensures FromDocument(Render(s)).Success?
  {
    var v := Render(s);
    RenderLogFileValid(s);
    assert v.fields["logging"].fields["log_file"] == JObj(RenderLogFile(s));
    assert ValidLogging(v.fields["logging"]);
    if s.storage.Some? {
      assert v.fields["game_abstract"] == JObj(map["storage" := RenderStorage(s.storage.value)]);
    }
  }

  /**
    Every view the accessors allow is produced by some accepted document:
    the rendered document is accepted and its accessors give back `s`.
  */
  lemma RenderRoundTrip(s: Settings)
    requires Canonical(s)
    ensures FromDocument(Render(s)).Success?
    ensures View(FromDocument(Render(s)).value) == s
  {
    RenderAccepted(s);
    var c := FromDocument(Render(s)).value;
    assert Logging(c) == map["level" := JStr(s.level), "log_file" := JObj(RenderLogFile(s))];
    assert LogFile(c) == RenderLogFile(s);
    assert LoggingLevel(c) == s.level;
    assert LogFilePath(c) == s.logFilePath;
    assert LogFileMaxBytes(c) == s.maxBytes;
    assert LogFileBackupCount(c) == s.backupCount;
    if s.storage.Some? {
      assert Storage(c) == RenderStorage(s.storage.value).fields;
    }
  }
}
