/**
  Properties of configuration loading stated over edits of a document: what
  happens when one key is set or removed at one of the document's object
  levels.
*/
module ConfigProperties {
  import opened Wrappers
  import opened Json
  import opened JsonSchema
  import opened ConfigSchema
  import opened Config

  /** `v` with `key` set to `x` in the mapping reached along `path`; `v` itself when the path leads nowhere. */
  function Put(v: Value, path: seq<string>, key: string, x: Value): Value
    decreases |path|
  {
    if !v.JObj? then v
    else if path == [] then JObj(v.fields[key := x])
    else if path[0] in v.fields then JObj(v.fields[path[0] := Put(v.fields[path[0]], path[1..], key, x)])
    else v
  }

  /** `v` with `key` removed from the mapping reached along `path`; `v` itself when the path leads nowhere. */
  function Drop(v: Value, path: seq<string>, key: string): Value
    decreases |path|
  {
    if !v.JObj? then v
    else if path == [] then JObj(v.fields - {key})
    else if path[0] in v.fields then JObj(v.fields[path[0] := Drop(v.fields[path[0]], path[1..], key)])
    else v
  }

  /** The paths of the object levels a valid document has. */
  function ObjectPaths(v: Value): set<seq<string>> {
    {[], ["logging"], ["logging", "log_file"]}
    + (if v.JObj? && "game_abstract" in v.fields then {["game_abstract"], ["game_abstract", "storage"]} else {})
  }

  /** The storage tag of a valid document with a `game_abstract` section. */
  function StorageTag(v: Value): Value
    requires ValidDocument(v) && "game_abstract" in v.fields
  {
    v.fields["game_abstract"].fields["storage"].fields["type"]
  }

  /** The keys the schema declares at an object level; for the storage, those of its own variant. */
  function DeclaredKeys(v: Value, path: seq<string>): set<string>
    requires ValidDocument(v) && path in ObjectPaths(v)
  {
    if path == [] then {"logging", "game_abstract"}
    else if path == ["logging"] then {"level", "log_file"}
    else if path == ["logging", "log_file"] then {"path", "max_bytes", "backup_count"}
    else if path == ["game_abstract"] then {"storage"}
    else if StorageTag(v) == JStr("aws_s3") then {"type", "bucket_name", "key_prefix"}
    else {"type", "prefix"}
  }

  /** The keys the schema requires at an object level; for the storage, those of its own variant. */
  function RequiredKeys(v: Value, path: seq<string>): set<string>
    requires ValidDocument(v) && path in ObjectPaths(v)
  {
    if path == [] then {"logging"}
    else if path == ["logging"] then {"log_file"}
    else if path == ["logging", "log_file"] then {"path"}
    else if path == ["game_abstract"] then {"storage"}
    else DeclaredKeys(v, path)
  }

  /** A document that is not a mapping is rejected. */
  lemma NonObjectRejected(v: Value)
    requires !v.JObj?
    ensures FromDocument(v) == Failure(ValidationError)
  {
  }

  /**
    An accepted document is a mapping that has `logging`, and has no
    top-level key other than `logging` and `game_abstract`.
  */
  lemma AcceptedDocumentShape(v: Value)
    requires FromDocument(v).Success?
    ensures v.JObj? && "logging" in v.fields
    ensures v.fields.Keys <= {"logging", "game_abstract"}
  {
  }

  /**
    Strictness: adding an undeclared key at any object level of a valid
    document makes it invalid, whatever the key's value.
  */
  lemma UnknownKeyRejected(v: Value, path: seq<string>, key: string, x: Value)
    requires ValidDocument(v) && path in ObjectPaths(v)
    requires key !in DeclaredKeys(v, path)
    ensures FromDocument(Put(v, path, key, x)).Failure?
  {
  }

  /**
    Required keys: removing a required key at any object level of a valid
    document makes it invalid. At the storage level every key of the
    document's variant is required.
  */
  lemma RequiredKeyMissingRejected(v: Value, path: seq<string>, key: string)
    requires ValidDocument(v) && path in ObjectPaths(v)
    requires key in RequiredKeys(v, path)
    ensures FromDocument(Drop(v, path, key)).Failure?
  {
  }

  /** `level` is accepted exactly as one of the five names or null. */
  lemma LevelAcceptance(v: Value, x: Value)
    requires ValidDocument(v)
    ensures FromDocument(Put(v, ["logging"], "level", x)).Success?
        <==> x == JNull || (x.JStr? && x.s in LevelNames)
  {
  }

  /** `max_bytes` and `backup_count` are accepted exactly as a non-negative integer or null. */
  lemma RotationLimitAcceptance(v: Value, key: string, x: Value)
    requires ValidDocument(v) && key in {"max_bytes", "backup_count"}
    ensures FromDocument(Put(v, ["logging", "log_file"], key, x)).Success?
        <==> x == JNull || (x.JInt? && x.i >= 0)
  {
  }

  /** `log_file.path` is accepted exactly as a string. */
  lemma LogFilePathAcceptance(v: Value, x: Value)
    requires ValidDocument(v)
    ensures FromDocument(Put(v, ["logging", "log_file"], "path", x)).Success? <==> x.JStr?
  {
  }

  /**
    Adding a `game_abstract` section with storage `x` to a valid document is
    accepted exactly when `x` is one of the two variants, with precisely
    that variant's keys.
  */
  lemma StorageAcceptance(v: Value, x: Value)
    requires ValidDocument(v)
    ensures FromDocument(Put(v, [], "game_abstract", JObj(map["storage" := x]))).Success?
        <==> (x.JObj? && (
               || (&& x.fields.Keys == {"type", "bucket_name", "key_prefix"}
                   && x.fields["type"] == JStr("aws_s3")
                   && x.fields["bucket_name"].JStr? && x.fields["key_prefix"].JStr?)
               || (&& x.fields.Keys == {"type", "prefix"}
                   && x.fields["type"] == JStr("local")
                   && x.fields["prefix"].JStr?)))
  {
  }

  /** No storage matches both variants, so `oneOf` on the storage never fails by matching twice. */
  lemma StorageVariantsExclusive(x: Value)
    ensures !(Validates(AwsS3StorageSchema, x) && Validates(LocalStorageSchema, x))
  {
  }
}
