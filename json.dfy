/** The JSON values the auditor reads and writes with `json.load` and `json.dump`.
    Numbers are integers only: the auditor never stores a float. */
module Json {
  import opened Common

  datatype Value =
    | Null
    | Bool(b: bool)
    | Int(n: int)
    | Str(s: string)
    | Array(items: seq<Value>)
    | Object(fields: map<string, Value>)

  /** A `dict` of strings (headers, a technology report) as a JSON object. */
  function StrObject(m: map<string, string>): (v: Value)
  {
    Object(map k | k in m :: Str(m[k]))
  }

  /** Reads back a JSON object whose every field is a string. */
  function StrMapOf(v: Value): (m: Option<map<string, string>>)
  {
    if v.Object? && forall k :: k in v.fields ==> v.fields[k].Str? then
      Some(map k | k in v.fields :: v.fields[k].s)
    else
      None
  }

  lemma StrObjectRoundTrip(m: map<string, string>)
    ensures StrMapOf(StrObject(m)) == Some(m)
  {
    var v := StrObject(m);
    assert forall k :: k in v.fields ==> v.fields[k].Str?;
    var back := map k | k in v.fields :: v.fields[k].s;
    assert back.Keys == m.Keys;
    assert forall k :: k in back ==> back[k] == m[k];
    assert back == m;
  }

  /** The converse: a value that reads back as a string dict is that dict's object. */
  lemma StrMapOfInverse(v: Value, m: map<string, string>)
    requires StrMapOf(v) == Some(m)
    ensures v == StrObject(m)
  {
    assert v.fields.Keys == m.Keys;
    assert forall k :: k in v.fields ==> v.fields[k] == Str(m[k]);
  }
}

/** The files the auditor touches, seen through `json.load`/`json.dump`: a path
    either holds text that decodes to a JSON value, or text that does not. */
module Files {
  import opened Common
  import opened Json

  datatype Contents = Parsed(value: Value) | Garbled

  /** `os.path.join(dir, name)` for a relative `name`, with POSIX separators. */
  function Join(dir: string, name: string): (path: string)
  {
    if dir == "" || Last(dir) == '/' then dir + name else dir + "/" + name
  }

  /** The file system: what each existing file holds. Directories are implicit. */
  class FileSystem {
    var files: map<string, Contents>

    constructor (initial: map<string, Contents>)
      ensures files == initial
    {
      files := initial;
    }

    /** `json.load(open(path))`. */
    function Load(path: string): (r: Result<Value>)
      reads this
    {
      if path !in files then Failure(FileNotFound(path))
      else if files[path].Garbled? then Failure(JsonDecodeError(path))
      else Success(files[path].value)
    }

    /** `json.dump(v, open(path, 'w'))`: the file is created or truncated and rewritten. */
    method Dump(path: string, v: Value)
      modifies this
      ensures files == old(files)[path := Parsed(v)]
      ensures Load(path) == Success(v)
    {
      files := files[path := Parsed(v)];
    }
  }
}
