/** The project state file `state.json` of an audit project: its creation, its
    loading, the type-directed merge of one key, and its finalisation. */
module ProjectManager {
  import opened Common
  import opened Json
  import opened Files

  /** `os.path.join(project_path, 'state.json')`. */
  function StatePath(projectPath: string): (path: string)
  {
    Join(projectPath, "state.json")
  }

  /** `save_project(project_path, data)`: `state.json` is replaced by `data`. */
  method SaveProject(fs: FileSystem, projectPath: string, data: Value)
    modifies fs
    ensures fs.files == old(fs.files)[StatePath(projectPath) := Parsed(data)]
    ensures fs.Load(StatePath(projectPath)) == Success(data)
  {
    fs.Dump(StatePath(projectPath), data);
  }

  /** `load_project(project_path)`. */
  method LoadProject(fs: FileSystem, projectPath: string) returns (state: Result<Value>)
    ensures StatePath(projectPath) !in fs.files ==> state == Failure(FileNotFound(StatePath(projectPath)))
    ensures StatePath(projectPath) in fs.files && fs.files[StatePath(projectPath)].Garbled? ==>
      state == Failure(JsonDecodeError(StatePath(projectPath)))
    ensures StatePath(projectPath) in fs.files && fs.files[StatePath(projectPath)].Parsed? ==>
      state == Success(fs.files[StatePath(projectPath)].value)
  {
    var path := StatePath(projectPath);
    if path !in fs.files {
      return Failure(FileNotFound(path));
    }
    state := fs.Load(path);
  }

  // ---------------------------------------------------------------------------
  // `initialize_project`

  /** `os.path.basename(path)`: what follows the last `/`. */
  function Basename(path: string): (name: string)
    ensures '/' !in name
    ensures |name| <= |path| && path[|path| - |name|..] == name
    ensures |name| < |path| ==> path[|path| - |name| - 1] == '/'
    decreases |path|
  {
    if path == [] then []
    else if Last(path) == '/' then []
    else
      var name := Basename(Init(path)) + [Last(path)];
      assert path[|path| - |name|..] == Init(path)[|Init(path)| - |name| + 1..] + [Last(path)];
      name
  }

  /** The state written by `initialize_project` for the project called
      `projectName`, started at `startTime` (the UTC time in ISO format, to which
      a `Z` is appended). */
  function InitialState(projectName: string, startTime: string): (state: map<string, Value>)
  {
    map[
      "project_name" := Str(projectName),
      "start_time" := Str(startTime + "Z"),
      "pages" := Array([]),
      "requests" := Array([]),
      "files" := Object(map[]),
      "mobile" := Bool(false),
      "status" := Str("initialized")]
  }

  const StateKeys: set<string> :=
    {"project_name", "start_time", "pages", "requests", "files", "mobile", "status"}

  /** `initialize_project(project_path)`. */
  method InitializeProject(fs: FileSystem, projectPath: string, startTime: string)
    modifies fs
    ensures fs.files ==
      old(fs.files)[StatePath(projectPath) := Parsed(Object(InitialState(Basename(projectPath), startTime)))]
  {
    SaveProject(fs, projectPath, Object(InitialState(Basename(projectPath), startTime)));
  }

  // ---------------------------------------------------------------------------
  // `update_project`: the merge of one key

  const DictExpected := "La clé attend un dictionnaire comme valeur."

  /** The new state after `update_project` sets `key` to `value` in `state`:
      an absent key is inserted; a list is extended by a list or grows by one
      element; a dict is updated by a dict and refuses anything else; any other
      value is overwritten. */
  function Merge(state: map<string, Value>, key: string, value: Value): (r: Result<map<string, Value>>)
    ensures r.Failure? <==> key in state && state[key].Object? && !value.Object?
    ensures r.Failure? ==> r.error.ValueError?
    ensures r.Success? ==> r.value.Keys == state.Keys + {key}
    ensures r.Success? ==> forall k :: k in state && k != key ==> r.value[k] == state[k]
    ensures r.Success? && key !in state ==> r.value[key] == value
  {
    if key !in state then Success(state[key := value])
    else match state[key]
      case Array(items) =>
        if value.Array? then Success(state[key := Array(items + value.items)])
        else Success(state[key := Array(items + [value])])
      case Object(fields) =>
        if value.Object? then Success(state[key := Object(fields + value.fields)])
        else Failure(ValueError(DictExpected))
      case _ => Success(state[key := value])
  }

  /** On a list key the old elements are kept in front, followed by the elements
      of a list value in order, or by a non-list value as one element. */
  lemma MergeIntoList(state: map<string, Value>, key: string, value: Value)
    requires key in state && state[key].Array?
    ensures Merge(state, key, value).Success?
    ensures var merged := Merge(state, key, value).value[key];
      && merged.Array?
      && merged.items[..|state[key].items|] == state[key].items
      && merged.items[|state[key].items|..] == (if value.Array? then value.items else [value])
  {
    var items := state[key].items;
    var added := if value.Array? then value.items else [value];
    assert (items + added)[..|items|] == items;
    assert (items + added)[|items|..] == added;
  }

  /** On a dict key a dict value's entries win and the other entries stay. */
  lemma MergeIntoDict(state: map<string, Value>, key: string, value: Value)
    requires key in state && state[key].Object? && value.Object?
    ensures Merge(state, key, value).Success?
    ensures var merged := Merge(state, key, value).value[key];
      && merged.Object?
      && merged.fields.Keys == state[key].fields.Keys + value.fields.Keys
      && (forall f :: f in value.fields ==> merged.fields[f] == value.fields[f])
      && (forall f :: f in state[key].fields && f !in value.fields ==> merged.fields[f] == state[key].fields[f])
  {
  }

  /** Any other existing value is replaced by `value`. */
  lemma MergeOverwritesScalar(state: map<string, Value>, key: string, value: Value)
    requires key in state && !state[key].Array? && !state[key].Object?
    ensures Merge(state, key, value) == Success(state[key := value])
  {
  }

  /** Merging the same dict twice is the same as merging it once. */
  lemma DictMergeIdempotent(state: map<string, Value>, key: string, value: Value)
    requires key in state && state[key].Object? && value.Object?
    ensures Merge(Merge(state, key, value).value, key, value) == Merge(state, key, value)
  {
    var once := Merge(state, key, value).value;
    var fields := state[key].fields;
    assert fields + value.fields + value.fields == fields + value.fields;
    assert once[key := Object(once[key].fields + value.fields)] == once;
  }

  /** Extending a list key by `a` and then by `b` is extending it by `a + b`. */
  lemma ListExtendsCompose(state: map<string, Value>, key: string, a: seq<Value>, b: seq<Value>)
    requires key in state && state[key].Array?
    ensures Merge(state, key, Array(a)).Success?
    ensures Merge(Merge(state, key, Array(a)).value, key, Array(b)) == Merge(state, key, Array(a + b))
  {
    var items := state[key].items;
    assert items + a + b == items + (a + b);
    var once := Merge(state, key, Array(a)).value;
    assert once[key := Array(items + a + b)] == state[key := Array(items + (a + b))];
  }

  /** `update_project` on a loaded value: only a dict state can be merged; any
      other JSON value makes the membership test or the item assignment raise
      `TypeError`. */
  function Update(loaded: Value, key: string, value: Value): (r: Result<map<string, Value>>)
    ensures !loaded.Object? ==> r == Failure(TypeError)
    ensures r.Failure? <==>
      !loaded.Object? || (key in loaded.fields && loaded.fields[key].Object? && !value.Object?)
    ensures r.Success? ==> r.value.Keys == loaded.fields.Keys + {key}
    ensures r.Success? ==> forall k :: k in loaded.fields && k != key ==> r.value[k] == loaded.fields[k]
  {
    if loaded.Object? then Merge(loaded.fields, key, value) else Failure(TypeError)
  }

  /** `update_project(project_path, key, value)`: the state file is rewritten with
      the merged state, or left untouched when loading or merging fails. */
  method UpdateProject(fs: FileSystem, projectPath: string, key: string, value: Value)
    returns (outcome: Result<map<string, Value>>)
    modifies fs
    ensures var loaded := old(fs.Load(StatePath(projectPath)));
      outcome == (if loaded.Failure? then Failure(loaded.error) else Update(loaded.value, key, value))
    ensures outcome.Success? ==>
      fs.files == old(fs.files)[StatePath(projectPath) := Parsed(Object(outcome.value))]
    ensures outcome.Failure? ==> fs.files == old(fs.files)
  {
    var loaded := LoadProject(fs, projectPath);
    if loaded.Failure? {
      return Failure(loaded.error);
    }
    outcome := Update(loaded.value, key, value);
    if outcome.Success? {
      SaveProject(fs, projectPath, Object(outcome.value));
    }
  }

  // ---------------------------------------------------------------------------
  // `finalize_project`

  /** The state after `finalize_project` at `endTime` (ISO format, `Z` appended). */
  function Finalize(loaded: Value, endTime: string): (r: Result<map<string, Value>>)
    ensures r.Success? <==> loaded.Object?
    ensures r.Success? ==> r.value.Keys == loaded.fields.Keys + {"end_time", "status"}
    ensures r.Success? ==> r.value["status"] == Str("completed") && r.value["end_time"] == Str(endTime + "Z")
    ensures r.Success? ==> forall k :: k in loaded.fields && k != "end_time" && k != "status" ==>
      r.value[k] == loaded.fields[k]
  {
    if loaded.Object? then
      Success(loaded.fields["end_time" := Str(endTime + "Z")]["status" := Str("completed")])
    else
      Failure(TypeError)
  }

  /** `finalize_project(project_path)`. */
  method FinalizeProject(fs: FileSystem, projectPath: string, endTime: string)
    returns (outcome: Result<map<string, Value>>)
    modifies fs
    ensures var loaded := old(fs.Load(StatePath(projectPath)));
      outcome == (if loaded.Failure? then Failure(loaded.error) else Finalize(loaded.value, endTime))
    ensures outcome.Success? ==>
      fs.files == old(fs.files)[StatePath(projectPath) := Parsed(Object(outcome.value))]
    ensures outcome.Failure? ==> fs.files == old(fs.files)
  {
    var loaded := LoadProject(fs, projectPath);
    if loaded.Failure? {
      return Failure(loaded.error);
    }
    outcome := Finalize(loaded.value, endTime);
    if outcome.Success? {
      SaveProject(fs, projectPath, Object(outcome.value));
    }
  }

  /** Finalising a freshly initialised project keeps its name, start time and
      empty collections, adds the end time and marks it completed. */
  lemma FinalizeAfterInitialize(projectName: string, startTime: string, endTime: string)
    ensures var r := Finalize(Object(InitialState(projectName, startTime)), endTime);
      && r.Success?
      && r.value["status"] == Str("completed")
      && r.value["project_name"] == Str(projectName)
      && r.value["start_time"] == Str(startTime + "Z")
      && r.value["end_time"] == Str(endTime + "Z")
      && r.value["pages"] == Array([])
      && r.value["requests"] == Array([])
  {
    var s := InitialState(projectName, startTime);
    InitialStateFields(projectName, startTime);
    var r := s["end_time" := Str(endTime + "Z")]["status" := Str("completed")];
    assert Finalize(Object(s), endTime) == Success(r);
  }

  /** The initial state has exactly the seven documented keys. */
  lemma InitialStateKeys(projectName: string, startTime: string)
    ensures InitialState(projectName, startTime).Keys == StateKeys
  {
  }

  lemma InitialStateFields(projectName: string, startTime: string)
    ensures var s := InitialState(projectName, startTime);
      && s["project_name"] == Str(projectName)
      && s["start_time"] == Str(startTime + "Z")
      && s["pages"] == Array([])
      && s["requests"] == Array([])
  {
  }

  /** Finalising twice leaves the state as finalising once at the later time. */
  lemma FinalizeTwice(loaded: Value, first: string, second: string)
    requires loaded.Object?
    ensures Finalize(Object(Finalize(loaded, first).value), second) == Finalize(loaded, second)
  {
    var fields := loaded.fields;
    var once := fields["end_time" := Str(first + "Z")]["status" := Str("completed")];
    var direct := fields["end_time" := Str(second + "Z")]["status" := Str("completed")];
    var twice := once["end_time" := Str(second + "Z")]["status" := Str("completed")];
    assert twice.Keys == direct.Keys;
    assert forall k :: k in twice ==> twice[k] == direct[k];
    assert twice == direct;
  }
}
