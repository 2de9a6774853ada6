/**
 * src/insightmovie/project/project.py: the output and engine settings with their
 * dictionary forms, and the project, which owns the ordered scene list that the editor
 * changes in place.
 */
module Projects {

  import opened Wrappers
  import opened Files
  import Json
  import opened Scenes

  // ---------------------------------------------------------------- settings

  datatype OutputSettings = OutputSettings(resolution: string, fps: int, outputPath: string) {
    /** `OutputSettings.to_dict()`; `from_dict` gives the settings back. */
    function ToDict(): (d: Json.Object)
      ensures OutputFromDict(d) == Some(this)
    {
      map["resolution" := Json.Str(resolution), "fps" := Json.Int(fps),
          "output_path" := Json.Str(outputPath)]
    }
  }

  /** `OutputSettings()`: portrait full HD at 30 frames per second, no output path yet. */
  const DefaultOutput := OutputSettings("1080x1920", 30, "")

  /** `OutputSettings.from_dict(d)`; None for a value of the wrong JSON type. */
  function OutputFromDict(d: Json.Object): (r: Option<OutputSettings>)
    ensures d == map[] ==> r == Some(DefaultOutput)
  {
    var resolution := Json.AsString(Json.Get(d, "resolution", Json.Str(DefaultOutput.resolution)));
    var fps := Json.AsInt(Json.Get(d, "fps", Json.Int(DefaultOutput.fps)));
    var outputPath := Json.AsString(Json.Get(d, "output_path", Json.Str(DefaultOutput.outputPath)));
    if resolution.Some? && fps.Some? && outputPath.Some?
    then Some(OutputSettings(resolution.value, fps.value, outputPath.value))
    else None
  }

  datatype ProjectSettings = ProjectSettings(
    voicevoxBaseUrl: string,
    voicevoxRunExe: Option<string>,
    ffmpegPath: Option<string>,
    fontPath: Option<string>)
  {
    /** `ProjectSettings.to_dict()`; `from_dict` gives the settings back. */
    function ToDict(): (d: Json.Object)
      ensures SettingsFromDict(d) == Some(this)
    {
      map["voicevox_base_url" := Json.Str(voicevoxBaseUrl),
          "voicevox_run_exe" := Json.OptionalString(voicevoxRunExe),
          "ffmpeg_path" := Json.OptionalString(ffmpegPath),
          "font_path" := Json.OptionalString(fontPath)]
    }
  }

  /** `ProjectSettings()`: the engine on its default local port, nothing else configured. */
  const DefaultSettings := ProjectSettings("http://127.0.0.1:50021", None, None, None)

  /** `ProjectSettings.from_dict(d)`; None for a value of the wrong JSON type. */
  function SettingsFromDict(d: Json.Object): (r: Option<ProjectSettings>)
    ensures d == map[] ==> r == Some(DefaultSettings)
  {
    var url := Json.AsString(Json.Get(d, "voicevox_base_url", Json.Str(DefaultSettings.voicevoxBaseUrl)));
    var runExe := Json.AsOptionalString(Json.Get(d, "voicevox_run_exe", Json.Null));
    var ffmpeg := Json.AsOptionalString(Json.Get(d, "ffmpeg_path", Json.Null));
    var font := Json.AsOptionalString(Json.Get(d, "font_path", Json.Null));
    if url.Some? && runExe.Some? && ffmpeg.Some? && font.Some?
    then Some(ProjectSettings(url.value, runExe.value, ffmpeg.value, font.value))
    else None
  }

  // ---------------------------------------------------------------- scene lists

  /** The position of the first scene with the given id, as the `enumerate` loops find it. */
  function IndexOf(scenes: seq<Scene>, id: string): (r: Option<nat>)
    ensures r.Some? ==> r.value < |scenes| && scenes[r.value].id == id
    ensures r.Some? ==> forall k :: 0 <= k < r.value ==> scenes[k].id != id
    ensures r.None? ==> forall k :: 0 <= k < |scenes| ==> scenes[k].id != id
  {
    if scenes == [] then None
    else if scenes[0].id == id then Some(0)
    else
      match IndexOf(scenes[1..], id)
      case None => None
      case Some(k) => Some(k + 1)
  }

  /** The first scene with id `id` sits at `k`. */
  lemma {:induction false} IndexOfIs(scenes: seq<Scene>, id: string, k: nat)
    requires k < |scenes| && scenes[k].id == id
    requires forall j :: 0 <= j < k ==> scenes[j].id != id
    ensures IndexOf(scenes, id) == Some(k)
  {
    if k > 0 {
      IndexOfIs(scenes[1..], id, k - 1);
    }
  }

  /** Where `list.insert(index, x)` puts `x` in a list of length `n`: a negative index
      counts from the end, and an index out of range is clamped to the nearest end. */
  function InsertPosition(n: nat, index: int): (k: nat)
    ensures k <= n
    ensures 0 <= index <= n ==> k == index
    ensures index < 0 && n + index >= 0 ==> k == n + index
    ensures index > n ==> k == n
    ensures n + index < 0 ==> k == 0
  {
    if index < 0 then (if n + index < 0 then 0 else n + index)
    else if index > n then n
    else index
  }

  function Insert(scenes: seq<Scene>, k: nat, s: Scene): (r: seq<Scene>)
    requires k <= |scenes|
    ensures |r| == |scenes| + 1 && r[k] == s
    ensures forall j :: 0 <= j < k ==> r[j] == scenes[j]
    ensures forall j :: k < j < |r| ==> r[j] == scenes[j - 1]
  {
    scenes[..k] + [s] + scenes[k..]
  }

  function RemoveAt(scenes: seq<Scene>, k: nat): (r: seq<Scene>)
    requires k < |scenes|
    ensures |r| == |scenes| - 1
    ensures forall j :: 0 <= j < k ==> r[j] == scenes[j]
    ensures forall j :: k <= j < |r| ==> r[j] == scenes[j + 1]
  {
    scenes[..k] + scenes[k + 1..]
  }

  function Swap(scenes: seq<Scene>, i: nat, j: nat): (r: seq<Scene>)
    requires i < |scenes| && j < |scenes|
    ensures |r| == |scenes| && r[i] == scenes[j] && r[j] == scenes[i]
    ensures forall k :: 0 <= k < |r| && k != i && k != j ==> r[k] == scenes[k]
    ensures multiset(r) == multiset(scenes)
  {
    scenes[i := scenes[j]][j := scenes[i]]
  }

  /** `remove_scene` on a list: the new list, or None when nothing is removed. */
  function RemovedById(scenes: seq<Scene>, id: string): Option<seq<Scene>> {
    if |scenes| <= 1 then None
    else match IndexOf(scenes, id)
      case None => None
      case Some(k) => Some(RemoveAt(scenes, k))
  }

  /** `move_scene` on a list: the new list, or None when nothing moves. */
  function MovedById(scenes: seq<Scene>, id: string, direction: int): Option<seq<Scene>> {
    match IndexOf(scenes, id)
    case None => None
    case Some(i) =>
      if 0 <= i + direction < |scenes| then Some(Swap(scenes, i, i + direction)) else None
  }

  predicate UniqueIds(scenes: seq<Scene>) {
    forall i, j :: 0 <= i < j < |scenes| ==> scenes[i].id != scenes[j].id
  }

  /** Removing the scene just added, under an id no other scene has, restores the list. */
  lemma RemoveUndoesInsert(scenes: seq<Scene>, k: nat, s: Scene)
    requires k <= |scenes|
    requires forall j :: 0 <= j < |scenes| ==> scenes[j].id != s.id
    ensures RemovedById(Insert(scenes, k, s), s.id) == if scenes == [] then None else Some(scenes)
  {
    var t := Insert(scenes, k, s);
    IndexOfIs(t, s.id, k);
    if scenes != [] {
      assert RemoveAt(t, k) == scenes;
    }
  }

  /** Moving a scene down one place and then up one place restores the order. */
  lemma MoveDownThenUp(scenes: seq<Scene>, id: string)
    requires UniqueIds(scenes)
    requires MovedById(scenes, id, 1).Some?
    ensures MovedById(MovedById(scenes, id, 1).value, id, -1) == Some(scenes)
  {
    var i := IndexOf(scenes, id).value;
    var t := Swap(scenes, i, i + 1);
    assert t[i] == scenes[i + 1];
    IndexOfIs(t, id, i + 1);
    SwapBack(scenes, i, i + 1);
  }

  lemma SwapBack(scenes: seq<Scene>, i: nat, j: nat)
    requires i < |scenes| && j < |scenes|
    ensures Swap(Swap(scenes, i, j), j, i) == scenes
  {
    var t := Swap(Swap(scenes, i, j), j, i);
    assert forall k :: 0 <= k < |t| ==> t[k] == scenes[k];
  }

  /** Removal never empties the list and never loses more than the one scene. */
  lemma RemoveKeepsOne(scenes: seq<Scene>, id: string)
    requires RemovedById(scenes, id).Some?
    ensures var r := RemovedById(scenes, id).value;
      |r| == |scenes| - 1 >= 1 && multiset(r) + multiset{scenes[IndexOf(scenes, id).value]} == multiset(scenes)
  {
    var k := IndexOf(scenes, id).value;
    MultisetRemoveAt(scenes, k);
  }

  lemma MultisetRemoveAt<T>(s: seq<T>, k: nat)
    requires k < |s|
    ensures multiset(s[..k] + s[k + 1..]) + multiset{s[k]} == multiset(s)
  {
    assert s == s[..k] + [s[k]] + s[k + 1..];
  }

  // ---------------------------------------------------------------- the project

  class Project {
    var projectPath: Option<string>
    var scenes: seq<Scene>
    var output: OutputSettings
    var settings: ProjectSettings
    /** `uuid.uuid4()`: the k-th call returns `uuid4(k)`. */
    const uuid4: nat -> string
    /** How many uuids have been drawn. */
    var drawn: nat

    /** `Project()` without an existing project file: two default scenes. */
    constructor (projectPath: Option<string>, uuid4: nat -> string)
      ensures this.projectPath == projectPath && this.uuid4 == uuid4
      ensures scenes == [NewScene(uuid4(0)), NewScene(uuid4(1))] && drawn == 2
      ensures output == DefaultOutput && settings == DefaultSettings
    {
      this.projectPath := projectPath;
      this.uuid4 := uuid4;
      scenes := [];
      output := DefaultOutput;
      settings := DefaultSettings;
      drawn := 0;
      new;
      InitializeDefaultScenes();
    }

    /** `initialize_default_scenes`: exactly two fresh scenes. */
    method InitializeDefaultScenes()
      modifies this`scenes, this`drawn
      ensures scenes == [NewScene(uuid4(old(drawn))), NewScene(uuid4(old(drawn) + 1))]
      ensures drawn == old(drawn) + 2
    {
      scenes := [NewScene(uuid4(drawn)), NewScene(uuid4(drawn + 1))];
      drawn := drawn + 2;
    }

    /** `add_scene(index)`: a fresh scene at the end (None) or where `list.insert` puts it. */
    method AddScene(index: Option<int>) returns (scene: Scene)
      modifies this`scenes, this`drawn
      ensures scene == NewScene(uuid4(old(drawn))) && drawn == old(drawn) + 1
      ensures index.None? ==> scenes == old(scenes) + [scene]
      ensures index.Some? ==> scenes == Insert(old(scenes), InsertPosition(|old(scenes)|, index.value), scene)
    {
      scene := NewScene(uuid4(drawn));
      drawn := drawn + 1;
      if index.None? {
        scenes := scenes + [scene];
      } else {
        var k := InsertPosition(|scenes|, index.value);
        scenes := scenes[..k] + [scene] + scenes[k..];
      }
    }

    /** `remove_scene(id)`: deletes the first scene with that id unless one scene is left. */
    method RemoveScene(id: string) returns (removed: bool)
      modifies this`scenes
      ensures removed <==> RemovedById(old(scenes), id).Some?
      ensures scenes == if removed then RemovedById(old(scenes), id).value else old(scenes)
    {
      if |scenes| <= 1 {
        return false;
      }
      var i := 0;
      while i < |scenes|
        invariant 0 <= i <= |scenes| && scenes == old(scenes)
        invariant forall k :: 0 <= k < i ==> scenes[k].id != id
      {
        if scenes[i].id == id {
          scenes := scenes[..i] + scenes[i + 1..];
          return true;
        }
        i := i + 1;
      }
      return false;
    }

    /** `move_scene(id, direction)`: swaps the first scene with that id with the one
        `direction` places away, when that place exists. */
    method MoveScene(id: string, direction: int) returns (moved: bool)
      modifies this`scenes
      ensures moved <==> MovedById(old(scenes), id, direction).Some?
      ensures scenes == if moved then MovedById(old(scenes), id, direction).value else old(scenes)
      ensures multiset(scenes) == multiset(old(scenes))
    {
      var i := 0;
      while i < |scenes|
        invariant 0 <= i <= |scenes| && scenes == old(scenes)
        invariant forall k :: 0 <= k < i ==> scenes[k].id != id
      {
        if scenes[i].id == id {
          var target := i + direction;
          if 0 <= target < |scenes| {
            scenes := Swap(scenes, i, target);
            return true;
          }
          return false;
        }
        i := i + 1;
      }
      return false;
    }

    /** `get_scene(id)`: the first scene with that id, or None. */
    method GetScene(id: string) returns (r: Option<Scene>)
      ensures r.Some? <==> IndexOf(scenes, id).Some?
      ensures r.Some? ==> r.value == scenes[IndexOf(scenes, id).value]
    {
      for i := 0 to |scenes|
        invariant forall k :: 0 <= k < i ==> scenes[k].id != id
      {
        if scenes[i].id == id {
          return Some(scenes[i]);
        }
      }
      return None;
    }

    /** `total_scenes` */
    function TotalScenes(): (n: nat)
      reads this
      ensures n == 0 <==> !IsValid()
    {
      |scenes|
    }

    /** `is_valid`: at least one scene. */
    predicate IsValid()
      reads this
    {
      |scenes| > 0
    }

    /** `Project.to_dict()` */
    function ToDict(): Json.Object
      reads this
    {
      map["scenes" := Json.List(ScenesToList(scenes)),
          "output" := Json.Dict(output.ToDict()),
          "settings" := Json.Dict(settings.ToDict())]
    }

    /** `save(path)`: `to_dict()`, encoded by `encode` (`json.dump`), replaces the file at
        `path or self.project_path`, which is remembered; the ValueError when neither
        names a file, and then nothing changes. */
    method Save(path: Option<string>, fs: FileSystem, encode: Json.Object -> Bytes) returns (r: Result<()>)
      modifies this`projectPath, fs
      ensures var target := PathOr(path, old(projectPath));
        if target.Some?
        then r == Ok(()) && projectPath == target
             && fs.files == old(fs.files)[target.value := encode(ToDict())]
        else r == Err(NoSavePath) && projectPath == old(projectPath) && fs.files == old(fs.files)
    {
      var target := PathOr(path, projectPath);
      if target.None? {
        return Err(NoSavePath);
      }
      projectPath := target;
      fs.Write(target.value, encode(ToDict()));
      return Ok(());
    }

    /**
     * `load(path)`: the file at `path or self.project_path` is decoded by `decode`
     * (`json.load`), then the three parts are read and assigned in order: the scenes
     * (each `Scene.from_dict` drawing one uuid), then the output settings, then the engine
     * settings, and only then the path is remembered. No path, a missing file or one that
     * does not decode raises (false) and changes nothing; a part that cannot be read
     * raises and leaves it and the later parts as they were, while the parts before it
     * have already been replaced.
     */
    method Load(path: Option<string>, fs: FileSystem, decode: Bytes -> Option<Json.Object>) returns (ok: bool)
      modifies this`scenes, this`output, this`settings, this`drawn, this`projectPath
      ensures var target := PathOr(path, old(projectPath));
        var doc := ReadProjectFile(target, fs.files, decode);
        var ss := if doc.Some? then ReadScenes(doc.value, old(drawn), uuid4) else None;
        var o := if doc.Some? then ReadOutput(doc.value) else None;
        var st := if doc.Some? then ReadSettings(doc.value) else None;
        && ok == (doc.Some? && ReadDocument(doc.value, old(drawn), uuid4).Some?)
        && (if ss.Some? then scenes == ss.value && drawn == old(drawn) + |ss.value|
            else scenes == old(scenes) && drawn == old(drawn))
        && output == (if ss.Some? && o.Some? then o.value else old(output))
        && settings == (if ok then st.value else old(settings))
        && projectPath == (if ok then target else old(projectPath))
    {
      var target := PathOr(path, projectPath);
      if target.None? || target.value !in fs.files {
        return false;
      }
      var decoded := decode(fs.files[target.value]);
      if decoded.None? {
        return false;
      }
      var doc := decoded.value;
      var ss := ReadScenes(doc, drawn, uuid4);
      if ss.None? {
        return false;
      }
      scenes := ss.value;
      drawn := drawn + |scenes|;
      var o := ReadOutput(doc);
      if o.None? {
        return false;
      }
      output := o.value;
      var st := ReadSettings(doc);
      if st.None? {
        return false;
      }
      settings := st.value;
      projectPath := target;
      return true;
    }
  }

  const NoSavePath := "保存先パスが指定されていません"

  /** `json.load(open(target))`: None where there is no target, no file there, or bytes
      that do not decode. */
  function ReadProjectFile(target: Option<string>, files: map<string, Bytes>,
                           decode: Bytes -> Option<Json.Object>): (r: Option<Json.Object>)
    ensures r.Some? <==> target.Some? && target.value in files && decode(files[target.value]).Some?
    ensures r.Some? ==> decode(files[target.value]) == r
  {
    if target.Some? && target.value in files then decode(files[target.value]) else None
  }

  /** `path or self.project_path`, None when neither is a non-empty string. */
  function PathOr(path: Option<string>, current: Option<string>): (r: Option<string>)
    ensures r.Some? <==> (path.Some? && path.value != "") || (current.Some? && current.value != "")
    ensures r.Some? ==> r.value != "" && (r == path || r == current)
    ensures path.Some? && path.value != "" ==> r == path
  {
    if path.Some? && path.value != "" then path
    else if current.Some? && current.value != "" then current
    else None
  }

  function ScenesToList(scenes: seq<Scene>): (r: seq<Json.Value>)
    ensures |r| == |scenes|
  {
    if scenes == [] then [] else [Json.Dict(scenes[0].ToDict())] + ScenesToList(scenes[1..])
  }

  /** `[Scene.from_dict(s) for s in items]`, the k-th drawing `uuid4(base + k)`. */
  function ScenesFromList(items: seq<Json.Value>, base: nat, uuid4: nat -> string): (r: Option<seq<Scene>>)
    ensures r.Some? ==> |r.value| == |items|
  {
    if items == [] then Some([])
    else if !items[0].Dict? then None
    else
      match (FromDict(items[0].entries, uuid4(base)), ScenesFromList(items[1..], base + 1, uuid4))
      case (Some(s), Some(rest)) => Some([s] + rest)
      case _ => None
  }

  /** `[Scene.from_dict(s) for s in data.get('scenes', [])]`: None where it raises. An
      empty dict or string iterates as no scene at all; any other value that is not a
      list either cannot be iterated or yields keys or characters, which `from_dict`
      cannot read. */
  function ReadScenes(doc: Json.Object, base: nat, uuid4: nat -> string): Option<seq<Scene>> {
    match Json.Get(doc, "scenes", Json.List([]))
    case List(items) => ScenesFromList(items, base, uuid4)
    case Dict(entries) => if entries == map[] then Some([]) else None
    case Str(text) => if text == "" then Some([]) else None
    case _ => None
  }

  /** `OutputSettings.from_dict(data.get('output', {}))`: None where it raises. */
  function ReadOutput(doc: Json.Object): Option<OutputSettings> {
    var out := Json.AsObject(Json.Get(doc, "output", Json.Dict(map[])));
    if out.None? then None else OutputFromDict(out.value)
  }

  /** `ProjectSettings.from_dict(data.get('settings', {}))`: None where it raises. */
  function ReadSettings(doc: Json.Object): Option<ProjectSettings> {
    var set_ := Json.AsObject(Json.Get(doc, "settings", Json.Dict(map[])));
    if set_.None? then None else SettingsFromDict(set_.value)
  }

  /** The whole document: its scenes, then its output settings, then its engine settings. */
  function ReadDocument(doc: Json.Object, base: nat, uuid4: nat -> string)
    : (r: Option<(seq<Scene>, OutputSettings, ProjectSettings)>)
    ensures r.Some? <==> ReadScenes(doc, base, uuid4).Some? && ReadOutput(doc).Some? && ReadSettings(doc).Some?
    ensures r.Some? ==> r.value == (ReadScenes(doc, base, uuid4).value, ReadOutput(doc).value, ReadSettings(doc).value)
  {
    match (ReadScenes(doc, base, uuid4), ReadOutput(doc), ReadSettings(doc))
    case (Some(ss), Some(o), Some(st)) => Some((ss, o, st))
    case _ => None
  }

  lemma {:induction false} ScenesRoundTrip(scenes: seq<Scene>, base: nat, uuid4: nat -> string)
    ensures ScenesFromList(ScenesToList(scenes), base, uuid4) == Some(scenes)
  {
    if scenes != [] {
      var items := ScenesToList(scenes);
      ScenesToListCons(scenes);
      FromToDict(scenes[0], uuid4(base));
      ScenesRoundTrip(scenes[1..], base + 1, uuid4);
      ScenesFromListCons(items, base, uuid4, scenes[0], scenes[1..]);
      assert [scenes[0]] + scenes[1..] == scenes;
    }
  }

  lemma ScenesToListCons(scenes: seq<Scene>)
    requires scenes != []
    ensures var items := ScenesToList(scenes);
      items[0] == Json.Dict(scenes[0].ToDict()) && items[1..] == ScenesToList(scenes[1..])
  {
    var r := ScenesToList(scenes[1..]);
    assert ([Json.Dict(scenes[0].ToDict())] + r)[1..] == r;
  }

  /** A list whose first item reads as `s` and whose other items read as `rest` reads as
      `[s] + rest`. */
  lemma ScenesFromListCons(items: seq<Json.Value>, base: nat, uuid4: nat -> string, s: Scene, rest: seq<Scene>)
    requires items != [] && items[0].Dict? && FromDict(items[0].entries, uuid4(base)) == Some(s)
    requires ScenesFromList(items[1..], base + 1, uuid4) == Some(rest)
    ensures ScenesFromList(items, base, uuid4) == Some([s] + rest)
  {
  }

  /** Saving a project and loading the saved document restores its scenes and settings. */
  lemma DocumentRoundTrip(scenes: seq<Scene>, output: OutputSettings, settings: ProjectSettings,
                          base: nat, uuid4: nat -> string)
    ensures ReadDocument(map["scenes" := Json.List(ScenesToList(scenes)),
                             "output" := Json.Dict(output.ToDict()),
                             "settings" := Json.Dict(settings.ToDict())], base, uuid4)
            == Some((scenes, output, settings))
  {
    var doc := map["scenes" := Json.List(ScenesToList(scenes)),
                   "output" := Json.Dict(output.ToDict()),
                   "settings" := Json.Dict(settings.ToDict())];
    assert Json.Get(doc, "scenes", Json.List([])) == Json.List(ScenesToList(scenes));
    assert Json.AsObject(Json.Get(doc, "output", Json.Dict(map[]))) == Some(output.ToDict());
    assert Json.AsObject(Json.Get(doc, "settings", Json.Dict(map[]))) == Some(settings.ToDict());
    ScenesRoundTrip(scenes, base, uuid4);
  }

  /** The file `save` writes to `target` is read back by `load` as the saved scenes and
      settings, whenever decoding inverts encoding. */
  lemma FileRoundTrip(scenes: seq<Scene>, output: OutputSettings, settings: ProjectSettings,
                      target: string, files: map<string, Bytes>, encode: Json.Object -> Bytes,
                      decode: Bytes -> Option<Json.Object>, base: nat, uuid4: nat -> string)
    requires forall d :: decode(encode(d)) == Some(d)
    ensures var doc := map["scenes" := Json.List(ScenesToList(scenes)),
                           "output" := Json.Dict(output.ToDict()),
                           "settings" := Json.Dict(settings.ToDict())];
      && ReadProjectFile(Some(target), files[target := encode(doc)], decode) == Some(doc)
      && ReadDocument(doc, base, uuid4) == Some((scenes, output, settings))
  {
    var doc := map["scenes" := Json.List(ScenesToList(scenes)),
                   "output" := Json.Dict(output.ToDict()),
                   "settings" := Json.Dict(settings.ToDict())];
    assert decode(encode(doc)) == Some(doc);
    DocumentRoundTrip(scenes, output, settings, base, uuid4);
  }
}
