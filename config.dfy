/**
 * src/insightmovie/core/config.py: the application settings, a JSON object kept in
 * `%LOCALAPPDATA%/InsightMovie/config.json`, read once at start-up and written back by
 * every setter.
 */
module Configs {

  import opened Wrappers
  import opened Files
  import Json

  const SetupCompleted := "setup_completed"
  const EngineUrlKey := "engine_url"
  const EnginePathKey := "engine_path"
  const DefaultSpeakerKey := "default_speaker_id"

  /** `d.get(key, default)` after `d[key] = value`: the new value under `key`, the old
      lookup under every other key. */
  lemma GetAfterSet(d: Json.Object, key: string, value: Json.Value, key': string, default: Json.Value)
    ensures Json.Get(d[key := value], key, default) == value
    ensures key' != key ==> Json.Get(d[key := value], key', default) == Json.Get(d, key', default)
  {
  }

  class Config {
    /** `Path(os.environ.get("LOCALAPPDATA", "")) / "InsightMovie"`; `localAppData` is the
        environment variable. */
    const configDir: string
    const configFile: string
    const fs: FileSystem
    /** `json.load` of the file's bytes: None where it raises. */
    const decode: Bytes -> Option<Json.Object>
    /** `json.dump(data, f, indent=2, ensure_ascii=False)` */
    const encode: Json.Object -> Bytes
    var data: Json.Object

    /** `Config()`: the paths under the local application data directory, then `load()`. */
    constructor (localAppData: Option<string>, fs: FileSystem, decode: Bytes -> Option<Json.Object>,
                 encode: Json.Object -> Bytes)
      ensures configDir == JoinTo(if localAppData.Some? then localAppData.value else "", "InsightMovie")
      ensures configFile == Join(configDir, "config.json")
      ensures this.fs == fs && this.decode == decode && this.encode == encode
      ensures data == Loaded(fs.files)
    {
      configDir := JoinTo(if localAppData.Some? then localAppData.value else "", "InsightMovie");
      configFile := Join(JoinTo(if localAppData.Some? then localAppData.value else "", "InsightMovie"), "config.json");
      this.fs := fs;
      this.decode := decode;
      this.encode := encode;
      data := map[];
      new;
      Load();
    }

    /** What `load` leaves in `data` when the disk holds `files`: the decoded file, or an
        empty object when the file is missing or does not decode. */
    function Loaded(files: map<string, Bytes>): (d: Json.Object)
      ensures configFile !in files ==> d == map[]
      ensures configFile in files && decode(files[configFile]).None? ==> d == map[]
      ensures configFile in files && decode(files[configFile]).Some? ==> d == decode(files[configFile]).value
    {
      if configFile in files then
        match decode(files[configFile])
        case None => map[]
        case Some(d) => d
      else map[]
    }

    /** `load()` */
    method Load()
      modifies this`data
      ensures data == Loaded(fs.files)
    {
      if configFile in fs.files {
        var decoded := decode(fs.files[configFile]);
        if decoded.Some? {
          data := decoded.value;
        } else {
          data := map[];
        }
      } else {
        data := map[];
      }
    }

    /** `save()`: the encoded object replaces the file. */
    method Save()
      modifies fs
      ensures fs.files == old(fs.files)[configFile := encode(data)]
    {
      fs.Write(configFile, encode(data));
    }

    /** `get(key, default)` */
    function Get(key: string, default: Json.Value): (v: Json.Value)
      reads this
      ensures key in data ==> v == data[key]
      ensures key !in data ==> v == default
    {
      Json.Get(data, key, default)
    }

    /** `set(key, value)`: only `key` changes. */
    method Set(key: string, value: Json.Value)
      modifies this`data
      ensures data == old(data)[key := value]
      ensures Get(key, Json.Null) == value
      ensures forall k :: k != key && k in old(data) ==> k in data && data[k] == old(data)[k]
      ensures forall k :: k != key ==> (k in data <==> k in old(data))
    {
      data := data[key := value];
    }

    /** `is_first_run`: `setup_completed` is missing or not truthy. */
    predicate IsFirstRun()
      reads this
    {
      !Json.Truthy(Get(SetupCompleted, Json.Bool(false)))
    }

    /** `mark_setup_completed()`: after it the application no longer counts as new. */
    method MarkSetupCompleted()
      modifies this`data, fs
      ensures data == old(data)[SetupCompleted := Json.Bool(true)]
      ensures !IsFirstRun()
      ensures fs.files == old(fs.files)[configFile := encode(data)]
    {
      Set(SetupCompleted, Json.Bool(true));
      Save();
    }

    /** The `engine_url` property. */
    function EngineUrl(): (v: Json.Value)
      reads this
      ensures EngineUrlKey !in data ==> v == Json.Null
      ensures EngineUrlKey in data ==> v == data[EngineUrlKey]
    {
      Get(EngineUrlKey, Json.Null)
    }

    /** The `engine_url` setter: writes that key only, then saves. */
    method SetEngineUrl(url: string)
      modifies this`data, fs
      ensures data == old(data)[EngineUrlKey := Json.Str(url)]
      ensures EngineUrl() == Json.Str(url)
      ensures EnginePath() == old(EnginePath()) && DefaultSpeakerId() == old(DefaultSpeakerId())
      ensures IsFirstRun() == old(IsFirstRun())
      ensures fs.files == old(fs.files)[configFile := encode(data)]
    {
      Set(EngineUrlKey, Json.Str(url));
      Save();
    }

    /** The `engine_path` property. */
    function EnginePath(): (v: Json.Value)
      reads this
      ensures EnginePathKey !in data ==> v == Json.Null
      ensures EnginePathKey in data ==> v == data[EnginePathKey]
    {
      Get(EnginePathKey, Json.Null)
    }

    /** The `engine_path` setter. */
    method SetEnginePath(path: string)
      modifies this`data, fs
      ensures data == old(data)[EnginePathKey := Json.Str(path)]
      ensures EnginePath() == Json.Str(path)
      ensures EngineUrl() == old(EngineUrl()) && DefaultSpeakerId() == old(DefaultSpeakerId())
      ensures IsFirstRun() == old(IsFirstRun())
      ensures fs.files == old(fs.files)[configFile := encode(data)]
    {
      Set(EnginePathKey, Json.Str(path));
      Save();
    }

    /** The `default_speaker_id` property. */
    function DefaultSpeakerId(): (v: Json.Value)
      reads this
      ensures DefaultSpeakerKey !in data ==> v == Json.Null
      ensures DefaultSpeakerKey in data ==> v == data[DefaultSpeakerKey]
    {
      Get(DefaultSpeakerKey, Json.Null)
    }

    /** The `default_speaker_id` setter. */
    method SetDefaultSpeakerId(speakerId: int)
      modifies this`data, fs
      ensures data == old(data)[DefaultSpeakerKey := Json.Int(speakerId)]
      ensures DefaultSpeakerId() == Json.Int(speakerId)
      ensures EngineUrl() == old(EngineUrl()) && EnginePath() == old(EnginePath())
      ensures IsFirstRun() == old(IsFirstRun())
      ensures fs.files == old(fs.files)[configFile := encode(data)]
    {
      Set(DefaultSpeakerKey, Json.Int(speakerId));
      Save();
    }
  }

  /** A configuration written by `save` and read back by `load` is the saved object,
      whenever decoding inverts encoding. */
  lemma SaveThenLoad(c: Config, files: map<string, Bytes>)
    requires forall d :: c.decode(c.encode(d)) == Some(d)
    ensures c.Loaded(files[c.configFile := c.encode(c.data)]) == c.data
  {
    assert c.decode(c.encode(c.data)) == Some(c.data);
  }

  /** A new installation, with no configuration file, counts as a first run. */
  lemma FreshInstallIsFirstRun(c: Config)
    requires c.data == c.Loaded(map[])
    ensures c.IsFirstRun()
  {
  }
}
