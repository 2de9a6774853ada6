/**
 * The scene record of src/insightmovie/project/scene.py: its two enumerations, its
 * defaults, the three presence predicates and the dictionary form written to the
 * project file.
 */
module Scenes {

  import opened Wrappers
  import opened Text
  import Json

  datatype MediaType = Image | Video | NoMedia

  /** `MediaType.value` */
  function MediaTypeValue(m: MediaType): (v: string)
    ensures ParseMediaType(v) == Some(m)
  {
    match m
    case Image => "image"
    case Video => "video"
    case NoMedia => "none"
  }

  /** `MediaType(v)`; None stands for the ValueError of an unknown value. */
  function ParseMediaType(v: string): (r: Option<MediaType>)
    ensures r.Some? <==> v in {"image", "video", "none"}
  {
    if v == "image" then Some(Image)
    else if v == "video" then Some(Video)
    else if v == "none" then Some(NoMedia)
    else None
  }

  datatype DurationMode = Auto | Fixed

  /** `DurationMode.value` */
  function DurationModeValue(d: DurationMode): (v: string)
    ensures ParseDurationMode(v) == Some(d)
  {
    match d
    case Auto => "auto"
    case Fixed => "fixed"
  }

  /** `DurationMode(v)` */
  function ParseDurationMode(v: string): (r: Option<DurationMode>)
    ensures r.Some? <==> v in {"auto", "fixed"}
  {
    if v == "auto" then Some(Auto)
    else if v == "fixed" then Some(Fixed)
    else None
  }

  /** The default length of a scene, in seconds. */
  const DefaultSeconds: real := 3.0

  datatype Scene = Scene(
    id: string,
    mediaPath: Option<string>,
    mediaType: MediaType,
    narrationText: string,
    subtitleText: string,
    durationMode: DurationMode,
    fixedSeconds: real,
    audioCachePath: Option<string>,
    videoCachePath: Option<string>)
  {
    predicate HasMedia() {
      mediaType != NoMedia && mediaPath.Some?
    }

    predicate HasNarration() {
      |Strip(narrationText)| > 0
    }

    predicate HasSubtitle() {
      |Strip(subtitleText)| > 0
    }

    /** `Scene.to_dict()` */
    function ToDict(): Json.Object {
      map[
        "id" := Json.Str(id),
        "media_path" := Json.OptionalString(mediaPath),
        "media_type" := Json.Str(MediaTypeValue(mediaType)),
        "narration_text" := Json.Str(narrationText),
        "subtitle_text" := Json.Str(subtitleText),
        "duration_mode" := Json.Str(DurationModeValue(durationMode)),
        "fixed_seconds" := Json.Float(fixedSeconds),
        "audio_cache_path" := Json.OptionalString(audioCachePath),
        "video_cache_path" := Json.OptionalString(videoCachePath)
      ]
    }
  }

  /** `Scene()`, whose id is the fresh `str(uuid.uuid4())` given as `id`. */
  function NewScene(id: string): Scene {
    Scene(id, None, NoMedia, "", "", Auto, DefaultSeconds, None, None)
  }

  /** A fresh scene has no media, no narration and no subtitle. */
  lemma NewSceneIsBlank(id: string)
    ensures var s := NewScene(id); !s.HasMedia() && !s.HasNarration() && !s.HasSubtitle()
  {
    assert Strip("") == "" by { TrimEmptyIffAllDropped("", None); }
  }

  function MediaTypeOf(v: Json.Value): Option<MediaType> {
    if v.Str? then ParseMediaType(v.s) else None
  }

  function DurationModeOf(v: Json.Value): Option<DurationMode> {
    if v.Str? then ParseDurationMode(v.s) else None
  }

  /**
   * `Scene.from_dict(d)`. A missing key takes the field's default; `freshId` is the
   * uuid drawn for a missing id. None stands for the ValueError of an unknown enum value,
   * and for a value whose JSON type does not fit the field.
   */
  function FromDict(d: Json.Object, freshId: string): (r: Option<Scene>)
  {
    var id := Json.AsString(Json.Get(d, "id", Json.Str(freshId)));
    var mediaPath := Json.AsOptionalString(Json.Get(d, "media_path", Json.Null));
    var mediaType := MediaTypeOf(Json.Get(d, "media_type", Json.Str("none")));
    var narration := Json.AsString(Json.Get(d, "narration_text", Json.Str("")));
    var subtitle := Json.AsString(Json.Get(d, "subtitle_text", Json.Str("")));
    var mode := DurationModeOf(Json.Get(d, "duration_mode", Json.Str("auto")));
    var seconds := Json.AsReal(Json.Get(d, "fixed_seconds", Json.Float(DefaultSeconds)));
    var audio := Json.AsOptionalString(Json.Get(d, "audio_cache_path", Json.Null));
    var video := Json.AsOptionalString(Json.Get(d, "video_cache_path", Json.Null));
    if id.Some? && mediaPath.Some? && mediaType.Some? && narration.Some? && subtitle.Some?
       && mode.Some? && seconds.Some? && audio.Some? && video.Some?
    then
      Some(Scene(id.value, mediaPath.value, mediaType.value, narration.value, subtitle.value,
                 mode.value, seconds.value, audio.value, video.value))
    else None
  }

  /** `from_dict(to_dict(s))` gives the scene back, whatever id a missing key would draw. */
  lemma FromToDict(s: Scene, freshId: string)
    ensures FromDict(s.ToDict(), freshId) == Some(s)
  {
    var d := s.ToDict();
    assert Json.AsString(Json.Get(d, "id", Json.Str(freshId))) == Some(s.id);
    assert Json.AsOptionalString(Json.Get(d, "media_path", Json.Null)) == Some(s.mediaPath);
    assert MediaTypeOf(Json.Get(d, "media_type", Json.Str("none"))) == Some(s.mediaType);
    assert Json.AsString(Json.Get(d, "narration_text", Json.Str(""))) == Some(s.narrationText);
    assert Json.AsString(Json.Get(d, "subtitle_text", Json.Str(""))) == Some(s.subtitleText);
    assert DurationModeOf(Json.Get(d, "duration_mode", Json.Str("auto"))) == Some(s.durationMode);
    assert Json.AsReal(Json.Get(d, "fixed_seconds", Json.Float(DefaultSeconds))) == Some(s.fixedSeconds);
    assert Json.AsOptionalString(Json.Get(d, "audio_cache_path", Json.Null)) == Some(s.audioCachePath);
    assert Json.AsOptionalString(Json.Get(d, "video_cache_path", Json.Null)) == Some(s.videoCachePath);
  }

  /** A scene read from an empty dictionary is a fresh scene with the drawn id. */
  lemma FromEmptyDictIsNewScene(freshId: string)
    ensures FromDict(map[], freshId) == Some(NewScene(freshId))
  {
  }

  /** Each missing key takes its field's default. */
  lemma FromDictDefaults(d: Json.Object, freshId: string)
    requires FromDict(d, freshId).Some?
    ensures var s := FromDict(d, freshId).value;
      && ("id" !in d ==> s.id == freshId)
      && ("media_path" !in d ==> s.mediaPath == None)
      && ("media_type" !in d ==> s.mediaType == NoMedia)
      && ("narration_text" !in d ==> s.narrationText == "")
      && ("subtitle_text" !in d ==> s.subtitleText == "")
      && ("duration_mode" !in d ==> s.durationMode == Auto)
      && ("fixed_seconds" !in d ==> s.fixedSeconds == DefaultSeconds)
      && ("audio_cache_path" !in d ==> s.audioCachePath == None)
      && ("video_cache_path" !in d ==> s.videoCachePath == None)
  {
  }

  /** An unknown `media_type` or `duration_mode` string is rejected. */
  lemma FromDictRejectsUnknownEnum(d: Json.Object, freshId: string)
    requires ("media_type" in d && d["media_type"].Str? && d["media_type"].s !in {"image", "video", "none"})
          || ("duration_mode" in d && d["duration_mode"].Str? && d["duration_mode"].s !in {"auto", "fixed"})
    ensures FromDict(d, freshId) == None
  {
  }

  /** Narration (and, alike, a subtitle) is present exactly when its text has a
      character that is not white space. */
  lemma HasTextIff(text: string)
    ensures |Strip(text)| > 0 <==> exists i :: 0 <= i < |text| && !IsSpace(text[i])
  {
    TrimEmptyIffAllDropped(text, None);
  }

  lemma HasNarrationIff(s: Scene)
    ensures s.HasNarration() <==> exists i :: 0 <= i < |s.narrationText| && !IsSpace(s.narrationText[i])
  {
    HasTextIff(s.narrationText);
  }

  lemma HasSubtitleIff(s: Scene)
    ensures s.HasSubtitle() <==> exists i :: 0 <= i < |s.subtitleText| && !IsSpace(s.subtitleText[i])
  {
    HasTextIff(s.subtitleText);
  }
}
