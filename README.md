# InsightMovie core, modelled in Dafny

InsightMovie turns a *project* into a narrated video. A project is an ordered list of
*scenes*. Each scene has optional media (an image or a video clip), a narration text, a
subtitle text, and a length that either follows the narration (AUTO) or is fixed (FIXED).

The *export* (`VideoGenerationThread.run`) works scene by scene, in project order:

- It synthesises each narration with the VOICEVOX engine, or reuses a WAV file from the
  audio cache.
- It settles each scene's length.
- It renders each scene to a numbered clip: a base clip from the media or a black frame,
  then a subtitle band burnt in, then the narration muxed in.
- It joins the clips into the output file and deletes the clips.

Alongside the export, the model covers:

- the project file format;
- the encoder wrapper and its discovery of the ffmpeg program;
- the engine client (port scan and speaker choice);
- the application configuration;
- the two installers, which download and unpack the engine and the encoder.

The model gives every component the same disk, the `Files.FileSystem` class: a map from
path to bytes. The encoder is an oracle. It maps a command line and the disk it sees to an
outcome: an exception, or an exit code with the output streams and the bytes written to
the last argument. Every run is logged in `FFmpegWrapper.runs`. The following are also
parameters (oracles):

- the engine's HTTP answers, each the decoded body or the text `str(e)` of the `RequestException` it raised;
- md5;
- the WAV header reader;
- zip archives;
- `json.load`/`json.dump`;
- `uuid4`;
- `str(float)`;
- `Path.absolute`.

Code that changes state step by step becomes class methods. Each method is proved against
a specification function or predicate:

| method | specification |
|---|---|
| `ExtractAll` in each installer | `Unpacked` / `Extracted` |
| `ConcatVideos` | `Manifest` |
| `ConcatVideosWithReEncode` | `ReencodedThenJoined` / `JoinedBy` |
| `GenerateScene` and its stages | `Rendered` / `Subtitled` / `Muxed` |
| `Narrate` | `Narrated` |
| `RenderScene` | `Resolve` / `DidWork` / `AfterRender` |
| `Run` | `Trace` / `Exported` / `Worked` |

Pure code becomes functions, and the properties the code promises are lemmas about those
functions.

Where the code and its documentation disagree, the model follows the code:

- A new project gets two default scenes (`project.py:83`). The comment at `project.py:78`
  and `test_integration.py:31` expect four.
- A narrated AUTO scene lasts exactly as long as its audio. No silence is added before or
  after it.
- When a scene ends the export part-way, the clips of the earlier scenes stay on the disk.
  Only an export that reaches the join deletes its clips (`project_window.py:134-136`,
  `project_window.py:149-152`).
- A cached narration whose WAV header cannot be read has length None. Its progress message
  formats that length with `:.2f` (`project_window.py:83`), which raises. The `except` at
  `project_window.py:159` turns this into a failed export. The model does the same:
  `Exports.Resolve` gives an error for `Voiced(_, None)`. The fallback
  `duration or scene.fixed_seconds` at `project_window.py:128` therefore only replaces a
  length of 0.0.

## Model

| member | source | states |
|---|---|---|
| Scenes.MediaTypeValue | src/insightmovie/project/scene.py:11-15 | `MediaType(m.value) == m` for every media type |
| Scenes.ParseMediaType | src/insightmovie/project/scene.py:11-15 | the constructor accepts exactly "image", "video", "none"; anything else is the ValueError (None) |
| Scenes.DurationModeValue | src/insightmovie/project/scene.py:18-21 | `DurationMode(d.value) == d` |
| Scenes.ParseDurationMode | src/insightmovie/project/scene.py:18-21 | accepts exactly "auto" and "fixed" |
| Scenes.FromToDict | src/insightmovie/project/scene.py:47-74 | `from_dict(to_dict(s))` gives back every field of `s`, enums carried by their string values, whatever id a missing key would draw |
| Scenes.Scene.ToDict | src/insightmovie/project/scene.py:47-60 | the nine keys `id`, `media_path`, `media_type`, `narration_text`, `subtitle_text`, `duration_mode`, `fixed_seconds`, `audio_cache_path`, `video_cache_path`, enums by their string values, absent paths as null |
| Scenes.FromDict | src/insightmovie/project/scene.py:61-74 | reads each of the nine keys with its default (a fresh uuid for `id`); None when an enum string is unknown or a value has the wrong type |
| Scenes.Scene.HasMedia | src/insightmovie/project/scene.py:76-79 | a media type other than `NONE` and a media path |
| Scenes.NewSceneIsBlank | src/insightmovie/project/scene.py:28-45 | a fresh scene has no media, no narration and no subtitle |
| Scenes.FromEmptyDictIsNewScene | src/insightmovie/project/scene.py:61-74 | an empty dictionary reads as a fresh scene with the drawn uuid |
| Scenes.FromDictDefaults | src/insightmovie/project/scene.py:64-74 | every missing key takes its default: media NONE, mode AUTO, 3.0 seconds, empty texts, None paths |
| Scenes.FromDictRejectsUnknownEnum | src/insightmovie/project/scene.py:67-70 | an unknown `media_type` or `duration_mode` string makes `from_dict` fail |
| Scenes.HasTextIff | src/insightmovie/project/scene.py:81-89 | `len(text.strip()) > 0` exactly when some character is not whitespace |
| Scenes.HasNarrationIff | src/insightmovie/project/scene.py:81-84 | `has_narration` holds exactly when the narration has a non-whitespace character |
| Scenes.HasSubtitleIff | src/insightmovie/project/scene.py:86-89 | `has_subtitle` holds exactly when the subtitle has a non-whitespace character |
| Projects.OutputSettings.ToDict | src/insightmovie/project/project.py:20-33 | `OutputSettings.from_dict(to_dict(o)) == o` |
| Projects.OutputFromDict | src/insightmovie/project/project.py:27-33 | an empty dictionary gives the defaults 1080x1920, 30 fps, empty output path |
| Projects.ProjectSettings.ToDict | src/insightmovie/project/project.py:44-59 | `ProjectSettings.from_dict(to_dict(s)) == s` |
| Projects.SettingsFromDict | src/insightmovie/project/project.py:52-59 | an empty dictionary gives the defaults, the engine at http://127.0.0.1:50021 |
| Projects.IndexOf | src/insightmovie/project/project.py:116-117 | the position of the first scene with the id, or None when no scene has it |
| Projects.InsertPosition | src/insightmovie/project/project.py:99 | where `list.insert(index, x)` puts `x`: the index when in range, counted from the end when negative, clamped to the ends |
| Projects.Insert | src/insightmovie/project/project.py:99 | the list grows by one, the new scene sits at the position, the others keep their order |
| Projects.RemoveAt | src/insightmovie/project/project.py:118 | `pop(i)`: one scene fewer, the others in order |
| Projects.Swap | src/insightmovie/project/project.py:137-138 | the two positions exchanged, the rest unchanged, the multiset of scenes preserved |
| Projects.RemoveUndoesInsert | src/insightmovie/project/project.py:95-120 | removing by its id a scene just added (under a fresh id) restores the list |
| Projects.MoveDownThenUp | src/insightmovie/project/project.py:133-141 | with unique ids, moving a scene by +1 and then by -1 restores the order |
| Projects.SwapBack | src/insightmovie/project/project.py:137-138 | swapping twice restores the list |
| Projects.RemoveKeepsOne | src/insightmovie/project/project.py:112-120 | a removal leaves at least one scene and loses exactly one |
| Projects.Project.constructor | src/insightmovie/project/project.py:65-83 | a project without a file has exactly two fresh scenes and default settings |
| Projects.Project.InitializeDefaultScenes | src/insightmovie/project/project.py:81-83 | the scenes become exactly two fresh scenes |
| Projects.Project.AddScene | src/insightmovie/project/project.py:85-100 | None appends; an index inserts where `list.insert` does; the returned scene is the new one |
| Projects.Project.RemoveScene | src/insightmovie/project/project.py:102-120 | false and no change with at most one scene or an unknown id; else the first scene with the id is gone |
| Projects.Project.MoveScene | src/insightmovie/project/project.py:122-141 | swaps the first scene with the id with its neighbour when in range, else false and no change; the multiset is kept |
| Projects.Project.GetScene | src/insightmovie/project/project.py:143-148 | the first scene with the id, or None |
| Projects.Project.TotalScenes | src/insightmovie/project/project.py:193-201 | the count is zero exactly when the project is not valid |
| Projects.Project.IsValid | src/insightmovie/project/project.py:198-201 | at least one scene |
| Projects.Project.ToDict | src/insightmovie/project/project.py:150-156 | the keys `scenes` (each scene's `to_dict()`, in order), `output` and `settings` |
| Projects.Project.Save | src/insightmovie/project/project.py:158-172 | the encoded `to_dict()` replaces the file at `path or project_path` on the disk and that path is remembered; when neither is set, the ValueError and no change |
| Projects.Project.Load | src/insightmovie/project/project.py:174-191 | no path, no file there or bytes that do not decode: false and nothing changes; otherwise, on the decoded file, the scenes (one uuid drawn per scene), the output settings and the engine settings are replaced one after another, a part that raises leaving itself and every later part as it was; true, with the path remembered, exactly when all three parts read |
| Projects.ReadDocument | src/insightmovie/project/project.py:186-188 | the document reads exactly when its scene list, its output settings and its engine settings each read, and then gives those three |
| Projects.PathOr | src/insightmovie/project/project.py:165-167 | `path or self.project_path`: the given path first, None when neither is a non-empty string |
| Projects.ScenesRoundTrip | src/insightmovie/project/project.py:153-188 | reading the saved scene list gives the scenes back |
| Projects.DocumentRoundTrip | src/insightmovie/project/project.py:150-191 | loading a saved project document restores its scenes, output and settings |
| Projects.FileRoundTrip | src/insightmovie/project/project.py:158-191 | the file `save` writes is read back by `load` as the saved scenes, output and settings, given that the JSON codec round-trips |
| AudioCaches.CacheContentInjective | src/insightmovie/voicevox/audio_cache.py:38-39 | the hashed string `f"{text}_{speaker_id}"` determines text and speaker |
| AudioCaches.DurationFromHeader | src/insightmovie/voicevox/audio_cache.py:148-156 | frames / rate, non-negative, None when the header is unreadable or the rate is 0 |
| AudioCaches.WavFilesIn | src/insightmovie/voicevox/audio_cache.py:131 | exactly the `*.wav` files directly in the directory |
| AudioCaches.AudioCache.constructor | src/insightmovie/voicevox/audio_cache.py:14-25 | the given directory, else `insightmovie_cache/audio` in the temp directory |
| AudioCaches.AudioCache.CacheKey | src/insightmovie/voicevox/audio_cache.py:27-39 | the digest of the UTF-8 bytes of `f"{text}_{speaker_id}"` |
| AudioCaches.AudioCache.CachePath | src/insightmovie/voicevox/audio_cache.py:41-53 | `cache_dir / (key + ".wav")`, a WAV file directly in the cache directory |
| AudioCaches.AudioCache.Exists | src/insightmovie/voicevox/audio_cache.py:55-67 | a file is at the entry's path |
| AudioCaches.AudioCache.Save | src/insightmovie/voicevox/audio_cache.py:69-84 | writes the bytes at the entry's path, replacing an older entry, and returns that path |
| AudioCaches.AudioCache.Load | src/insightmovie/voicevox/audio_cache.py:86-102 | the stored bytes exactly when the entry exists, else None |
| AudioCaches.AudioCache.GetDuration | src/insightmovie/voicevox/audio_cache.py:104-127 | None without an entry; otherwise the duration of the entry's bytes |
| AudioCaches.AudioCache.DurationFromBytes | src/insightmovie/voicevox/audio_cache.py:135-156 | defined exactly when the header reads with a non-zero rate |
| AudioCaches.AudioCache.ClearCache | src/insightmovie/voicevox/audio_cache.py:129-133 | deletes exactly the `*.wav` files of the cache directory |
| AudioCaches.SaveThenLoad | src/insightmovie/voicevox/audio_cache.py:69-127 | after `save`, `exists` holds, `load` gives the saved bytes and `get_duration` their duration |
| AudioCaches.SaveKeepsOthers | src/insightmovie/voicevox/audio_cache.py:81-84 | saving one entry leaves every entry with a different key as it was |
| AudioCaches.ClearedCacheIsEmpty | src/insightmovie/voicevox/audio_cache.py:129-133 | for a key without `/` (every hex digest, by `HexKeyIsFileName`), after `clear_cache` that entry no longer exists; every other file is untouched |
| AudioCaches.HexKeyIsFileName | src/insightmovie/voicevox/audio_cache.py:27-53 | when the digest is hexadecimal, as `hexdigest()` is, the key has no `/` and the cache path is a `*.wav` file directly in the cache directory |
| SceneGenerators.EscapeFilterValue | src/insightmovie/video/scene_generator.py:49-64 | a backslash before each backslash, colon and quote; unescaping gives the input back; the length grows by their count |
| SceneGenerators.EscapeChainIsEach | src/insightmovie/video/scene_generator.py:59-64 | the three chained `replace` calls, backslashes first, equal the one-pass escaping |
| SceneGenerators.UnescapeEscape | src/insightmovie/video/scene_generator.py:59-64 | dropping each escape prefix recovers the input |
| SceneGenerators.EscapePlain | src/insightmovie/video/scene_generator.py:59-64 | text without the three characters is left alone |
| SceneGenerators.FormatFontPath | src/insightmovie/video/scene_generator.py:66-70 | unescaping the result gives the slash form of the path |
| SceneGenerators.FormatWindowsPath | src/insightmovie/video/scene_generator.py:66-70 | `D:\rest` becomes `D\:/rest` with slashes |
| SceneGenerators.FindDefaultFont | src/insightmovie/video/scene_generator.py:27-47 | the first font of the list that exists, else the first of the list |
| SceneGenerators.ParseResolutionText | src/insightmovie/video/scene_generator.py:104 | a printed `WxH` parses back to its two numbers |
| SceneGenerators.ParseResolutionNeedsOneX | src/insightmovie/video/scene_generator.py:104 | a resolution without exactly one `x` is rejected |
| SceneGenerators.BandGeometry | src/insightmovie/video/scene_generator.py:311-331 | the band is `int(h*0.10)` high, inside the frame and ending at its bottom; the font size fits in it |
| SceneGenerators.BaseArgs | src/insightmovie/video/scene_generator.py:109-141 | image, video or blank stage by the scene's media; only the video stage drops the source audio (`-an`) |
| SceneGenerators.SceneGenerator.constructor | src/insightmovie/video/scene_generator.py:18-25 | the given font, else the default font |
| SceneGenerators.SceneGenerator.AddSubtitle | src/insightmovie/video/scene_generator.py:297-356 | one run of `[ffmpeg] + SubtitleArgs + ["-y", temp]` on the disk with the fresh `.mp4` temp and the fresh `.txt` file holding the UTF-8 text; on exit code 0 the temp holds what the run wrote and is returned, otherwise the disk is as before; the text file is gone either way |
| SceneGenerators.SceneGenerator.AddAudio | src/insightmovie/video/scene_generator.py:358-398 | false with no encoder run when either input is missing; else one mux run writing the output |
| SceneGenerators.SceneGenerator.SubtitleStage | src/insightmovie/video/scene_generator.py:144-162 | the track, runs and disk are what `Subtitled` gives: no run without a subtitle; otherwise one burn-in run reading the text file, after which the subtitled clip replaces the old one on success and the old clip is kept on failure |
| SceneGenerators.SceneGenerator.Finish | src/insightmovie/video/scene_generator.py:164-186 | the result, runs and disk are what `Muxed` gives: the narration muxed in when the audio file exists, false with no run when it does not, the clip copied when no audio is given; the working clip is deleted |
| SceneGenerators.SceneGenerator.Render | src/insightmovie/video/scene_generator.py:106-188 | the runs are base, then subtitle, then mux, and the result and disk are what `Rendered` gives for fresh temp names |
| SceneGenerators.SceneGenerator.GenerateScene | src/insightmovie/video/scene_generator.py:72-194 | an unparsable resolution gives false with no run and no change; otherwise the runs, result and disk are what `Rendered` gives for `str(duration)` and the parsed size; no file but the output changes, and the output exists on success |
| SceneGenerators.SceneGenerator.SubtitleThenFinish | src/insightmovie/video/scene_generator.py:144-186 | the subtitle stage's runs as `Subtitled` gives them, then the last stage, as `Muxed` gives it, on the track and disk the subtitle stage left |
| SceneGenerators.RenderedStages | src/insightmovie/video/scene_generator.py:106-181 | the base stage runs the scene's own arguments into its temp file; a subtitle run exactly when the base clip was made and the scene has a subtitle, reading the text file that holds the subtitle in UTF-8; a mux exactly when the base clip was made and the audio file exists; the result is the base stage's and, with audio, the mux's |
| SceneGenerators.RenderedFiles | src/insightmovie/video/scene_generator.py:144-186 | the mux reads the original disk with only the clip it takes added; on failure the disk is as before; on success only the output changes, and it holds what the mux wrote, or the subtitled clip, or the base clip |
| SceneGenerators.RenderedOnlyOutput | src/insightmovie/video/scene_generator.py:180-188 | `generate_scene` changes no file but its output, and on success the output exists |
| SceneGenerators.SubtitledOnFresh | src/insightmovie/video/scene_generator.py:144-158 | the subtitle stage on a fresh clip leaves the disk with only the clip it goes on with added: the subtitled clip on success, else the base clip |
| SceneGenerators.MuxedOnFresh | src/insightmovie/video/scene_generator.py:164-186 | the last stage on a fresh clip reads the disk with only that clip added, and leaves only the output changed, and only on success |
| Composers.ManifestLines | src/insightmovie/video/video_composer.py:56-59 | one `file '<path>'` line per clip, in the clips' order |
| Composers.ConcatArgs | src/insightmovie/video/video_composer.py:64-71 | `-f concat -safe 0 -i <list> -c copy -y <output>` |
| Composers.VideoComposer.ConcatVideos | src/insightmovie/video/video_composer.py:22-82 | empty list: false, no run; one clip: copied, no run; else one concat run over the manifest, whose result is returned, and the manifest is deleted |
| Composers.VideoComposer.WriteManifest | src/insightmovie/video/video_composer.py:49-61 | a fresh `.txt` file holding the UTF-8 manifest |
| Composers.VideoComposer.RemoveTemps | src/insightmovie/video/video_composer.py:144-146 | deletes exactly the listed files |
| Composers.VideoComposer.ReencodeAll | src/insightmovie/video/video_composer.py:112-138 | re-encodes in input order into fresh temp files; stops at the first failure after deleting every temp, the failing one included |
| Composers.VideoComposer.JoinAndClean | src/insightmovie/video/video_composer.py:140-148 | one temp file is copied with no run; two or more are joined, in their order, by one concat run over a fresh list file holding their manifest (`JoinedBy`); every temp file is deleted whatever the join returned |
| Composers.VideoComposer.ConcatVideosWithReEncode | src/insightmovie/video/video_composer.py:84-152 | no run for an empty list or a bad resolution; otherwise the clips re-encoded in input order into fresh temps (fail-fast), then, when all succeeded, the temps joined in that same order by one concat run whose result is returned (`ReencodedThenJoined`); on failure the disk is as before; on success only the output is added |
| Composers.ReencodedStep | src/insightmovie/video/video_composer.py:112-131 | one more re-encode adds its temp file holding what that run wrote, on the disk with the earlier temps and its own empty one |
| Encoders.FindFFmpeg | src/insightmovie/video/ffmpeg_wrapper.py:31-54 | PATH first, then the first existing common location |
| Encoders.FirstMatch | src/insightmovie/video/ffmpeg_wrapper.py:157-158 | the leftmost position where `Duration: HH:MM:SS.cc` matches |
| Encoders.ParseDuration | src/insightmovie/video/ffmpeg_wrapper.py:157-166 | a value exactly when the pattern occurs, between 0 and 99:99:99.99 |
| Encoders.ParseDurationField | src/insightmovie/video/ffmpeg_wrapper.py:157-161 | a printed header reads back as `H*3600 + M*60 + S` |
| Encoders.FFmpegWrapper.Open | src/insightmovie/video/ffmpeg_wrapper.py:19-29 | the given path, else the discovered one, else `FFmpegNotFoundError` |
| Encoders.FFmpegWrapper.CheckAvailable | src/insightmovie/video/ffmpeg_wrapper.py:56-72 | true exactly when `[path, "-version"]` exits with code 0; a run that does not exit is false |
| Encoders.FFmpegWrapper.GetVersion | src/insightmovie/video/ffmpeg_wrapper.py:74-94 | a version exactly when `-version` exits with 0; it is a prefix of the output with no line break, ending where the output ends or at its first line break |
| Encoders.FFmpegWrapper.GetVideoInfo | src/insightmovie/video/ffmpeg_wrapper.py:129-166 | a duration exactly when the command ran and its error stream holds the pattern |
| Encoders.FFmpegWrapper.RunCommand | src/insightmovie/video/ffmpeg_wrapper.py:96-127 | runs `[path] + args`; true exactly on exit code 0; failures are false, not raised |
| Clients.EngineInfo.BaseUrl | src/insightmovie/voicevox/client.py:19-21 | `http://host:port` |
| Clients.BaseUrlInjective | src/insightmovie/voicevox/client.py:19-21 | the base URL determines host and port |
| Clients.ProbeOrderCovers | src/insightmovie/voicevox/client.py:61-75 | every port 50020..50100 is probed once; with the fast check 50021 is first, otherwise the order is ascending |
| Clients.VoiceVoxClient.constructor | src/insightmovie/voicevox/client.py:32-39 | the given base URL, no engine info |
| Clients.VoiceVoxClient.CheckEngineAnswers | src/insightmovie/voicevox/client.py:85-108 | an engine, at the probed host and port, exactly when `/version` answers 200 |
| Clients.VoiceVoxClient.CheckEngine | src/insightmovie/voicevox/client.py:85-108 | an engine at the host and port, with the `/version` body stripped of double quotes as its version, when `/version` answers 200; otherwise None, a failed request included |
| Clients.FirstAnswerFound | src/insightmovie/voicevox/client.py:71-83 | the engine found answers at some port of the list, and every earlier port failed to |
| Clients.FirstAnswerNone | src/insightmovie/voicevox/client.py:71-83 | no engine is found exactly when no port of the list answers |
| Clients.ScanAnswerIs | src/insightmovie/voicevox/client.py:71-83 | the scan loop, skipping the port checked first, finds the first answering port of the scanned ports |
| Clients.ProbeOrderStart | src/insightmovie/voicevox/client.py:61-67 | with the fast check, the default port decides first; otherwise the scan alone |
| Clients.VoiceVoxClient.CheckEngineVersion | src/insightmovie/voicevox/client.py:96-101 | the engine's version is the `/version` body with its double quotes stripped: a slice of the body with only quotes before and after it, and no quote at either of its own ends |
| Text.TrimCutsDropped | src/insightmovie/voicevox/client.py:101 | `strip(chars)` returns a slice of its input, and every character cut off either end is one of `chars` |
| Text.TrimEnds | src/insightmovie/voicevox/client.py:101 | neither end of a stripped string is one of the stripped characters |
| Clients.VoiceVoxClient.DiscoverEngine | src/insightmovie/voicevox/client.py:51-83 | the first engine in probe order; when found, the engine info and base URL are set, else both are unchanged |
| Clients.VoiceVoxClient.CheckConnection | src/insightmovie/voicevox/client.py:110-127 | false without a base URL |
| Clients.VoiceVoxClient.GetSpeakers | src/insightmovie/voicevox/client.py:129-147 | without a base URL the not-connected error; otherwise the engine's speaker list, or `話者情報の取得に失敗: {e}` with the text of the request's exception |
| Clients.VoiceVoxClient.FindSpeakerByName | src/insightmovie/voicevox/client.py:149-182 | the first style of the first speaker with the exact name and some style; None on error |
| Clients.VoiceVoxClient.GetDefaultSpeaker | src/insightmovie/voicevox/client.py:184-222 | the default style of the speaker list; None on error |
| Clients.FirstUsable | src/insightmovie/voicevox/client.py:169-182 | the first speaker with that name and some style |
| Clients.FirstPreferred | src/insightmovie/voicevox/client.py:201-210 | the first preferred name that some speaker answers to |
| Clients.DefaultIsSomeFirstStyle | src/insightmovie/voicevox/client.py:184-222 | the default is always the first style of a listed speaker |
| Clients.DefaultPrefersAoyama | src/insightmovie/voicevox/client.py:201-210 | a usable 青山龍星 always wins |
| Clients.DefaultFallsBack | src/insightmovie/voicevox/client.py:213-219 | without a preferred speaker, the first speaker's first style, None when it has none |
| Clients.VoiceVoxClient.CreateAudioQuery | src/insightmovie/voicevox/client.py:224-247 | without a base URL the not-connected error; otherwise the engine's query for the text and speaker, or `音声クエリの作成に失敗: {e}` |
| Clients.VoiceVoxClient.Synthesize | src/insightmovie/voicevox/client.py:249-273 | without a base URL the not-connected error; otherwise the engine's WAV bytes for the query, or `音声合成に失敗: {e}` |
| Clients.VoiceVoxClient.GenerateAudio | src/insightmovie/voicevox/client.py:275-287 | exactly the synthesis of the engine's query for the text when both requests succeed; otherwise the not-connected error, the query's `音声クエリの作成に失敗: {e}` or the synthesis's `音声合成に失敗: {e}` |
| Configs.Config.constructor | src/insightmovie/core/config.py:14-18 | `LOCALAPPDATA/InsightMovie/config.json`, then `load()` |
| Configs.Config.Loaded | src/insightmovie/core/config.py:20-30 | the decoded file, empty when it is missing or fails to parse |
| Configs.Config.Load | src/insightmovie/core/config.py:20-30 | `data` becomes what `Loaded` says |
| Configs.Config.Save | src/insightmovie/core/config.py:32-39 | the encoded data replaces the file |
| Configs.Config.Get | src/insightmovie/core/config.py:41-43 | the stored value, or the default when the key is absent |
| Configs.Config.IsFirstRun | src/insightmovie/core/config.py:49-52 | `setup_completed` is absent or not truthy |
| Configs.Config.Set | src/insightmovie/core/config.py:45-47 | `get(k) == v` afterwards and no other key changes |
| Configs.Config.MarkSetupCompleted | src/insightmovie/core/config.py:49-57 | no longer a first run, and saved |
| Configs.Config.EngineUrl | src/insightmovie/core/config.py:59-62 | the `engine_url` key, None when absent |
| Configs.Config.SetEngineUrl | src/insightmovie/core/config.py:64-68 | writes only `engine_url`, then saves |
| Configs.Config.EnginePath | src/insightmovie/core/config.py:70-73 | the `engine_path` key, None when absent |
| Configs.Config.SetEnginePath | src/insightmovie/core/config.py:75-79 | writes only `engine_path`, then saves |
| Configs.Config.DefaultSpeakerId | src/insightmovie/core/config.py:81-84 | the `default_speaker_id` key, None when absent |
| Configs.Config.SetDefaultSpeakerId | src/insightmovie/core/config.py:86-90 | writes only `default_speaker_id`, then saves |
| Configs.GetAfterSet | src/insightmovie/core/config.py:41-47 | after `d[k] = v`, `get(k)` is `v` and every other key reads as before |
| Configs.SaveThenLoad | src/insightmovie/core/config.py:20-39 | given that the JSON codec round-trips (`decode(encode(d)) == Some(d)`), loading what `save` wrote gives the saved data back |
| Configs.FreshInstallIsFirstRun | src/insightmovie/core/config.py:20-52 | without a config file the application counts as new |
| Downloads.TotalSize | installer/voicevox_downloader.py:86 | `content-length` as an int, 0 when absent |
| Downloads.TotalsRise | installer/voicevox_downloader.py:89-95 | the counter rises with every non-empty chunk and ends at the number of bytes written |
| Downloads.WriteStream | installer/voicevox_downloader.py:89-95 | the file holds the chunks in order, the counter is their total length, the callback sees each running total |
| VoicevoxInstallers.FindDownloadUrl | installer/voicevox_downloader.py:51-67 | no "assets" key gives None; otherwise the search of the asset list |
| VoicevoxInstallers.SearchFindsFirst | installer/voicevox_downloader.py:61-65 | the URL of the first asset whose lower-cased name has "windows-cpu" and whose name ends in ".zip" |
| VoicevoxInstallers.SearchFindsNone | installer/voicevox_downloader.py:61-67 | no wanted asset gives None |
| VoicevoxInstallers.SearchFoundIsWanted | installer/voicevox_downloader.py:61-65 | a URL found belongs to a wanted asset |
| VoicevoxInstallers.UnpackedGrows | installer/voicevox_downloader.py:117-118 | `extractall` only adds files |
| VoicevoxInstallers.UnpackedHolds | installer/voicevox_downloader.py:117-118 | every file member of the archive ends up below the install directory |
| VoicevoxInstallers.VoicevoxDownloader.constructor | installer/voicevox_downloader.py:22-34 | the given directory, else the default under local application data |
| VoicevoxInstallers.VoicevoxDownloader.Download | installer/voicevox_downloader.py:69-102 | a failed request or status gives false; else the file holds the stream and the callback gets `(downloaded, total)` per chunk |
| VoicevoxInstallers.VoicevoxDownloader.ExtractZip | installer/voicevox_downloader.py:104-124 | a damaged archive gives false with nothing written; else every member is unpacked |
| VoicevoxInstallers.VoicevoxDownloader.FindRunExe | installer/voicevox_downloader.py:175-184 | some `run.exe` below the install directory, None exactly when there is none |
| VoicevoxInstallers.VoicevoxDownloader.Install | installer/voicevox_downloader.py:126-173 | no URL, a failed download or a failed unpack each stop with false; else the zip is deleted and the result is whether `run.exe` is found |
| VoicevoxInstallers.ArchiveWithRunExe | installer/voicevox_downloader.py:155-169 | an archive holding `run.exe` at any depth installs successfully |
| FFmpegInstallers.Target | installer/ffmpeg_downloader.py:72-77 | `install_dir/bin/<basename>`, subdirectories flattened |
| FFmpegInstallers.TargetsAre | installer/ffmpeg_downloader.py:69-80 | a path is written exactly when a selected member lands on it |
| FFmpegInstallers.ExtractedKeys | installer/ffmpeg_downloader.py:69-80 | unpacking adds exactly the targets of the selected members |
| FFmpegInstallers.ExtractedLastWins | installer/ffmpeg_downloader.py:69-80 | a target holds the bytes of the last selected member with that basename |
| FFmpegInstallers.ExtractedOthers | installer/ffmpeg_downloader.py:69-80 | a path no selected member lands on keeps its content |
| FFmpegInstallers.FFmpegDownloader.constructor | installer/ffmpeg_downloader.py:21-33 | the given directory, else `PROGRAMFILES/InsightMovie/tools/ffmpeg` |
| FFmpegInstallers.FFmpegDownloader.ExtractAll | installer/ffmpeg_downloader.py:69-80 | the member loop writes what `Extracted` says |
| FFmpegInstallers.FFmpegDownloader.DownloadFFmpeg | installer/ffmpeg_downloader.py:35-102 | errors give false; a damaged archive leaves the zip; else the selected members are unpacked, the zip removed, and the result is whether `bin/ffmpeg.exe` exists |
| Exports.SelectMedia | src/insightmovie/ui/project_window.py:498-508 | the scene takes the chosen path and the kind of its extension; a cancelled dialog changes nothing |
| Exports.MediaKindOfFile | src/insightmovie/ui/project_window.py:502-508 | the lower-cased extension decides: png/jpg/jpeg/webp are images, mp4/mov/avi videos, anything else none |
| Exports.DotFileHasNoKind | src/insightmovie/ui/project_window.py:502 | a name that is only an extension has no suffix, so no kind |
| Exports.ResolutionChoice | src/insightmovie/ui/project_window.py:602-606 | text mentioning 1080x1920 gives portrait, any other landscape, both parsable |
| Exports.ExportOutput | src/insightmovie/ui/project_window.py:584-609 | no export without an encoder or an output path; the fps and path are taken as given |
| Exports.Resolve | src/insightmovie/ui/project_window.py:66-128 | FIXED or silent scenes keep `fixed_seconds`; AUTO takes a non-zero audio length and writes it back; an unreadable length ends the export |
| Exports.ResolveIdempotent | src/insightmovie/ui/project_window.py:104-128 | resolving the written-back scene again gives the same scene and duration |
| Exports.ResolvedPositive | src/insightmovie/ui/project_window.py:104-128 | a positive fixed length and a non-negative audio length give a positive render length |
| Exports.Clips | src/insightmovie/ui/project_window.py:118-138 | the clips of the first `n` scenes, in project order |
| Exports.ZeroPad3Value | src/insightmovie/ui/project_window.py:118 | `f"{i:03d}"` reads back as `i` |
| Exports.ClipPathInjective | src/insightmovie/ui/project_window.py:118 | different scenes render to different clips |
| Exports.ClipIsNotWav | src/insightmovie/ui/project_window.py:118 | a clip never has a cache entry's name |
| Exports.SuccessRendersAll | src/insightmovie/ui/project_window.py:60-157 | an export succeeds only when every scene was rendered and the join of all clips, in order, succeeded |
| Exports.SuccessEncodedAll | src/insightmovie/ui/project_window.py:60-157 | a successful export had at least one scene and a parsable resolution; every scene's `generate_scene` made its clip; with two or more scenes the one join run, over the manifest of all clips in project order, exited with 0 |
| Exports.SceneFailedIsNotComposed | src/insightmovie/ui/project_window.py:135-157 | a failed scene's message differs from both join messages |
| Exports.FailureNamesScene | src/insightmovie/ui/project_window.py:134-136 | a failed render names its 1-based scene, and that scene was the last one touched |
| Exports.VideoGenerationThread.Narrated | src/insightmovie/ui/project_window.py:70-102 | silent exactly without narration text; a cache entry is used as it is; otherwise the synthesis is saved as that entry; a failed or empty synthesis ends the export; nothing else is written |
| Exports.VideoGenerationThread.NarrationFailureMessage | src/insightmovie/ui/project_window.py:84-89 | an uncached narration the engine fails to voice ends the export with `エラー: ` and the client's message (the `except` at `project_window.py:159-160`), the failed request's exception text included |
| Exports.VideoGenerationThread.NarrationRepeats | src/insightmovie/ui/project_window.py:70-102 | a second run over the disk the first left gives the same narration and writes nothing |
| Exports.VideoGenerationThread.Narrate | src/insightmovie/ui/project_window.py:70-102 | the narration step does what `Narrated` says |
| Exports.VideoGenerationThread.ProcessScene | src/insightmovie/ui/project_window.py:60-136 | one pass: narration, length, write-back, and the render to `scene_{i:03d}.mp4`; an abort leaves the scene and disk as the narration left them, with no run; a render's runs and disk are those `generate_scene` gives on the disk the narration left |
| Exports.VideoGenerationThread.RenderScene | src/insightmovie/ui/project_window.py:104-136 | a failed narration aborts; otherwise the resolved scene is written back and rendered for the resolved length with the narration's audio, and the runs and disk are those `generate_scene` gives |
| Exports.VideoGenerationThread.DeleteClips | src/insightmovie/ui/project_window.py:149-152 | deletes exactly the collected clips |
| Exports.VideoGenerationThread.Advance | src/insightmovie/ui/project_window.py:60-138 | a good render extends the progress by one scene and its clip; anything else ends the export |
| Exports.VideoGenerationThread.Run | src/insightmovie/ui/project_window.py:45-160 | scenes in order, fail-fast; the join of all clips in order; every clip deleted after a join; earlier clips kept after a failure; the project keeps the written-back scenes; every encoder run belongs to a step, in step order, each render's as `generate_scene` gives them, and the join reads each clip as its render left it (`Worked`) |
| Exports.VideoGenerationThread.RenderScenes | src/insightmovie/ui/project_window.py:60-138 | the scene loop: an ended export as `run` reports it, or every scene rendered well, with each clip on the disk as its render left it |
| Exports.VideoGenerationThread.JoinClips | src/insightmovie/ui/project_window.py:140-152 | `concat_videos` on the clips into the output path, as `JoinWork` describes, then every clip deleted |
| Exports.EndWorked | src/insightmovie/ui/project_window.py:60-138 | the work of the renders so far plus an ending step is the work of the whole export |
| Exports.JoinExtended | src/insightmovie/ui/project_window.py:140-152 | good renders whose clips stayed, followed by the join, are the work of the whole export |
| Exports.KeptExtended | src/insightmovie/ui/project_window.py:60-138 | one more good render whose clip is new keeps every earlier clip as its render left it |
| Exports.StepAdvances | src/insightmovie/ui/project_window.py:60-138 | one pass of the loop preserves the progress invariant or ends the export as `run` reports |
| Exports.ClipsStay | src/insightmovie/ui/project_window.py:70-132 | the narration and render of one scene leave the clips of earlier scenes on the disk |

## Left out

- Qt: the windows, dialogs and the setup wizard are left out. So are the `QThread` and the
  progress signals: `run` is one sequential procedure, and its progress messages and the
  installers' printed progress are not modelled.
- `voicevox/launcher.py`: process spawning and waiting are left out.
- I/O: HTTP requests, the encoder process, zip archives, md5 and the WAV header reader are
  oracles. Their results are parameters, so time-outs and partial writes are not modelled.
- Temp files: `NamedTemporaryFile` names are drawn by `FileSystem.NewTemp`. It picks a name
  that no existing file and no other named path has. The random names themselves are not
  modelled.
- Floating point: floats are reals. `str(float)` and the `:.2f` messages are a parameter.
  Rounding is not modelled.
- Integers: they are unbounded. `int(h * 0.10)` is modelled as truncating division on the
  integer height.
- JSON: a value of the wrong type in a project file makes the model treat its part of the
  document as unreadable, so `Projects.Project.Load` stops at that part. Python would
  store such a value in the object unchecked. Configuration values are kept as decoded.
- Text files: the subtitle file (`scene_generator.py:311-321`) and the concat list
  (`video_composer.py:49-59`) are opened in text mode. On Windows, each `\n` is written
  as `\r\n`. The model writes the UTF-8 of the text exactly, as on POSIX systems.
- Digits: `Text.IsDigit`, and so `Text.PyInt` and `Encoders.ParseDuration` (regex `\d`),
  accept only the ASCII digits `0`-`9`. Python's `int()` and `\d` also accept the other
  Unicode decimal digits, such as full-width ones.
- `Text.Lower` folds only the ASCII letters `A`-`Z`. Python's `str.lower()` folds every
  Unicode letter. It is used only on file names and asset names, and their tests look for
  ASCII text.
- `Exports.VideoGenerationThread.Run`: each render step records the disk it started from, that is, the disk the scene's
  narration left. Each clip is followed from its render to the join (`Exports.ClipKept`).
  The cache entries written between renders are covered by `Exports.Exported`. They are
  not chained into one sequence of disks.
- `Projects.Project.constructor`: only the branch without an existing project file is
  modelled. The branch that calls `load()` is `Projects.Project.Load`.
- `VoicevoxInstallers.VoicevoxDownloader.Install`: `get_latest_release_info` is a
  parameter (the decoded release, or None when the request fails).
- `Clients.VoiceVoxClient.CheckConnection`: models only the guard and the status test. The
  2-second time-out is not modelled.
- Exceptions from `shutil.copy`, `mkdir` and `unlink` are not modelled, except where the
  code guards them. The single-clip copy of `concat_videos` raises on a missing file, and
  the model has that case.
- `Path.absolute()`, `as_posix()` on the disk, `Path.home()`, `shutil.which` and the
  environment variables are parameters.
