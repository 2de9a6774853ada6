/**
 * The export of src/insightmovie/ui/project_window.py: `VideoGenerationThread.run`, which
 * resolves each scene's narration and length, renders every scene to a numbered clip and
 * joins the clips into the output video, together with the two choices of the editor
 * window that feed it (the media kind of a chosen file and the output resolution).
 */
module Exports {

  import opened Wrappers
  import opened Text
  import opened Files
  import opened Scenes
  import Projects
  import opened Encoders
  import AudioCaches
  import Clients
  import SceneGenerators
  import Composers

  // ---------------------------------------------------------------- choosing media

  /** `Path(p).suffix`: the file name from its last '.' on, when that dot is neither the
      first nor the last character of the name; otherwise empty. */
  function Suffix(p: string): (r: string)
  {
    var name := Basename(p);
    match LastIndex(name, '.')
    case None => ""
    case Some(i) => if 0 < i < |name| - 1 then name[i..] else ""
  }

  const ImageExtensions: seq<string> := [".png", ".jpg", ".jpeg", ".webp"]
  const VideoExtensions: seq<string> := [".mp4", ".mov", ".avi"]

  /** The media kind `select_media` gives a chosen file, from its lower-cased suffix. */
  function MediaKindOf(p: string): MediaType {
    var ext := Lower(Suffix(p));
    if ext in ImageExtensions then Image
    else if ext in VideoExtensions then Video
    else NoMedia
  }

  /** An extension: one leading dot, at least one more character, no other dot or slash. */
  predicate IsExtension(ext: string) {
    |ext| >= 2 && ext[0] == '.' && '.' !in ext[1..] && '/' !in ext
  }

  /** The suffix of `dir/stem.ext` is `.ext`, whatever dots the stem holds. */
  lemma SuffixOfFile(dir: string, stem: string, ext: string)
    requires stem != "" && '/' !in stem && IsExtension(ext)
    ensures Suffix(Join(dir, stem + ext)) == ext
  {
    var name := stem + ext;
    var p := Join(dir, name);
    assert '/' !in name by {
      forall i | 0 <= i < |name| ensures name[i] != '/' {
        if i >= |stem| { assert name[i] == ext[i - |stem|]; }
      }
    }
    assert p == dir + ['/'] + name;
    LastIndexJoin(dir, name, '/');
    assert Basename(p) == name;
    assert name == stem + ['.'] + ext[1..];
    LastIndexJoin(stem, ext[1..], '.');
    assert name[|stem|..] == ext;
  }

  /** A file `stem.ext` is classified by its extension alone, in any letter case. */
  lemma MediaKindOfFile(dir: string, stem: string, ext: string)
    requires stem != "" && '/' !in stem && IsExtension(ext)
    ensures MediaKindOf(Join(dir, stem + ext)) ==
      if Lower(ext) in ImageExtensions then Image
      else if Lower(ext) in VideoExtensions then Video
      else NoMedia
  {
    SuffixOfFile(dir, stem, ext);
  }

  /** A file whose name is only an extension, such as `.png`, has no suffix, so no kind. */
  lemma DotFileHasNoKind(dir: string, ext: string)
    requires IsExtension(ext)
    ensures MediaKindOf(Join(dir, ext)) == NoMedia
  {
    var p := Join(dir, ext);
    assert p == dir + ['/'] + ext;
    LastIndexJoin(dir, ext, '/');
    assert Basename(p) == ext;
    assert ext == [] + ['.'] + ext[1..];
    LastIndexJoin([], ext[1..], '.');
    assert Suffix(p) == "";
    assert Lower("") == "";
  }

  /** `select_media` once a file is chosen: the scene names that file and the kind its
      extension gives; a cancelled dialog (an empty path) leaves the scene alone. */
  function SelectMedia(scene: Scene, filePath: string): (r: Scene)
    ensures filePath == "" ==> r == scene
    ensures filePath != "" ==> r.mediaPath == Some(filePath)
    ensures r.(mediaPath := scene.mediaPath, mediaType := scene.mediaType) == scene
    ensures filePath != "" ==> (r.HasMedia() <==> MediaKindOf(filePath) != NoMedia)
  {
    if filePath == "" then scene
    else scene.(mediaPath := Some(filePath), mediaType := MediaKindOf(filePath))
  }

  // ---------------------------------------------------------------- the resolution

  /** The resolution `export_video` takes from the combo-box text: portrait when the text
      mentions 1080x1920, landscape otherwise. Either way the renderer can parse it. */
  function ResolutionChoice(text: string): (r: string)
    ensures SceneGenerators.ParseResolution(r) == Some((1080, 1920)) <==> Contains(text, "1080x1920")
    ensures SceneGenerators.ParseResolution(r) == Some((1920, 1080)) <==> !Contains(text, "1080x1920")
  {
    Resolutions();
    if Contains(text, "1080x1920") then "1080x1920" else "1920x1080"
  }

  lemma Resolutions()
    ensures SceneGenerators.ParseResolution("1080x1920") == Some((1080, 1920))
    ensures SceneGenerators.ParseResolution("1920x1080") == Some((1920, 1080))
  {
    assert NatToString(1) == "1" && NatToString(10) == "10" && NatToString(108) == "108";
    assert NatToString(1080) == "1080";
    assert NatToString(19) == "19" && NatToString(192) == "192" && NatToString(1920) == "1920";
    assert SceneGenerators.ResolutionText(1080, 1920) == "1080x1920";
    assert SceneGenerators.ResolutionText(1920, 1080) == "1920x1080";
    SceneGenerators.ParseResolutionText(1080, 1920);
    SceneGenerators.ParseResolutionText(1920, 1080);
  }

  /** The output settings `export_video` hands to the export: None when the save dialog
      was cancelled (an empty path), or when there is no encoder. */
  function ExportOutput(hasEncoder: bool, resolutionText: string, fps: int, outputPath: string)
    : (r: Option<Projects.OutputSettings>)
    ensures r.Some? <==> hasEncoder && outputPath != ""
    ensures r.Some? ==> r.value.fps == fps && r.value.outputPath == outputPath
    ensures r.Some? ==> SceneGenerators.ParseResolution(r.value.resolution).Some?
  {
    if !hasEncoder || outputPath == "" then None
    else Some(Projects.OutputSettings(ResolutionChoice(resolutionText), fps, outputPath))
  }

  // ---------------------------------------------------------------- scene length

  /** The message `finished` carries for an exception: `f"エラー: {e}"`. */
  function ErrorMessage(e: string): string {
    "エラー: " + e
  }

  /** What `f"{duration:.2f}"` raises when the duration is None. */
  const FormatNoneError := "unsupported format string passed to NoneType.__format__"

  /** Python's `a or b` on two floats: `a` unless it is zero. */
  function FloatOr(a: real, b: real): real {
    if a != 0.0 then a else b
  }

  /** A scene's narration: none, or the cached audio file and its length in seconds (None
      when the WAV header cannot be read). */
  datatype Narration = Silent | Voiced(path: string, duration: Option<real>)

  /** The audio path handed to the renderer. */
  function AudioOf(n: Narration): Option<string> {
    if n.Voiced? then Some(n.path) else None
  }

  /**
   * The length of one scene: the scene after the AUTO write-back, and the duration handed
   * to the renderer (`duration or scene.fixed_seconds`). Without narration, and in FIXED
   * mode, that is the scene's fixed length; in AUTO mode a non-zero narration length is
   * used as it is, with no padding, and becomes the scene's fixed length. An unreadable
   * narration length ends the export, because formatting it with `:.2f` raises.
   */
  function Resolve(scene: Scene, n: Narration): (r: Result<(Scene, real)>)
    ensures r.Err? <==> n.Voiced? && n.duration.None?
    ensures r.Ok? ==> r.value.0 == scene.(fixedSeconds := r.value.0.fixedSeconds)
    ensures r.Ok? && (n.Silent? || scene.durationMode == Fixed) ==> r.value == (scene, scene.fixedSeconds)
    ensures r.Ok? && n.Voiced? && scene.durationMode == Auto && n.duration.value != 0.0 ==>
      r.value.1 == n.duration.value && r.value.0.fixedSeconds == n.duration.value
    ensures r.Ok? && n.Voiced? && scene.durationMode == Auto && n.duration.value == 0.0 ==>
      r.value == (scene, scene.fixedSeconds)
  {
    match n
    case Silent => Ok((scene, FloatOr(scene.fixedSeconds, scene.fixedSeconds)))
    case Voiced(_, None) => Err(ErrorMessage(FormatNoneError))
    case Voiced(_, Some(d)) =>
      if scene.durationMode == Auto then
        var s := if d != 0.0 then scene.(fixedSeconds := d) else scene;
        Ok((s, FloatOr(d, s.fixedSeconds)))
      else
        Ok((scene, FloatOr(scene.fixedSeconds, scene.fixedSeconds)))
  }

  /** Resolving the written-back scene again with the same narration changes nothing and
      gives the same duration. */
  lemma ResolveIdempotent(scene: Scene, n: Narration)
    requires Resolve(scene, n).Ok?
    ensures Resolve(Resolve(scene, n).value.0, n) == Resolve(scene, n)
  {
  }

  /** A scene with a positive fixed length and a narration of non-negative length is
      always rendered for a positive time, and keeps a positive fixed length. */
  lemma ResolvedPositive(scene: Scene, n: Narration)
    requires scene.fixedSeconds > 0.0
    requires n.Voiced? && n.duration.Some? ==> n.duration.value >= 0.0
    requires Resolve(scene, n).Ok?
    ensures Resolve(scene, n).value.1 > 0.0 && Resolve(scene, n).value.0.fixedSeconds > 0.0
  {
  }

  // ---------------------------------------------------------------- clip names

  /** `temp_dir / f"scene_{i:03d}.mp4"`, where `temp_dir` is `insightmovie_build` in the
      temp directory. */
  function ClipPath(tempDir: string, i: nat): (p: string)
    ensures EndsWith(p, ".mp4")
  {
    Join(Join(tempDir, "insightmovie_build"), "scene_" + ZeroPad3(i) + ".mp4")
  }

  /** The clips of the first `n` scenes, in project order. */
  function Clips(tempDir: string, n: nat): (r: seq<string>)
    ensures |r| == n && forall k :: 0 <= k < n ==> r[k] == ClipPath(tempDir, k + 1)
  {
    seq(n, k requires 0 <= k => ClipPath(tempDir, k + 1))
  }

  predicate AllZeros(z: string) {
    forall i :: 0 <= i < |z| ==> z[i] == '0'
  }

  lemma {:induction false} ZerosValue(z: string)
    requires AllZeros(z)
    ensures forall i :: 0 <= i < |z| ==> IsDigit(z[i])
    ensures DigitsValue(z) == 0
  {
    if z != [] {
      ZerosValue(z[..|z| - 1]);
    }
  }

  /** Leading zeros do not change the value of a run of digits. */
  lemma {:induction false} LeadingZerosValue(z: string, d: string)
    requires AllZeros(z) && forall i :: 0 <= i < |d| ==> IsDigit(d[i])
    ensures forall i :: 0 <= i < |z + d| ==> IsDigit((z + d)[i])
    ensures DigitsValue(z + d) == DigitsValue(d)
  {
    ZerosValue(z);
    if d == [] {
      assert z + d == z;
    } else {
      var d' := d[..|d| - 1];
      assert (z + d)[..|z + d| - 1] == z + d';
      LeadingZerosValue(z, d');
    }
  }

  /** `f"{n:03d}"` is read back as `n`, so different scene numbers give different names. */
  lemma ZeroPad3Value(n: nat)
    ensures forall i :: 0 <= i < |ZeroPad3(n)| ==> IsDigit(ZeroPad3(n)[i])
    ensures DigitsValue(ZeroPad3(n)) == n
  {
    var d := NatToString(n);
    DigitsOfNat(n);
    if |d| < 3 {
      LeadingZerosValue(seq(3 - |d|, _ => '0'), d);
    }
  }

  /** Different scenes are rendered to different clips. */
  lemma ClipPathInjective(tempDir: string, i: nat, j: nat)
    requires ClipPath(tempDir, i) == ClipPath(tempDir, j)
    ensures i == j
  {
    var dir := Join(tempDir, "insightmovie_build");
    var a, b := ZeroPad3(i), ZeroPad3(j);
    var p, q := ClipPath(tempDir, i), ClipPath(tempDir, j);
    assert p == dir + "/scene_" + a + ".mp4";
    assert q == dir + "/scene_" + b + ".mp4";
    assert |a| == |b|;
    assert a == p[|dir| + 7..|p| - 4];
    assert b == q[|dir| + 7..|q| - 4];
    ZeroPad3Value(i);
    ZeroPad3Value(j);
  }

  /** A clip (`.mp4`) never has the name of a cache entry (`.wav`). */
  lemma ClipIsNotWav(clip: string, wav: string)
    requires EndsWith(clip, ".mp4") && EndsWith(wav, ".wav")
    ensures clip != wav
  {
  }

  // ---------------------------------------------------------------- the export

  /** One step of an export, in the order the steps happen. */
  datatype Step =
    | /** Scene `index` (1-based) was rendered to `clip`, for `duration`, with `audio`. */
      Render(index: nat, narration: Narration, scene: Scene, clip: string, duration: real,
             audio: Option<string>, ok: bool)
    | /** Scene `index` ended the export before it was rendered. */
      Abort(index: nat, message: string)
    | /** The clips were handed to the composer, which returned `result`. */
      Compose(clips: seq<string>, result: bool)

  /** What the encoder work of an export depends on besides the disk: the encoder, the
      project's font, resolution and frame rate, `str` of a float, `Path.absolute`, and the
      output path. */
  datatype Setup = Setup(ffmpegPath: string, exec: Exec, fontPath: Option<string>, showFloat: real -> string,
                         resolution: string, fps: int, absolute: string -> string, output: string)

  /** The encoder work behind one step: none for an abort; for a render, the disk it
      started from, the temp names it drew and its runs; for the join, the disk it
      started from, the name of its list file and its runs. */
  datatype Work =
    | Idle
    | Renders(before: map<string, Bytes>, temps: SceneGenerators.Temps, runs: seq<Run>)
    | Joins(before: map<string, Bytes>, listFile: string, runs: seq<Run>)

  function RunsOf(w: Work): seq<Run> {
    if w.Idle? then [] else w.runs
  }

  /** The encoder runs of a sequence of steps, in order. */
  function AllRuns(works: seq<Work>): seq<Run> {
    if works == [] then [] else AllRuns(works[..|works| - 1]) + RunsOf(works[|works| - 1])
  }

  /** `generate_scene` for the render `step` on the disk it started from, or nothing when
      the resolution does not parse. */
  function RenderOf(step: Step, w: Work, s: Setup): Option<SceneGenerators.Rendering>
    requires step.Render? && w.Renders?
  {
    match SceneGenerators.ParseResolution(s.resolution)
    case None => None
    case Some(wh) =>
      Some(SceneGenerators.Rendered(s.exec, s.ffmpegPath, SceneGenerators.ChosenFont(s.fontPath, w.before), w.before,
                                    step.scene, s.showFloat(step.duration), wh.0, wh.1, s.fps, step.audio, step.clip,
                                    w.temps))
  }

  /** The disk a render leaves. */
  function AfterRender(step: Step, w: Work, s: Setup): map<string, Bytes>
    requires step.Render? && w.Renders?
  {
    match RenderOf(step, w, s)
    case None => w.before
    case Some(r) => r.files
  }

  /** The runs of the render `step` are those of `generate_scene` with the scene, length
      and audio the step records, its clip as the output, and fresh temp names; its
      verdict is that render's. */
  predicate RenderWork(step: Step, w: Work, s: Setup)
    requires step.Render?
  {
    && w.Renders?
    && match RenderOf(step, w, s)
       case None => w.runs == [] && !step.ok
       case Some(r) =>
         && w.runs == [r.base] + r.sub + r.mux && step.ok == r.ok
         && SceneGenerators.Drawn(w.temps, w.before, SceneGenerators.Inputs(step.scene, step.clip, step.audio),
                                  r.base.ok && step.scene.HasSubtitle())
  }

  /** The command line of the join with the list file `listFile`. */
  function ConcatCommand(s: Setup, listFile: string): seq<string> {
    [s.ffmpegPath] + Composers.ConcatArgs(listFile, s.output)
  }

  /** The join of `concat_videos` on the disk it started from: false for no clips, a copy
      for one, and otherwise one run over a fresh list file holding the manifest. */
  predicate JoinWork(step: Step, w: Work, s: Setup)
    requires step.Compose?
  {
    && w.Joins?
    && (|step.clips| == 0 ==> w.runs == [] && !step.result)
    && (|step.clips| == 1 ==> w.runs == [] && step.result && step.clips[0] in w.before)
    && (|step.clips| >= 2 ==>
          Composers.JoinedBy(step.result, w.runs, w.listFile, s.ffmpegPath, s.exec, s.absolute, step.clips,
                             s.output, w.before))
  }

  /** The disk the join leaves, before the clips are deleted. */
  function AfterJoin(step: Step, w: Work, s: Setup): map<string, Bytes>
    requires step.Compose? && w.Joins?
  {
    if |step.clips| == 1 && step.clips[0] in w.before then w.before[s.output := w.before[step.clips[0]]]
    else if |step.clips| >= 2 && step.result then
      w.before[s.output := Written(s.exec(ConcatCommand(s, w.listFile),
                                          w.before[w.listFile := Utf8(Composers.Manifest(step.clips, s.absolute))]))]
    else w.before
  }

  /** `w` is the encoder work of `step`. */
  predicate DidWork(step: Step, w: Work, s: Setup) {
    match step
    case Abort(_, _) => w.Idle?
    case Render(_, _, _, _, _, _, _) => RenderWork(step, w, s)
    case Compose(_, _) => JoinWork(step, w, s)
  }

  /** The `finished` signal: success, and the message shown to the user. */
  datatype Finished = Finished(ok: bool, message: string)

  function SceneFailed(i: nat): string {
    "シーン " + NatToString(i) + " の生成に失敗しました"
  }

  const SynthesisFailed := "音声生成に失敗しました"
  const ComposeFailed := "動画の結合に失敗しました"

  function Saved(output: string): string {
    "動画を保存しました: " + output
  }

  /** What the export reports once the composer returned `result` for `clips`. */
  function ComposeOutcome(result: bool, output: string): Finished {
    if result then Finished(true, Saved(output)) else Finished(false, ComposeFailed)
  }

  predicate OkRender(step: Step, k: nat, tempDir: string) {
    step.Render? && step.index == k + 1 && step.clip == ClipPath(tempDir, k + 1) && step.ok
  }

  /**
   * The shape of every export of `n` scenes: scenes 1, 2, ... rendered in order and each
   * successfully, up to the one step that ends the export. That is a failed render, after
   * which no later scene is rendered and nothing is joined; an abort of the next scene's
   * narration; or, once all `n` scenes are rendered, the join of their clips in project
   * order, whose result the export reports.
   */
  predicate Trace(steps: seq<Step>, f: Finished, n: nat, tempDir: string, output: string) {
    && |steps| >= 1
    && (forall k :: 0 <= k < |steps| - 1 ==> OkRender(steps[k], k, tempDir))
    && var m := |steps| - 1;
       match steps[m]
       case Render(index, _, _, clip, _, _, ok) =>
         index == m + 1 <= n && clip == ClipPath(tempDir, m + 1) && !ok && f == Finished(false, SceneFailed(m + 1))
       case Abort(index, message) =>
         index == m + 1 <= n && f == Finished(false, message)
       case Compose(clips, result) =>
         m == n && clips == Clips(tempDir, n) && f == ComposeOutcome(result, output)
  }

  /** An export succeeds only when every scene was rendered and the join of all their clips,
      in project order, succeeded. */
  lemma SuccessRendersAll(steps: seq<Step>, f: Finished, n: nat, tempDir: string, output: string)
    requires Trace(steps, f, n, tempDir, output) && f.ok
    ensures |steps| == n + 1 && steps[n] == Compose(Clips(tempDir, n), true)
    ensures forall k :: 0 <= k < n ==> OkRender(steps[k], k, tempDir)
    ensures f.message == Saved(output)
  {
    var m := |steps| - 1;
    match steps[m]
    case Render(_, _, _, _, _, _, _) =>
    case Abort(_, _) =>
    case Compose(clips, result) =>
      assert result;
  }

  /**
   * An export succeeds only when the encoder did: the project's resolution parses, every
   * scene's `generate_scene` made its clip, and, for two or more scenes, the one join run
   * over the manifest of all the clips in project order exited with code 0.
   */
  lemma SuccessEncodedAll(steps: seq<Step>, works: seq<Work>, f: Finished, n: nat, tempDir: string, s: Setup)
    requires Trace(steps, f, n, tempDir, s.output) && f.ok
    requires |works| == |steps| && forall k :: 0 <= k < |steps| ==> DidWork(steps[k], works[k], s)
    ensures n >= 1 && SceneGenerators.ParseResolution(s.resolution).Some?
    ensures forall k :: 0 <= k < n ==>
      && steps[k].Render? && works[k].Renders?
      && RenderOf(steps[k], works[k], s).Some? && RenderOf(steps[k], works[k], s).value.ok
    ensures works[n].Joins?
    ensures n >= 2 ==>
      var cmd := ConcatCommand(s, works[n].listFile);
      && works[n].runs == [Run(cmd, true)]
      && Succeeds(s.exec(cmd, works[n].before[works[n].listFile := Utf8(Composers.Manifest(Clips(tempDir, n), s.absolute))]))
  {
    SuccessRendersAll(steps, f, n, tempDir, s.output);
    assert DidWork(steps[n], works[n], s);
    if n > 0 {
      assert DidWork(steps[0], works[0], s) && OkRender(steps[0], 0, tempDir);
    }
    forall k | 0 <= k < n
      ensures RenderOf(steps[k], works[k], s).Some? && RenderOf(steps[k], works[k], s).value.ok
    {
      assert DidWork(steps[k], works[k], s) && OkRender(steps[k], k, tempDir);
    }
  }

  /** The message of a failed scene is never one a join reports. */
  lemma SceneFailedIsNotComposed(i: nat, output: string)
    ensures SceneFailed(i) != Saved(output) && SceneFailed(i) != ComposeFailed
  {
    assert SceneFailed(i)[0] == 'シ' && Saved(output)[0] == '動' && ComposeFailed[0] == '動';
  }

  /** A failed render names its scene, and it is the last scene the export touched. */
  lemma FailureNamesScene(steps: seq<Step>, f: Finished, n: nat, tempDir: string, output: string, i: nat)
    requires Trace(steps, f, n, tempDir, output)
    requires f.message == SceneFailed(i)
    requires !steps[|steps| - 1].Abort?
    ensures |steps| == i && steps[i - 1].Render? && !steps[i - 1].ok
  {
    var m := |steps| - 1;
    SceneFailedIsNotComposed(i, output);
    if steps[m].Render? {
      NatToStringInjective(m + 1, i) by {
        var ta, tb := NatToString(m + 1), NatToString(i);
        assert |ta| == |tb|;
        assert ta == SceneFailed(m + 1)[4..4 + |ta|] && tb == SceneFailed(i)[4..4 + |tb|];
      }
    }
  }

  /** What one pass of the scene loop makes of scene `i`, stored as `s`, whose narration
      came out as `nr`: the abort that ends the export, or the render of the resolved
      scene to `clip`. */
  predicate StepOf(step: Step, i: nat, s: Scene, nr: Result<Narration>, clip: string) {
    if nr.Err? then step == Abort(i, nr.error)
    else if Resolve(s, nr.value).Err? then step == Abort(i, Resolve(s, nr.value).error)
    else
      && step.Render? && step.index == i && step.narration == nr.value && step.clip == clip
      && Resolve(s, nr.value) == Ok((step.scene, step.duration))
      && step.audio == AudioOf(nr.value)
  }

  /** A rendered step of the original scene `s`: its narration is silent exactly when the
      scene has no narration text, it used the duration and wrote back the scene that
      `Resolve` gives, and `u`, the scene the project now keeps, is that scene. */
  predicate RenderedAs(step: Step, s: Scene, u: Scene) {
    && step.Render?
    && Resolve(s, step.narration) == Ok((step.scene, step.duration))
    && (step.narration == Silent <==> !s.HasNarration())
    && step.audio == AudioOf(step.narration)
    && u == step.scene
  }

  class VideoGenerationThread {
    const project: Projects.Project
    const voicevox: Clients.VoiceVoxClient
    const audioCache: AudioCaches.AudioCache
    const ffmpeg: FFmpegWrapper
    const speakerId: int
    /** `str(duration)` of a float, as the renderer puts it in its arguments. */
    const showFloat: real -> string
    /** `str(Path(p).absolute())`, as the composer writes it in its manifest. */
    const absolute: string -> string

    constructor (project: Projects.Project, voicevox: Clients.VoiceVoxClient, audioCache: AudioCaches.AudioCache,
                 ffmpeg: FFmpegWrapper, speakerId: int, showFloat: real -> string, absolute: string -> string)
      ensures this.project == project && this.voicevox == voicevox && this.audioCache == audioCache
      ensures this.ffmpeg == ffmpeg && this.speakerId == speakerId
      ensures this.showFloat == showFloat && this.absolute == absolute
    {
      this.project := project;
      this.voicevox := voicevox;
      this.audioCache := audioCache;
      this.ffmpeg := ffmpeg;
      this.speakerId := speakerId;
      this.showFloat := showFloat;
      this.absolute := absolute;
    }

    /** The cache and the encoder work on the same disk. */
    predicate Valid() {
      audioCache.fs == ffmpeg.fs
    }

    /**
     * The narration of one scene and the disk afterwards, cache first: an entry for the
     * scene's text and speaker is used as it is; otherwise the engine synthesises the text
     * and the bytes are saved as that entry. A failed or empty synthesis ends the export.
     * Whatever is used is the cache entry, and its length is the one read from that
     * entry's bytes; nothing but that entry is written.
     */
    function Narrated(scene: Scene, files: map<string, Bytes>): (r: (Result<Narration>, map<string, Bytes>))
      reads voicevox
      ensures var p := audioCache.CachePath(scene.narrationText, speakerId);
        && (r.0 == Ok(Silent) <==> !scene.HasNarration())
        && (r.0.Ok? && r.0.value.Voiced? ==>
              r.0.value.path == p && p in r.1 && r.0.value.duration == audioCache.DurationFromBytes(r.1[p]))
        && r.1 - {p} == files - {p}
        && (p !in r.1 ==> r.1 == files)
        && (scene.HasNarration() && p in files ==> r.1 == files && r.0.Ok?)
        && (r.0.Err? ==> r.1 == files)
    {
      var text := scene.narrationText;
      var p := audioCache.CachePath(text, speakerId);
      if !scene.HasNarration() then (Ok(Silent), files)
      else if p in files then (Ok(Voiced(p, audioCache.DurationFromBytes(files[p]))), files)
      else match voicevox.GenerateAudio(text, speakerId)
        case Err(e) => (Err(ErrorMessage(e)), files)
        case Ok(audio) =>
          if audio == [] then (Err(SynthesisFailed), files)
          else (Ok(Voiced(p, audioCache.DurationFromBytes(audio))), files[p := audio])
    }

    /** Running the export again over the disk one run left gives the same narration,
        without synthesising or writing anything. */
    lemma NarrationRepeats(scene: Scene, files: map<string, Bytes>)
      requires Narrated(scene, files).0.Ok?
      ensures Narrated(scene, Narrated(scene, files).1) == Narrated(scene, files)
    {
    }

    /** A narration the engine fails to voice ends the export with `エラー: ` followed by
        the client's message, whose tail is the text of the failed request's exception. */
    lemma NarrationFailureMessage(scene: Scene, files: map<string, Bytes>)
      requires scene.HasNarration()
      requires audioCache.CachePath(scene.narrationText, speakerId) !in files
      ensures !voicevox.Connected() ==> Narrated(scene, files).0 == Err(ErrorMessage(Clients.NotConnected))
      ensures voicevox.Connected() ==>
        var url := voicevox.baseUrl.value;
        var query := voicevox.audioQueryAt(url, scene.narrationText, speakerId);
        && (query.Err? ==>
              Narrated(scene, files).0 == Err(ErrorMessage(Clients.Failed(Clients.QueryFailed, query.error))))
        && (query.Ok? && voicevox.synthesisAt(url, query.value, speakerId).Err? ==>
              Narrated(scene, files).0
              == Err(ErrorMessage(Clients.Failed(Clients.SynthesizeFailed,
                                                 voicevox.synthesisAt(url, query.value, speakerId).error))))
    {
    }

    /** The narration step of `run` for one scene. */
    method Narrate(scene: Scene) returns (r: Result<Narration>)
      requires Valid()
      modifies ffmpeg.fs
      ensures (r, ffmpeg.fs.files) == Narrated(scene, old(ffmpeg.fs.files))
    {
      if !scene.HasNarration() {
        return Ok(Silent);
      }
      var text := scene.narrationText;
      if audioCache.Exists(text, speakerId) {
        var path := audioCache.CachePath(text, speakerId);
        var duration := audioCache.GetDuration(text, speakerId);
        return Ok(Voiced(path, duration));
      }
      var generated := voicevox.GenerateAudio(text, speakerId);
      if generated.Err? {
        return Err(ErrorMessage(generated.error));
      }
      if generated.value == [] {
        return Err(SynthesisFailed);
      }
      var path := audioCache.Save(text, speakerId, generated.value);
      return Ok(Voiced(path, audioCache.DurationFromBytes(generated.value)));
    }

    /**
     * One pass of the scene loop for scene `i` (1-based): its narration, its length, the
     * AUTO write-back into the project, and its render to `scene_{i:03d}.mp4` through a
     * fresh renderer with the project's font. A narration or length that ends the export
     * leaves the scene as it was and renders nothing.
     */
    method ProcessScene(i: nat) returns (step: Step, ghost w: Work)
      requires Valid() && 1 <= i <= |project.scenes|
      modifies project`scenes, ffmpeg, ffmpeg.fs
      ensures |project.scenes| == |old(project.scenes)|
      ensures var s := old(project.scenes)[i - 1];
        var (nr, files) := Narrated(s, old(ffmpeg.fs.files));
        var clip := ClipPath(ffmpeg.fs.tempDir, i);
        && StepOf(step, i, s, nr, clip)
        && (step.Abort? ==> project.scenes == old(project.scenes) && ffmpeg.fs.files == files)
        && (step.Render? ==>
              && project.scenes == old(project.scenes)[i - 1 := step.scene]
              && ffmpeg.fs.files - {clip} == files - {clip}
              && (step.ok ==> clip in ffmpeg.fs.files)
              && w.Renders? && w.before == files && ffmpeg.fs.files == AfterRender(step, w, CurrentSetup()))
      ensures ffmpeg.runs == old(ffmpeg.runs) + RunsOf(w) && DidWork(step, w, CurrentSetup())
    {
      var scene := project.scenes[i - 1];
      var narration := Narrate(scene);
      step, w := RenderScene(i, scene, narration);
    }

    /** What the export's encoder work depends on besides the disk. */
    function CurrentSetup(): Setup
      reads project`settings, project`output
    {
      Setup(ffmpeg.path, ffmpeg.exec, project.settings.fontPath, showFloat, project.output.resolution,
            project.output.fps, absolute, project.output.outputPath)
    }

    /** The rest of the pass for scene `i` once its narration `nr` is known: an abort when
        the narration failed, else its length, the write-back, and the render to its clip
        through `generate_scene`, whose runs and result the step records. */
    method RenderScene(i: nat, scene: Scene, nr: Result<Narration>) returns (step: Step, ghost w: Work)
      requires Valid() && 1 <= i <= |project.scenes|
      modifies project`scenes, ffmpeg, ffmpeg.fs
      ensures var clip := ClipPath(ffmpeg.fs.tempDir, i);
        && StepOf(step, i, scene, nr, clip)
        && (step.Abort? ==> project.scenes == old(project.scenes) && ffmpeg.fs.files == old(ffmpeg.fs.files))
        && (step.Render? ==>
              && project.scenes == old(project.scenes)[i - 1 := step.scene]
              && ffmpeg.fs.files - {clip} == old(ffmpeg.fs.files) - {clip}
              && (step.ok ==> clip in ffmpeg.fs.files)
              && w.Renders? && w.before == old(ffmpeg.fs.files) && ffmpeg.fs.files == AfterRender(step, w, CurrentSetup()))
      ensures ffmpeg.runs == old(ffmpeg.runs) + RunsOf(w) && DidWork(step, w, CurrentSetup())
    {
      if nr.Err? {
        return Abort(i, nr.error), Idle;
      }
      var n := nr.value;
      var resolved := Resolve(scene, n);
      if resolved.Err? {
        return Abort(i, resolved.error), Idle;
      }
      var (updated, duration) := resolved.value;
      project.scenes := project.scenes[i - 1 := updated];
      var clip := ClipPath(ffmpeg.fs.tempDir, i);
      ghost var before := ffmpeg.fs.files;
      var generator := new SceneGenerators.SceneGenerator(ffmpeg, project.settings.fontPath, showFloat);
      assert generator.fontPath == SceneGenerators.ChosenFont(project.settings.fontPath, before);
      var audio := AudioOf(n);
      var ok, base, sub, mux, t := generator.GenerateScene(updated, clip, duration, project.output.resolution,
                                                          project.output.fps, audio);
      step := Render(i, n, updated, clip, duration, audio, ok);
      w := Renders(before, t, if SceneGenerators.ParseResolution(project.output.resolution).Some? then [base] + sub + mux else []);
      ghost var setup := CurrentSetup();
      match SceneGenerators.ParseResolution(setup.resolution)
      case None =>
        assert RenderOf(step, w, setup).None?;
        assert ffmpeg.runs == old(ffmpeg.runs) + RunsOf(w);
      case Some(wh) =>
        RunsAppended(old(ffmpeg.runs), [base], sub, mux);
        ghost var r := SceneGenerators.Rendered(setup.exec, setup.ffmpegPath, generator.fontPath, before, updated,
                                                showFloat(duration), wh.0, wh.1, setup.fps, audio, clip, t);
        assert RenderOf(step, w, setup) == Some(r);
        assert r == SceneGenerators.Rendering(ok, base, sub, mux, ffmpeg.fs.files);
    }

    /** `for video_path in scene_videos: if exists: unlink` */
    method DeleteClips(clips: seq<string>)
      modifies ffmpeg.fs
      ensures ffmpeg.fs.files == old(ffmpeg.fs.files) - Composers.Elements(clips)
    {
      for k := 0 to |clips|
        invariant ffmpeg.fs.files == old(ffmpeg.fs.files) - Composers.Elements(clips[..k])
      {
        assert Composers.Elements(clips[..k + 1]) == Composers.Elements(clips[..k]) + {clips[k]} by {
          assert clips[..k + 1] == clips[..k] + [clips[k]];
        }
        ffmpeg.fs.DeleteIfExists(clips[k]);
      }
      assert clips[..|clips|] == clips;
    }

    /**
     * One pass of the loop of `run` for scene `i`, after `steps` rendered the scenes
     * before it. A good render extends the progress by one scene and its clip; anything
     * else ends the export with the message `run` reports.
     */
    method Advance(i: nat, ghost scenes0: seq<Scene>, ghost steps: seq<Step>, videos: seq<string>)
      returns (step: Step, ghost w: Work)
      requires Valid() && 1 <= i <= |scenes0| && |steps| == i - 1
      requires Progress(steps, videos, ffmpeg.fs.tempDir, scenes0, project.scenes, ffmpeg.fs.files)
      modifies project`scenes, ffmpeg, ffmpeg.fs
      ensures step.Render? && step.ok ==>
        && step.clip == ClipPath(ffmpeg.fs.tempDir, i)
        && Progress(steps + [step], videos + [step.clip], ffmpeg.fs.tempDir, scenes0, project.scenes, ffmpeg.fs.files)
      ensures !(step.Render? && step.ok) ==>
        Exported(steps + [step], EndOf(step, i), scenes0, project.scenes, ffmpeg.fs.files,
                 ffmpeg.fs.tempDir, project.output.outputPath)
      ensures ffmpeg.runs == old(ffmpeg.runs) + RunsOf(w) && DidWork(step, w, CurrentSetup())
      ensures step.Render? ==> w.Renders? && ffmpeg.fs.files == AfterRender(step, w, CurrentSetup())
      ensures forall c :: c in videos ==>
        c in ffmpeg.fs.files && c in old(ffmpeg.fs.files) && ffmpeg.fs.files[c] == old(ffmpeg.fs.files)[c]
    {
      ghost var before := ffmpeg.fs.files;
      ghost var scenesBefore := project.scenes;
      ghost var s := project.scenes[i - 1];
      ghost var narrated := Narrated(s, before);
      ghost var wav := audioCache.CachePath(s.narrationText, speakerId);
      step, w := ProcessScene(i);
      StepAdvances(step, i, s, narrated.0, wav, scenes0, steps, videos,
                   ffmpeg.fs.tempDir, project.output.outputPath, before, narrated.1, ffmpeg.fs.files,
                   scenesBefore, project.scenes);
      ClipsStay(ffmpeg.fs.tempDir, i, wav, before, narrated.1, ffmpeg.fs.files);
    }

    /**
     * The scene loop of `run`: the scenes in project order, fail-fast. Either a scene
     * ended the export as `Exported` describes, or every scene was rendered well and
     * `sceneVideos` are their clips, each on the disk as its render left it.
     */
    method RenderScenes() returns (ended: bool, finished: Finished, sceneVideos: seq<string>,
                                   ghost steps: seq<Step>, ghost works: seq<Work>)
      requires Valid()
      modifies project`scenes, ffmpeg, ffmpeg.fs
      ensures ffmpeg.runs == old(ffmpeg.runs) + AllRuns(works)
      ensures ended ==> Exported(steps, finished, old(project.scenes), project.scenes, ffmpeg.fs.files,
                                 ffmpeg.fs.tempDir, project.output.outputPath)
      ensures ended ==> Worked(steps, works, CurrentSetup(), ffmpeg.fs.files)
      ensures !ended ==>
        && |steps| == |old(project.scenes)|
        && Progress(steps, sceneVideos, ffmpeg.fs.tempDir, old(project.scenes), project.scenes, ffmpeg.fs.files)
        && Kept(steps, works, CurrentSetup(), ffmpeg.fs.files)
    {
      ghost var scenes0 := project.scenes;
      var n := |project.scenes|;
      var tempDir := ffmpeg.fs.tempDir;
      ghost var setup := CurrentSetup();
      sceneVideos := [];
      steps, works := [], [];
      var i := 1;
      while i <= n
        invariant 1 <= i <= n + 1 && |steps| == i - 1
        invariant Progress(steps, sceneVideos, tempDir, scenes0, project.scenes, ffmpeg.fs.files)
        invariant ffmpeg.runs == old(ffmpeg.runs) + AllRuns(works)
        invariant CurrentSetup() == setup && Kept(steps, works, setup, ffmpeg.fs.files)
      {
        var step;
        ghost var w;
        ghost var files0 := ffmpeg.fs.files;
        step, w := Advance(i, scenes0, steps, sceneVideos);
        AllRunsAppend(works, w);
        RunsAppended(old(ffmpeg.runs), AllRuns(works), RunsOf(w), []);
        if !(step.Render? && step.ok) {
          finished := EndOf(step, i);
          EndWorked(steps, works, step, w, setup, files0, ffmpeg.fs.files);
          steps, works := steps + [step], works + [w];
          return true, finished, sceneVideos, steps, works;
        }
        KeptExtended(steps, works, step, w, setup, sceneVideos, tempDir, files0, ffmpeg.fs.files);
        sceneVideos := sceneVideos + [step.clip];
        steps, works := steps + [step], works + [w];
        i := i + 1;
      }
      return false, Finished(false, ""), sceneVideos, steps, works;
    }

    /**
     * `run`: the scenes in project order, fail-fast, then the join of their clips into the
     * output path (`Exported`). Each rendered scene got the duration `Resolve` gives for
     * its narration, and the project keeps the written-back scenes. Every encoder run of
     * the export is one of a step's runs, in step order (`DidWork`), so none follows a
     * step that ended the export. The join reads each clip as its render left it; when the
     * clips were joined, every clip is deleted whatever the join returned; when a scene
     * ends the export, the clips of the earlier scenes are left on the disk.
     */
    method Run() returns (finished: Finished, ghost steps: seq<Step>, ghost works: seq<Work>)
      requires Valid()
      modifies project`scenes, ffmpeg, ffmpeg.fs
      ensures Exported(steps, finished, old(project.scenes), project.scenes, ffmpeg.fs.files,
                       ffmpeg.fs.tempDir, project.output.outputPath)
      ensures ffmpeg.runs == old(ffmpeg.runs) + AllRuns(works)
      ensures Worked(steps, works, CurrentSetup(), ffmpeg.fs.files)
    {
      ghost var scenes0 := project.scenes;
      var ended, sceneVideos;
      ended, finished, sceneVideos, steps, works := RenderScenes();
      if ended {
        return;
      }
      ghost var renders, rendered := steps, works;
      ghost var setup := CurrentSetup();
      ghost var before := ffmpeg.fs.files;
      assert |sceneVideos| == 1 ==> sceneVideos[0] in before;
      var result;
      ghost var w;
      result, w := JoinClips(sceneVideos);
      ghost var join := Compose(sceneVideos, result);
      AllRunsAppend(works, w);
      RunsAppended(old(ffmpeg.runs), AllRuns(works), RunsOf(w), []);
      JoinExtended(renders, rendered, join, w, setup, ffmpeg.fs.files);
      steps, works := steps + [join], works + [w];
      finished := if result then Finished(true, Saved(project.output.outputPath)) else Finished(false, ComposeFailed);
      Composed(renders, steps, finished, scenes0, project.scenes, ffmpeg.fs.files, ffmpeg.fs.tempDir,
               project.output.outputPath);
      assert CurrentSetup() == setup;
    }

    /** The end of `run` once every scene is rendered: `concat_videos` on the clips into
        the output path, then every clip deleted whatever it returned. */
    method JoinClips(sceneVideos: seq<string>) returns (result: bool, ghost w: Work)
      requires |sceneVideos| == 1 ==> sceneVideos[0] in ffmpeg.fs.files
      modifies ffmpeg, ffmpeg.fs
      ensures w.Joins? && w.before == old(ffmpeg.fs.files) && ffmpeg.runs == old(ffmpeg.runs) + RunsOf(w)
      ensures DidWork(Compose(sceneVideos, result), w, CurrentSetup())
      ensures ffmpeg.fs.files == AfterJoin(Compose(sceneVideos, result), w, CurrentSetup()) - Composers.Elements(sceneVideos)
    {
      var composer := new Composers.VideoComposer(ffmpeg, absolute);
      var r, listFile := composer.ConcatVideos(sceneVideos, project.output.outputPath);
      // The single-clip copy cannot raise: the clip was just rendered.
      assert r.Some?;
      result := r.value;
      w := Joins(old(ffmpeg.fs.files), listFile, ffmpeg.runs[|old(ffmpeg.runs)|..]);
      assert ffmpeg.fs.files == AfterJoin(Compose(sceneVideos, result), w, CurrentSetup());
      DeleteClips(sceneVideos);
    }
  }

  /**
   * The encoder work of an export that left the disk `files`: every step did its work,
   * and when the export ended with the join, the join started from a disk that held each
   * clip as its render left it, and `files` is what the join left without the clips.
   */
  ghost predicate Worked(steps: seq<Step>, works: seq<Work>, s: Setup, files: map<string, Bytes>) {
    && |steps| >= 1 && |works| == |steps|
    && (forall k :: 0 <= k < |steps| ==> DidWork(steps[k], works[k], s))
    && var m := |steps| - 1;
       steps[m].Compose? ==>
         && works[m].Joins?
         && (forall k :: 0 <= k < m ==> ClipKept(steps[k], works[k], s, works[m].before))
         && files == AfterJoin(steps[m], works[m], s) - Composers.Elements(steps[m].clips)
  }

  /** The good renders of the first scenes: each did its work, and its clip is on the
      disk `files` as its render left it. */
  ghost predicate Kept(steps: seq<Step>, works: seq<Work>, s: Setup, files: map<string, Bytes>) {
    && |works| == |steps|
    && (forall k :: 0 <= k < |steps| ==> DidWork(steps[k], works[k], s))
    && (forall k :: 0 <= k < |steps| ==> ClipKept(steps[k], works[k], s, files))
  }

  /** The clip of a good render is on the disk `files` with the bytes its render left. */
  predicate ClipKept(step: Step, w: Work, s: Setup, files: map<string, Bytes>) {
    && step.Render? && w.Renders? && step.clip in files && step.clip in AfterRender(step, w, s)
    && files[step.clip] == AfterRender(step, w, s)[step.clip]
  }

  /** A step that ends the export before the join completes its work. */
  lemma EndWorked(steps: seq<Step>, works: seq<Work>, step: Step, w: Work, s: Setup,
                  before: map<string, Bytes>, files: map<string, Bytes>)
    requires Kept(steps, works, s, before) && DidWork(step, w, s) && !step.Compose?
    ensures Worked(steps + [step], works + [w], s, files)
  {
    var steps', works' := steps + [step], works + [w];
    assert steps'[|steps|] == step && works'[|steps|] == w;
    assert forall k :: 0 <= k < |steps| ==> steps'[k] == steps[k] && works'[k] == works[k];
  }

  /** The renders of every scene and the join of their clips make up the work of an
      export. */
  lemma JoinExtended(steps: seq<Step>, works: seq<Work>, join: Step, w: Work, s: Setup, files: map<string, Bytes>)
    requires join.Compose? && w.Joins? && Kept(steps, works, s, w.before) && DidWork(join, w, s)
    requires files == AfterJoin(join, w, s) - Composers.Elements(join.clips)
    ensures Worked(steps + [join], works + [w], s, files)
  {
    var steps', works' := steps + [join], works + [w];
    assert steps'[|steps|] == join && works'[|steps|] == w;
    assert forall k :: 0 <= k < |steps| ==> steps'[k] == steps[k] && works'[k] == works[k];
  }

  /** One more good render: the render of the next scene changes none of the earlier
      clips. */
  lemma KeptExtended(steps: seq<Step>, works: seq<Work>, step: Step, w: Work, s: Setup, videos: seq<string>,
                     tempDir: string, before: map<string, Bytes>, after: map<string, Bytes>)
    requires Kept(steps, works, s, before) && |videos| == |steps|
    requires forall k :: 0 <= k < |steps| ==> OkRender(steps[k], k, tempDir)
    requires videos == Clips(tempDir, |steps|)
    requires forall c :: c in videos ==> c in after && c in before && after[c] == before[c]
    requires step.Render? && step.ok && DidWork(step, w, s) && after == AfterRender(step, w, s) && step.clip in after
    ensures Kept(steps + [step], works + [w], s, after)
  {
    var steps', works' := steps + [step], works + [w];
    forall k | 0 <= k < |steps'|
      ensures DidWork(steps'[k], works'[k], s) && ClipKept(steps'[k], works'[k], s, after)
    {
      if k < |steps| {
        assert steps'[k] == steps[k] && works'[k] == works[k];
        assert steps[k].clip == videos[k];
        assert ClipKept(steps[k], works[k], s, before);
      }
    }
  }

  lemma AllRunsAppend(works: seq<Work>, w: Work)
    ensures AllRuns(works + [w]) == AllRuns(works) + RunsOf(w)
  {
    assert (works + [w])[..|works|] == works;
  }

  lemma RunsAppended(runs: seq<Run>, a: seq<Run>, b: seq<Run>, c: seq<Run>)
    ensures runs + a + b == runs + (a + b)
    ensures runs + a + b + c == runs + (a + b + c)
  {
  }

  /** How a pass that did not render its scene well ends the export. */
  function EndOf(step: Step, i: nat): Finished {
    if step.Abort? then Finished(false, step.message) else Finished(false, SceneFailed(i))
  }

  /** The state of `run` after the good renders `steps` of the first scenes: `videos` are
      their clips, all on the disk, and the project keeps their written-back scenes and
      the later scenes as they were. */
  ghost predicate Progress(steps: seq<Step>, videos: seq<string>, tempDir: string, scenes0: seq<Scene>,
                           scenes: seq<Scene>, files: map<string, Bytes>) {
    && |scenes| == |scenes0| && |steps| <= |scenes0| && videos == Clips(tempDir, |steps|)
    && (forall k :: 0 <= k < |steps| ==> OkRender(steps[k], k, tempDir))
    && (forall k :: 0 <= k < |steps| ==> RenderedAs(steps[k], scenes0[k], scenes[k]))
    && (forall k :: |steps| <= k < |scenes| ==> scenes[k] == scenes0[k])
    && (forall c :: c in videos ==> c in files)
  }

  /**
   * What an export of the scenes `scenes0` did, ending with the project's scenes `scenes`
   * and the disk `files`: the steps follow `Trace`; every rendered scene was resolved from
   * its original and kept; every other scene is as it was; a join is followed by the
   * deletion of every clip, and an export a scene ended leaves the earlier clips on disk.
   */
  ghost predicate Exported(steps: seq<Step>, f: Finished, scenes0: seq<Scene>, scenes: seq<Scene>,
                           files: map<string, Bytes>, tempDir: string, output: string) {
    && Trace(steps, f, |scenes0|, tempDir, output)
    && |scenes| == |scenes0|
    && (forall k :: 0 <= k < |steps| && k < |scenes0| && steps[k].Render? ==> RenderedAs(steps[k], scenes0[k], scenes[k]))
    && (forall k :: 0 <= k < |scenes| && (k >= |steps| || !steps[k].Render?) ==> scenes[k] == scenes0[k])
    && (steps[|steps| - 1].Compose? ==> forall c :: c in steps[|steps| - 1].clips ==> c !in files)
    && (!steps[|steps| - 1].Compose? ==> forall k :: 0 <= k < |steps| - 1 ==> steps[k].clip in files)
  }

  /** After every scene was rendered, the join and the cleanup complete the export. */
  lemma Composed(renders: seq<Step>, steps: seq<Step>, f: Finished, scenes0: seq<Scene>, scenes: seq<Scene>,
                 files: map<string, Bytes>, tempDir: string, output: string)
    requires |renders| == |scenes0| && |scenes| == |scenes0|
    requires forall k :: 0 <= k < |renders| ==> OkRender(renders[k], k, tempDir)
    requires forall k :: 0 <= k < |renders| ==> RenderedAs(renders[k], scenes0[k], scenes[k])
    requires |steps| == |renders| + 1 && steps[..|renders|] == renders
    requires steps[|renders|].Compose? && steps[|renders|].clips == Clips(tempDir, |renders|)
    requires f == ComposeOutcome(steps[|renders|].result, output)
    requires forall c :: c in steps[|renders|].clips ==> c !in files
    ensures Exported(steps, f, scenes0, scenes, files, tempDir, output)
  {
    assert forall k :: 0 <= k < |renders| ==> steps[k] == renders[k];
  }

  /** One pass of the scene loop, from the state `Progress` describes: a good render of
      scene `i` extends it, anything else ends the export as `Exported` describes. */
  lemma StepAdvances(step: Step, i: nat, s: Scene, nr: Result<Narration>, wav: string,
                     scenes0: seq<Scene>, steps: seq<Step>, videos: seq<string>, tempDir: string, output: string,
                     before: map<string, Bytes>, narrated: map<string, Bytes>, after: map<string, Bytes>,
                     scenesBefore: seq<Scene>, scenesAfter: seq<Scene>)
    requires 1 <= i <= |scenes0| && |steps| == i - 1
    requires Progress(steps, videos, tempDir, scenes0, scenesBefore, before)
    requires s == scenesBefore[i - 1]
    requires StepOf(step, i, s, nr, ClipPath(tempDir, i))
    requires nr == Ok(Silent) <==> !s.HasNarration()
    requires EndsWith(wav, ".wav") && narrated - {wav} == before - {wav}
    requires step.Abort? ==> scenesAfter == scenesBefore && after == narrated
    requires step.Render? ==>
      && scenesAfter == scenesBefore[i - 1 := step.scene]
      && after - {ClipPath(tempDir, i)} == narrated - {ClipPath(tempDir, i)}
      && (step.ok ==> ClipPath(tempDir, i) in after)
    ensures step.Render? && step.ok ==>
      step.clip == ClipPath(tempDir, i) && Progress(steps + [step], videos + [step.clip], tempDir, scenes0, scenesAfter, after)
    ensures !(step.Render? && step.ok) ==> Exported(steps + [step], EndOf(step, i), scenes0, scenesAfter, after, tempDir, output)
  {
    assert s == scenes0[i - 1];
    ClipsStay(tempDir, i, wav, before, narrated, after);
    if step.Render? {
      assert RenderedAs(step, scenes0[i - 1], scenesAfter[i - 1]);
      assert forall k :: 0 <= k < |scenesAfter| && k != i - 1 ==> scenesAfter[k] == scenesBefore[k];
    }
    if step.Render? && step.ok {
      StepExtends(step, i, scenes0, steps, videos, tempDir, after, scenesBefore, scenesAfter);
    } else {
      StepEnds(step, i, scenes0, steps, videos, tempDir, output, after, scenesBefore, scenesAfter);
    }
  }

  lemma StepExtends(step: Step, i: nat, scenes0: seq<Scene>, steps: seq<Step>, videos: seq<string>, tempDir: string,
                    after: map<string, Bytes>, scenesBefore: seq<Scene>, scenesAfter: seq<Scene>)
    requires 1 <= i <= |scenes0| && |steps| == i - 1 && |scenesBefore| == |scenesAfter| == |scenes0|
    requires videos == Clips(tempDir, i - 1)
    requires forall k :: 0 <= k < |steps| ==> OkRender(steps[k], k, tempDir)
    requires forall k :: 0 <= k < |steps| ==> RenderedAs(steps[k], scenes0[k], scenesBefore[k])
    requires forall k :: i <= k < |scenes0| ==> scenesBefore[k] == scenes0[k]
    requires forall k :: 0 <= k < |scenesAfter| && k != i - 1 ==> scenesAfter[k] == scenesBefore[k]
    requires forall c :: c in videos ==> c in after
    requires OkRender(step, i - 1, tempDir) && RenderedAs(step, scenes0[i - 1], scenesAfter[i - 1])
    requires step.clip in after
    ensures Progress(steps + [step], videos + [step.clip], tempDir, scenes0, scenesAfter, after)
  {
    ExtendedClips(tempDir, i, videos, step.clip);
    ExtendedSteps(step, i, scenes0, steps, tempDir, scenesBefore, scenesAfter);
    forall c | c in videos + [step.clip] ensures c in after {
      if c != step.clip { assert c in videos; }
    }
  }

  /** The clip of scene `i` extends the list of the clips before it. */
  lemma ExtendedClips(tempDir: string, i: nat, videos: seq<string>, clip: string)
    requires 1 <= i && videos == Clips(tempDir, i - 1) && clip == ClipPath(tempDir, i)
    ensures Clips(tempDir, i) == videos + [clip]
  {
    var videos' := videos + [clip];
    forall k | 0 <= k < i ensures Clips(tempDir, i)[k] == videos'[k] {
      if k < i - 1 { assert videos'[k] == videos[k]; }
    }
  }

  /** A successful render of scene `i` extends the successful renders before it. */
  lemma ExtendedSteps(step: Step, i: nat, scenes0: seq<Scene>, steps: seq<Step>, tempDir: string,
                      scenesBefore: seq<Scene>, scenesAfter: seq<Scene>)
    requires 1 <= i <= |scenes0| && |steps| == i - 1 && |scenesBefore| == |scenesAfter| == |scenes0|
    requires forall k :: 0 <= k < |steps| ==> OkRender(steps[k], k, tempDir)
    requires forall k :: 0 <= k < |steps| ==> RenderedAs(steps[k], scenes0[k], scenesBefore[k])
    requires forall k :: 0 <= k < |scenesAfter| && k != i - 1 ==> scenesAfter[k] == scenesBefore[k]
    requires OkRender(step, i - 1, tempDir) && RenderedAs(step, scenes0[i - 1], scenesAfter[i - 1])
    ensures forall k :: 0 <= k < |steps + [step]| ==> OkRender((steps + [step])[k], k, tempDir)
    ensures forall k :: 0 <= k < |steps + [step]| ==> RenderedAs((steps + [step])[k], scenes0[k], scenesAfter[k])
  {
    var steps' := steps + [step];
    forall k | 0 <= k < |steps'|
      ensures OkRender(steps'[k], k, tempDir) && RenderedAs(steps'[k], scenes0[k], scenesAfter[k])
    {
      if k < |steps| {
        assert steps'[k] == steps[k] && scenesAfter[k] == scenesBefore[k];
      }
    }
  }

  lemma StepEnds(step: Step, i: nat, scenes0: seq<Scene>, steps: seq<Step>, videos: seq<string>, tempDir: string,
                 output: string, after: map<string, Bytes>, scenesBefore: seq<Scene>, scenesAfter: seq<Scene>)
    requires 1 <= i <= |scenes0| && |steps| == i - 1 && |scenesBefore| == |scenesAfter| == |scenes0|
    requires videos == Clips(tempDir, i - 1)
    requires forall k :: 0 <= k < |steps| ==> OkRender(steps[k], k, tempDir)
    requires forall k :: 0 <= k < |steps| ==> RenderedAs(steps[k], scenes0[k], scenesBefore[k])
    requires forall k :: i <= k < |scenes0| ==> scenesBefore[k] == scenes0[k]
    requires forall k :: 0 <= k < |scenesAfter| && k != i - 1 ==> scenesAfter[k] == scenesBefore[k]
    requires forall c :: c in videos ==> c in after
    requires step.Abort? ==> step.index == i && scenesAfter == scenesBefore && scenesBefore[i - 1] == scenes0[i - 1]
    requires step.Render? ==>
      step.index == i && step.clip == ClipPath(tempDir, i) && !step.ok && RenderedAs(step, scenes0[i - 1], scenesAfter[i - 1])
    requires !step.Compose?
    ensures Exported(steps + [step], EndOf(step, i), scenes0, scenesAfter, after, tempDir, output)
  {
    EndedTrace(step, i, |scenes0|, steps, tempDir, output);
    EndedRenders(step, i, scenes0, steps, scenesBefore, scenesAfter);
    assert forall k :: 0 <= k < |steps| ==> steps[k].Render?;
    EndedScenes(step, i, scenes0, steps, scenesBefore, scenesAfter);
    EndedClips(step, i, steps, videos, tempDir, after);
  }

  lemma EndedTrace(step: Step, i: nat, n: nat, steps: seq<Step>, tempDir: string, output: string)
    requires 1 <= i <= n && |steps| == i - 1
    requires forall k :: 0 <= k < |steps| ==> OkRender(steps[k], k, tempDir)
    requires step.Abort? ==> step.index == i
    requires step.Render? ==> step.index == i && step.clip == ClipPath(tempDir, i) && !step.ok
    requires !step.Compose?
    ensures Trace(steps + [step], EndOf(step, i), n, tempDir, output)
  {
    var steps' := steps + [step];
    assert forall k :: 0 <= k < |steps| ==> steps'[k] == steps[k];
    assert steps'[|steps|] == step;
  }

  lemma EndedRenders(step: Step, i: nat, scenes0: seq<Scene>, steps: seq<Step>,
                     scenesBefore: seq<Scene>, scenesAfter: seq<Scene>)
    requires 1 <= i <= |scenes0| && |steps| == i - 1 && |scenesBefore| == |scenesAfter| == |scenes0|
    requires forall k :: 0 <= k < |steps| ==> RenderedAs(steps[k], scenes0[k], scenesBefore[k])
    requires forall k :: 0 <= k < |scenesAfter| && k != i - 1 ==> scenesAfter[k] == scenesBefore[k]
    requires step.Render? ==> RenderedAs(step, scenes0[i - 1], scenesAfter[i - 1])
    ensures forall k :: 0 <= k < |steps + [step]| && k < |scenes0| && (steps + [step])[k].Render? ==>
      RenderedAs((steps + [step])[k], scenes0[k], scenesAfter[k])
  {
    var steps' := steps + [step];
    forall k | 0 <= k < |steps'| && k < |scenes0| && steps'[k].Render?
      ensures RenderedAs(steps'[k], scenes0[k], scenesAfter[k])
    {
      if k < |steps| {
        assert steps'[k] == steps[k] && scenesAfter[k] == scenesBefore[k];
      }
    }
  }

  lemma EndedScenes(step: Step, i: nat, scenes0: seq<Scene>, steps: seq<Step>,
                    scenesBefore: seq<Scene>, scenesAfter: seq<Scene>)
    requires 1 <= i <= |scenes0| && |steps| == i - 1 && |scenesBefore| == |scenesAfter| == |scenes0|
    requires forall k :: i <= k < |scenes0| ==> scenesBefore[k] == scenes0[k]
    requires forall k :: 0 <= k < |scenesAfter| && k != i - 1 ==> scenesAfter[k] == scenesBefore[k]
    requires forall k :: 0 <= k < |steps| ==> steps[k].Render?
    requires step.Abort? ==> scenesAfter == scenesBefore && scenesBefore[i - 1] == scenes0[i - 1]
    requires !step.Compose?
    ensures forall k :: 0 <= k < |scenesAfter| && (k >= |steps + [step]| || !(steps + [step])[k].Render?) ==>
      scenesAfter[k] == scenes0[k]
  {
    var steps' := steps + [step];
    forall k | 0 <= k < |scenesAfter| && (k >= |steps'| || !steps'[k].Render?)
      ensures scenesAfter[k] == scenes0[k]
    {
    }
  }

  lemma EndedClips(step: Step, i: nat, steps: seq<Step>, videos: seq<string>, tempDir: string,
                   after: map<string, Bytes>)
    requires |steps| == i - 1 && videos == Clips(tempDir, i - 1)
    requires forall k :: 0 <= k < |steps| ==> OkRender(steps[k], k, tempDir)
    requires forall c :: c in videos ==> c in after
    ensures forall k :: 0 <= k < |steps + [step]| - 1 ==> (steps + [step])[k].Render? && (steps + [step])[k].clip in after
  {
    var steps' := steps + [step];
    forall k | 0 <= k < |steps'| - 1
      ensures steps'[k].Render? && steps'[k].clip in after
    {
      assert steps'[k] == steps[k] && steps[k].clip == videos[k];
    }
  }

  /** The clips of earlier scenes survive the narration and the render of scene `i`: the
      first writes only a `.wav` cache entry, the second only clip `i`. */
  lemma ClipsStay(tempDir: string, i: nat, wav: string,
                  before: map<string, Bytes>, narrated: map<string, Bytes>, after: map<string, Bytes>)
    requires i >= 1 && EndsWith(wav, ".wav")
    requires narrated - {wav} == before - {wav}
    requires after - {ClipPath(tempDir, i)} == narrated - {ClipPath(tempDir, i)}
    requires forall c :: c in Clips(tempDir, i - 1) ==> c in before
    ensures forall c :: c in Clips(tempDir, i - 1) ==> c in after && after[c] == before[c]
  {
    var clip := ClipPath(tempDir, i);
    forall c | c in Clips(tempDir, i - 1)
      ensures c in after && after[c] == before[c]
    {
      var k :| 0 <= k < i - 1 && Clips(tempDir, i - 1)[k] == c;
      ClipIsNotWav(c, wav);
      if c == clip {
        ClipPathInjective(tempDir, k + 1, i);
      }
      assert c in before - {wav};
      assert c in narrated - {clip};
      assert c in after - {clip};
    }
  }
}
