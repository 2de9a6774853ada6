/**
 * src/insightmovie/video/scene_generator.py: rendering one scene to a clip in three
 * stages (a base clip from the scene's media, the subtitle band burnt in, the narration
 * muxed in), the encoder arguments of each stage, and the escaping of values placed
 * inside a filter description.
 */
module SceneGenerators {

  import opened Wrappers
  import opened Text
  import opened Files
  import opened Scenes
  import opened Encoders

  // ---------------------------------------------------------------- escaping

  predicate IsFilterSpecial(c: char) {
    c == '\\' || c == ':' || c == '\''
  }

  /** `_escape_filter_value`: backslashes doubled first, then `:` and `'` prefixed. */
  function EscapeFilterValue(value: string): (r: string)
    ensures r == EscapeEach(value)
    ensures Unescape(r) == value
    ensures |r| == |value| + CountSpecial(value)
  {
    EscapeChainIsEach(value);
    UnescapeEscape(value);
    EscapeLength(value);
    ReplaceChar(ReplaceChar(ReplaceChar(value, '\\', "\\\\"), ':', "\\:"), '\'', "\\'")
  }

  /** The escaping as one pass: a backslash before each special character. */
  function EscapeEach(s: string): string {
    if s == [] then []
    else (if IsFilterSpecial(s[0]) then ['\\', s[0]] else [s[0]]) + EscapeEach(s[1..])
  }

  function CountSpecial(s: string): nat {
    if s == [] then 0 else (if IsFilterSpecial(s[0]) then 1 else 0) + CountSpecial(s[1..])
  }

  /** Drops every escaping backslash: the inverse of `EscapeEach`. */
  function Unescape(s: string): string
    decreases |s|
  {
    if s == [] then []
    else if s[0] == '\\' && |s| >= 2 then [s[1]] + Unescape(s[2..])
    else [s[0]] + Unescape(s[1..])
  }

  lemma {:induction false} EscapeChainIsEach(s: string)
    ensures ReplaceChar(ReplaceChar(ReplaceChar(s, '\\', "\\\\"), ':', "\\:"), '\'', "\\'") == EscapeEach(s)
  {
    if s != [] {
      var x, t := [s[0]], s[1..];
      assert s == x + t;
      ReplaceCharAppend(x, t, '\\', "\\\\");
      var a1, b1 := ReplaceChar(x, '\\', "\\\\"), ReplaceChar(t, '\\', "\\\\");
      ReplaceCharAppend(a1, b1, ':', "\\:");
      var a2, b2 := ReplaceChar(a1, ':', "\\:"), ReplaceChar(b1, ':', "\\:");
      ReplaceCharAppend(a2, b2, '\'', "\\'");
      EscapeChainIsEach(t);
      EscapeChainOne(s[0]);
    }
  }

  lemma EscapeChainOne(c: char)
    ensures ReplaceChar(ReplaceChar(ReplaceChar([c], '\\', "\\\\"), ':', "\\:"), '\'', "\\'")
            == (if IsFilterSpecial(c) then ['\\', c] else [c])
  {
    var r1 := ReplaceChar([c], '\\', "\\\\");
    assert r1 == (if c == '\\' then "\\\\" else [c]);
    var r2 := ReplaceChar(r1, ':', "\\:");
    assert r2 == (if c == ':' then "\\:" else r1);
  }

  lemma {:induction false} UnescapeEscape(s: string)
    ensures Unescape(EscapeEach(s)) == s
  {
    if s != [] {
      var head := if IsFilterSpecial(s[0]) then ['\\', s[0]] else [s[0]];
      var e := EscapeEach(s);
      assert e == head + EscapeEach(s[1..]);
      UnescapeEscape(s[1..]);
      if IsFilterSpecial(s[0]) {
        assert e[2..] == EscapeEach(s[1..]);
      } else {
        assert e[1..] == EscapeEach(s[1..]);
      }
      assert s == [s[0]] + s[1..];
    }
  }

  lemma {:induction false} EscapeLength(s: string)
    ensures |EscapeEach(s)| == |s| + CountSpecial(s)
  {
    if s != [] { EscapeLength(s[1..]); }
  }

  /** Outside the three special characters nothing changes. */
  lemma {:induction false} EscapePlain(s: string)
    requires forall i :: 0 <= i < |s| ==> !IsFilterSpecial(s[i])
    ensures EscapeEach(s) == s
  {
    if s != [] { EscapePlain(s[1..]); assert s == [s[0]] + s[1..]; }
  }

  /** `Path(p).as_posix()` of a Windows path: backslashes become slashes. */
  function PosixPath(p: string): (r: string)
    ensures |r| == |p| && forall i :: 0 <= i < |p| ==> r[i] == (if p[i] == '\\' then '/' else p[i])
    ensures '\\' !in r
  {
    seq(|p|, i requires 0 <= i < |p| => if p[i] == '\\' then '/' else p[i])
  }

  /** `_format_font_path`: the slash form of the path, escaped; escaping is undone exactly. */
  function FormatFontPath(fontPath: string): (r: string)
    ensures Unescape(r) == PosixPath(fontPath)
  {
    EscapeFilterValue(PosixPath(fontPath))
  }

  lemma PosixPathAppend(a: string, b: string)
    ensures PosixPath(a + b) == PosixPath(a) + PosixPath(b)
  {
    var l, r := PosixPath(a + b), PosixPath(a) + PosixPath(b);
    forall i | 0 <= i < |a + b|
      ensures l[i] == r[i]
    {
      if i < |a| {
        assert (a + b)[i] == a[i];
      } else {
        assert (a + b)[i] == b[i - |a|];
      }
    }
  }

  lemma {:induction false} EscapeEachAppend(a: string, b: string)
    ensures EscapeEach(a + b) == EscapeEach(a) + EscapeEach(b)
  {
    if a != [] {
      assert (a + b)[1..] == a[1..] + b;
      EscapeEachAppend(a[1..], b);
    } else {
      assert a + b == b;
    }
  }

  /** A Windows path `D:\\rest` appears in the filter as `D\\:/rest` with slashes: only the
      drive colon needs escaping. */
  lemma FormatWindowsPath(drive: char, rest: string)
    requires !IsFilterSpecial(drive)
    requires forall i :: 0 <= i < |rest| ==> rest[i] != ':' && rest[i] != '\''
    ensures FormatFontPath([drive, ':', '\\'] + rest) == [drive, '\\', ':', '/'] + PosixPath(rest)
  {
    var head := [drive, ':', '\\'];
    PosixPathAppend(head, rest);
    PosixDrive(drive);
    EscapeEachAppend([drive, ':', '/'], PosixPath(rest));
    EscapeDrive(drive);
    PosixPlain(rest);
    EscapePlain(PosixPath(rest));
  }

  lemma PosixDrive(drive: char)
    requires drive != '\\'
    ensures PosixPath([drive, ':', '\\']) == [drive, ':', '/']
  {
    var ph := PosixPath([drive, ':', '\\']);
    assert ph[0] == drive && ph[1] == ':' && ph[2] == '/';
  }

  lemma EscapeDrive(drive: char)
    requires !IsFilterSpecial(drive)
    ensures EscapeEach([drive, ':', '/']) == [drive, '\\', ':', '/']
  {
    assert [drive, ':', '/'][1..] == [':', '/'] && [':', '/'][1..] == ['/'];
    assert EscapeEach(['/']) == ['/'];
    assert EscapeEach([':', '/']) == ['\\', ':', '/'];
  }

  lemma PosixPlain(rest: string)
    requires forall i :: 0 <= i < |rest| ==> rest[i] != ':' && rest[i] != '\''
    ensures forall i :: 0 <= i < |PosixPath(rest)| ==> !IsFilterSpecial(PosixPath(rest)[i])
  {
  }

  /** The fonts `_find_default_font` looks for, in order. */
  const CommonFonts: seq<string> :=
    ["C:\\Windows\\Fonts\\msgothic.ttc", "C:\\Windows\\Fonts\\meiryo.ttc", "C:\\Windows\\Fonts\\YuGothM.ttc"]

  /** `_find_default_font`: the first font that exists, else the first of the list. */
  method FindDefaultFont(fs: FileSystem) returns (font: string)
    ensures FirstExisting(CommonFonts, fs.files).Some? ==> Some(font) == FirstExisting(CommonFonts, fs.files)
    ensures FirstExisting(CommonFonts, fs.files).None? ==> font == CommonFonts[0]
  {
    for k := 0 to |CommonFonts|
      invariant FirstExisting(CommonFonts, fs.files) == FirstExisting(CommonFonts[k..], fs.files)
    {
      if CommonFonts[k] in fs.files {
        return CommonFonts[k];
      }
      assert CommonFonts[k..][1..] == CommonFonts[k + 1..];
    }
    return CommonFonts[0];
  }

  // ---------------------------------------------------------------- resolution

  /** `width, height = map(int, resolution.split('x'))`; None where that raises. */
  function ParseResolution(resolution: string): (r: Option<(int, int)>)
    ensures r.Some? ==> |Split(resolution, 'x')| == 2
  {
    var parts := Split(resolution, 'x');
    if |parts| != 2 then None
    else match (PyInt(parts[0]), PyInt(parts[1]))
      case (Some(w), Some(h)) => Some((w, h))
      case _ => None
  }

  /** `f"{w}x{h}"` */
  function ResolutionText(w: int, h: int): string {
    IntToString(w) + "x" + IntToString(h)
  }

  /** A printed resolution is parsed back to its two numbers. */
  lemma ParseResolutionText(w: int, h: int)
    ensures ParseResolution(ResolutionText(w, h)) == Some((w, h))
  {
    SplitJoin(IntToString(w), IntToString(h), 'x');
    assert ResolutionText(w, h) == IntToString(w) + ['x'] + IntToString(h);
    PyIntOfIntToString(w);
    PyIntOfIntToString(h);
  }

  /** A resolution without exactly one `x` is rejected. */
  lemma ParseResolutionNeedsOneX(resolution: string)
    requires Count(resolution, 'x') != 1
    ensures ParseResolution(resolution).None?
  {
    SplitCount(resolution, 'x');
  }

  // ---------------------------------------------------------------- subtitle band

  /** `int(x / d)`: division truncating toward zero, as `int()` truncates a float. */
  function TruncDiv(a: int, d: nat): int
    requires d > 0
  {
    if a >= 0 then a / d else -((-a) / d)
  }

  /** `int(height * 0.10)` */
  function BandHeight(height: int): int {
    TruncDiv(height, 10)
  }

  /** `height - subtitle_height` */
  function BandTop(height: int): int {
    height - BandHeight(height)
  }

  /** `int(height * 0.035)` */
  function FontSize(height: int): int {
    TruncDiv(35 * height, 1000)
  }

  /** For a frame of non-negative height the band lies inside it and ends at its bottom
      edge, is a tenth of it rounded down, and the font is smaller than the band. */
  lemma BandGeometry(height: int)
    requires height >= 0
    ensures 0 <= BandHeight(height) <= height && 0 <= BandTop(height) <= height
    ensures BandTop(height) + BandHeight(height) == height
    ensures 10 * BandHeight(height) <= height < 10 * BandHeight(height) + 10
    ensures 0 <= FontSize(height) <= BandHeight(height)
  {
  }

  // ---------------------------------------------------------------- arguments

  function ScaleAndPad(w: int, h: int): string {
    var W, H := IntToString(w), IntToString(h);
    "scale=" + W + ":" + H + ":force_original_aspect_ratio=decrease," + "pad=" + W + ":" + H + ":(ow-iw)/2:(oh-ih)/2"
  }

  /** `_generate_from_image`, up to the `-y <temp>` that ends every stage. */
  function ImageArgs(image: string, durationText: string, w: int, h: int, fps: int): seq<string> {
    ["-loop", "1", "-i", image, "-t", durationText, "-vf", ScaleAndPad(w, h),
     "-c:v", "libx264", "-pix_fmt", "yuv420p", "-r", IntToString(fps)]
  }

  /** `_generate_from_video`: the source trimmed, scaled, and stripped of its audio. */
  function VideoArgs(video: string, durationText: string, w: int, h: int, fps: int): seq<string> {
    ["-i", video, "-t", durationText, "-vf", ScaleAndPad(w, h),
     "-c:v", "libx264", "-pix_fmt", "yuv420p", "-r", IntToString(fps), "-an"]
  }

  /** `_generate_blank_video`: a black `color` source of the scene's length. */
  function BlankArgs(durationText: string, w: int, h: int, fps: int): seq<string> {
    ["-f", "lavfi", "-i", "color=c=black:s=" + ResolutionText(w, h) + ":d=" + durationText + ":r=" + IntToString(fps),
     "-c:v", "libx264", "-pix_fmt", "yuv420p"]
  }

  /** The base stage `generate_scene` picks for the scene's media; only the stage for a
      video source ends with `-an`, dropping the source's own audio. */
  function BaseArgs(scene: Scene, durationText: string, w: int, h: int, fps: int): (args: seq<string>)
    ensures scene.HasMedia() && scene.mediaType == Image ==> args == ImageArgs(scene.mediaPath.value, durationText, w, h, fps)
    ensures scene.HasMedia() && scene.mediaType == Video ==> args == VideoArgs(scene.mediaPath.value, durationText, w, h, fps)
    ensures !scene.HasMedia() ==> args == BlankArgs(durationText, w, h, fps)
    ensures |args| > 0 && (args[|args| - 1] == "-an" <==> scene.HasMedia() && scene.mediaType == Video)
  {
    var fpsText := IntToString(fps);
    assert fpsText[|fpsText| - 1] != 'n' by {
      if fps < 0 {
        assert fpsText[|fpsText| - 1] == NatToString(-fps)[|NatToString(-fps)| - 1];
      }
    }
    if scene.HasMedia() && scene.mediaType == Image then
      ImageArgs(scene.mediaPath.value, durationText, w, h, fps)
    else if scene.HasMedia() && scene.mediaType == Video then
      VideoArgs(scene.mediaPath.value, durationText, w, h, fps)
    else
      BlankArgs(durationText, w, h, fps)
  }

  /** `drawbox` for the band and `drawtext` centred in it. */
  function SubtitleFilter(w: int, h: int, font: string, textFile: string): string {
    var y, bandH := IntToString(BandTop(h)), IntToString(BandHeight(h));
    "drawbox=x=0:y=" + y + ":w=" + IntToString(w) + ":h=" + bandH + ":color=black@0.7:t=fill,"
    + "drawtext=fontfile='" + FormatFontPath(font) + "':textfile='" + EscapeFilterValue(PosixPath(textFile)) + "':"
    + "fontcolor=white:fontsize=" + IntToString(FontSize(h)) + ":x=(w-text_w)/2:y=" + y + "+(h-" + y + "-text_h)/2"
  }

  function SubtitleArgs(video: string, w: int, h: int, font: string, textFile: string): seq<string> {
    ["-i", video, "-vf", SubtitleFilter(w, h, font, textFile),
     "-c:v", "libx264", "-pix_fmt", "yuv420p", "-c:a", "copy"]
  }

  /** `_add_audio`: the video stream copied, the narration as AAC at 192k, cut to the shorter. */
  function AudioArgs(video: string, audio: string, output: string): seq<string> {
    ["-i", video, "-i", audio, "-c:v", "copy", "-c:a", "aac", "-b:a", "192k",
     "-strict", "experimental", "-shortest", "-y", output]
  }

  // ---------------------------------------------------------------- the generator

  /** The path a stage writes: the last argument of its command line. */
  function Target(run: Run): string
    requires |run.cmd| > 0
  {
    run.cmd[|run.cmd| - 1]
  }

  /** `run` is the stage `[ffmpeg] + prefix + ["-y", <its temp file>]`. */
  predicate IsStage(run: Run, ffmpegPath: string, prefix: seq<string>) {
    |run.cmd| == |prefix| + 3 && run.cmd == [ffmpegPath] + prefix + ["-y", Target(run)]
  }

  /** Python's truth value of the optional audio path. */
  predicate HasAudio(audio: Option<string>) {
    audio.Some? && audio.value != ""
  }

  /** The files `generate_scene` reads, which no temp file may take the name of. */
  function Inputs(scene: Scene, output: string, audio: Option<string>): set<string> {
    {output} + (if scene.mediaPath.Some? then {scene.mediaPath.value} else {})
    + (if audio.Some? then {audio.value} else {})
  }

  /** The names `generate_scene` draws for its temp files: the base clip and, for the
      subtitle stage, the subtitled clip and the text file `drawtext` reads. */
  datatype Temps = Temps(base: string, sub: string, text: string)

  /** The subtitle stage's two names, drawn fresh against `taken` and the scene's inputs. */
  predicate TextTemps(sub: string, text: string, taken: set<string>, avoid: set<string>) {
    && sub !in taken && sub !in avoid && EndsWith(sub, ".mp4")
    && text !in taken && text !in avoid && text != sub && EndsWith(text, ".txt")
  }

  /** `t` was drawn fresh against the tree `files` and the inputs `avoid`; the subtitle's
      names only when that stage ran. */
  predicate Drawn(t: Temps, files: map<string, Bytes>, avoid: set<string>, subtitled: bool) {
    && t.base !in files && t.base !in avoid && EndsWith(t.base, ".mp4")
    && (subtitled ==> TextTemps(t.sub, t.text, files.Keys + {t.base}, avoid))
  }

  /**
   * Step 2 of `generate_scene` on the clip `clip` of the tree `files`: the clip to go on
   * with, the runs made and the tree afterwards. The text goes to `textFile`, which the
   * run reads and which is gone again afterwards; on success the band is in `subTemp`
   * and `clip` is deleted, on failure nothing changes.
   */
  function Subtitled(exec: Exec, ffmpegPath: string, fontPath: string, files: map<string, Bytes>,
                     scene: Scene, clip: string, w: int, h: int, subTemp: string, textFile: string)
    : (r: (string, seq<Run>, map<string, Bytes>))
    ensures clip in files ==> r.0 in r.2
  {
    if !scene.HasSubtitle() then (clip, [], files)
    else
      var cmd := [ffmpegPath] + SubtitleArgs(clip, w, h, fontPath, textFile) + ["-y", subTemp];
      var o := exec(cmd, files[subTemp := []][textFile := Utf8(scene.subtitleText)]);
      if Succeeds(o) then (subTemp, [Run(cmd, true)], (files - {clip})[subTemp := Written(o)])
      else (clip, [Run(cmd, false)], files)
  }

  /**
   * Step 3 of `generate_scene` and its clean-up on the clip `track`: whether the output
   * was made, the runs and the tree afterwards. With an audio path the narration is
   * muxed in when that file exists; without one the clip is copied; `track` is deleted
   * either way.
   */
  function Muxed(exec: Exec, ffmpegPath: string, files: map<string, Bytes>, track: string,
                 audio: Option<string>, output: string): (bool, seq<Run>, map<string, Bytes>)
    requires track in files
  {
    if !HasAudio(audio) then (true, [], files[output := files[track]] - {track})
    else if audio.value !in files then (false, [], files - {track})
    else
      var cmd := [ffmpegPath] + AudioArgs(track, audio.value, output);
      var o := exec(cmd, files);
      (Succeeds(o), [Run(cmd, Succeeds(o))], (if Succeeds(o) then files[output := Written(o)] else files) - {track})
  }

  /** What `generate_scene` did: its verdict, the base run, the subtitle and mux runs, and
      the tree afterwards. */
  datatype Rendering = Rendering(ok: bool, base: Run, sub: seq<Run>, mux: seq<Run>, files: map<string, Bytes>)

  /** `generate_scene` once the resolution is parsed, on the tree `files`, with the temp
      names `t`; `durationText` is `str(duration)`. */
  function Rendered(exec: Exec, ffmpegPath: string, fontPath: string, files: map<string, Bytes>,
                    scene: Scene, durationText: string, w: int, h: int, fps: int,
                    audio: Option<string>, output: string, t: Temps): Rendering
  {
    var cmd := [ffmpegPath] + BaseArgs(scene, durationText, w, h, fps) + ["-y", t.base];
    var o := exec(cmd, files[t.base := []]);
    if !Succeeds(o) then Rendering(false, Run(cmd, false), [], [], files)
    else
      var s := Subtitled(exec, ffmpegPath, fontPath, files[t.base := Written(o)], scene, t.base, w, h, t.sub, t.text);
      var m := Muxed(exec, ffmpegPath, s.2, s.0, audio, output);
      Rendering(m.0, Run(cmd, true), s.1, m.1, m.2)
  }

  /**
   * The runs of `generate_scene`: the base stage with the scene's arguments, a subtitle
   * stage exactly when the base clip was made and the scene has a subtitle, reading a
   * file that holds the subtitle text in UTF-8, and a mux exactly when the base clip was
   * made and the audio file exists. The verdict is the base stage's and, with an audio
   * path, the mux's.
   */
  lemma RenderedStages(exec: Exec, ffmpegPath: string, fontPath: string, files: map<string, Bytes>,
                       scene: Scene, durationText: string, w: int, h: int, fps: int,
                       audio: Option<string>, output: string, t: Temps)
    requires Drawn(t, files, Inputs(scene, output, audio),
                   Rendered(exec, ffmpegPath, fontPath, files, scene, durationText, w, h, fps, audio, output, t).base.ok
                   && scene.HasSubtitle())
    ensures var r := Rendered(exec, ffmpegPath, fontPath, files, scene, durationText, w, h, fps, audio, output, t);
      var baseOut := Written(exec(r.base.cmd, files[t.base := []]));
      && IsStage(r.base, ffmpegPath, BaseArgs(scene, durationText, w, h, fps)) && Target(r.base) == t.base
      && r.base.ok == Succeeds(exec(r.base.cmd, files[t.base := []]))
      && |r.sub| == (if r.base.ok && scene.HasSubtitle() then 1 else 0)
      && (|r.sub| == 1 ==>
            && r.sub[0].cmd == [ffmpegPath] + SubtitleArgs(t.base, w, h, fontPath, t.text) + ["-y", t.sub]
            && r.sub[0].ok == Succeeds(exec(r.sub[0].cmd, files[t.base := baseOut][t.sub := []][t.text := Utf8(scene.subtitleText)])))
      && |r.mux| == (if r.base.ok && HasAudio(audio) && audio.value in files then 1 else 0)
      && (r.ok <==> r.base.ok && (!HasAudio(audio) || (|r.mux| == 1 && r.mux[0].ok)))
  {
    var cmd := [ffmpegPath] + BaseArgs(scene, durationText, w, h, fps) + ["-y", t.base];
    var o := exec(cmd, files[t.base := []]);
    var r := Rendered(exec, ffmpegPath, fontPath, files, scene, durationText, w, h, fps, audio, output, t);
    if Succeeds(o) {
      var s := Subtitled(exec, ffmpegPath, fontPath, files[t.base := Written(o)], scene, t.base, w, h, t.sub, t.text);
      var m := Muxed(exec, ffmpegPath, s.2, s.0, audio, output);
      assert r == Rendering(m.0, Run(cmd, true), s.1, m.1, m.2);
      if audio.Some? {
        assert audio.value in s.2 <==> audio.value in files by {
          assert audio.value != t.base;
          assert scene.HasSubtitle() ==> audio.value != t.sub;
        }
      }
    } else {
      assert r == Rendering(false, Run(cmd, false), [], [], files);
    }
  }

  /**
   * The tree `generate_scene` leaves: unchanged when it fails, and otherwise changed only
   * at the output, which holds the subtitled (or else the base) clip, or what the mux of
   * that clip with the narration wrote. Every temp file is gone again, and the mux reads
   * the original tree with only the clip it takes added.
   */
  lemma RenderedFiles(exec: Exec, ffmpegPath: string, fontPath: string, files: map<string, Bytes>,
                      scene: Scene, durationText: string, w: int, h: int, fps: int,
                      audio: Option<string>, output: string, t: Temps)
    requires Drawn(t, files, Inputs(scene, output, audio),
                   Rendered(exec, ffmpegPath, fontPath, files, scene, durationText, w, h, fps, audio, output, t).base.ok
                   && scene.HasSubtitle())
    ensures var r := Rendered(exec, ffmpegPath, fontPath, files, scene, durationText, w, h, fps, audio, output, t);
      var baseOut := Written(exec(r.base.cmd, files[t.base := []]));
      var subbed := |r.sub| == 1 && r.sub[0].ok;
      var track := if subbed then t.sub else t.base;
      var clip := if subbed
        then Written(exec(r.sub[0].cmd, files[t.base := baseOut][t.sub := []][t.text := Utf8(scene.subtitleText)]))
        else baseOut;
      && (|r.mux| == 1 ==>
            && r.mux[0].cmd == [ffmpegPath] + AudioArgs(track, audio.value, output)
            && r.mux[0].ok == Succeeds(exec(r.mux[0].cmd, files[track := clip])))
      && r.files == (if !r.ok then files
                     else files[output := if HasAudio(audio) then Written(exec(r.mux[0].cmd, files[track := clip])) else clip])
  {
    var cmd := [ffmpegPath] + BaseArgs(scene, durationText, w, h, fps) + ["-y", t.base];
    var o := exec(cmd, files[t.base := []]);
    var r := Rendered(exec, ffmpegPath, fontPath, files, scene, durationText, w, h, fps, audio, output, t);
    if Succeeds(o) {
      var s := Subtitled(exec, ffmpegPath, fontPath, files[t.base := Written(o)], scene, t.base, w, h, t.sub, t.text);
      var m := Muxed(exec, ffmpegPath, s.2, s.0, audio, output);
      assert r == Rendering(m.0, Run(cmd, true), s.1, m.1, m.2);
      SubtitledOnFresh(exec, ffmpegPath, fontPath, files, scene, t.base, Written(o), w, h, t.sub, t.text);
      assert s.2 == files[s.0 := s.2[s.0]];
      MuxedOnFresh(exec, ffmpegPath, files, s.0, s.2[s.0], audio, output);
    } else {
      assert r == Rendering(false, Run(cmd, false), [], [], files);
    }
  }

  /** So `generate_scene` changes nothing but its output, and on success the output exists. */
  lemma RenderedOnlyOutput(exec: Exec, ffmpegPath: string, fontPath: string, files: map<string, Bytes>,
                           scene: Scene, durationText: string, w: int, h: int, fps: int,
                           audio: Option<string>, output: string, t: Temps)
    requires Drawn(t, files, Inputs(scene, output, audio),
                   Rendered(exec, ffmpegPath, fontPath, files, scene, durationText, w, h, fps, audio, output, t).base.ok
                   && scene.HasSubtitle())
    ensures var r := Rendered(exec, ffmpegPath, fontPath, files, scene, durationText, w, h, fps, audio, output, t);
      r.files - {output} == files - {output} && (r.ok ==> output in r.files)
  {
    var r := Rendered(exec, ffmpegPath, fontPath, files, scene, durationText, w, h, fps, audio, output, t);
    RenderedFiles(exec, ffmpegPath, fontPath, files, scene, durationText, w, h, fps, audio, output, t);
    if r.ok {
      OnlyAt(files, r.files, output);
    }
  }

  /** A tree that is `files` with one entry set differs from it only at that entry. */
  lemma OnlyAt(files: map<string, Bytes>, after: map<string, Bytes>, k: string)
    requires k in after && after == files[k := after[k]]
    ensures after - {k} == files - {k}
  {
  }

  /** The subtitle stage on a clip added to `files`: the tree afterwards is `files` with
      only the clip it goes on with added. */
  lemma SubtitledOnFresh(exec: Exec, ffmpegPath: string, fontPath: string, files: map<string, Bytes>,
                         scene: Scene, clip: string, bytes: Bytes, w: int, h: int, subTemp: string, textFile: string)
    requires clip !in files
    requires scene.HasSubtitle() ==> subTemp !in files && subTemp != clip
    ensures var s := Subtitled(exec, ffmpegPath, fontPath, files[clip := bytes], scene, clip, w, h, subTemp, textFile);
      var subbed := |s.1| == 1 && s.1[0].ok;
      && s.0 == (if subbed then subTemp else clip) && s.0 !in files
      && s.2 == files[s.0 := if subbed
                              then Written(exec(s.1[0].cmd, files[clip := bytes][subTemp := []][textFile := Utf8(scene.subtitleText)]))
                              else bytes]
  {
    var s := Subtitled(exec, ffmpegPath, fontPath, files[clip := bytes], scene, clip, w, h, subTemp, textFile);
    if scene.HasSubtitle() {
      var cmd := [ffmpegPath] + SubtitleArgs(clip, w, h, fontPath, textFile) + ["-y", subTemp];
      var o := exec(cmd, files[clip := bytes][subTemp := []][textFile := Utf8(scene.subtitleText)]);
      if Succeeds(o) {
        assert s == (subTemp, [Run(cmd, true)], (files[clip := bytes] - {clip})[subTemp := Written(o)]);
        ClipSwapped(files, clip, bytes, subTemp, Written(o));
      } else {
        assert s == (clip, [Run(cmd, false)], files[clip := bytes]);
      }
    }
  }

  /** A clip added to `files` and then replaced by another fresh one. */
  lemma ClipSwapped(files: map<string, Bytes>, clip: string, bytes: Bytes, t: string, out: Bytes)
    requires clip !in files && t !in files && t != clip
    ensures (files[clip := bytes] - {clip})[t := out] == files[t := out]
  {
    assert files[clip := bytes] - {clip} == files;
  }

  /** The last stage on a clip added to `files`: the mux reads `files` with only the clip
      added, and afterwards the clip is gone and only the output differs. */
  lemma MuxedOnFresh(exec: Exec, ffmpegPath: string, files: map<string, Bytes>, track: string, bytes: Bytes,
                     audio: Option<string>, output: string)
    requires track !in files && track != output && (audio.Some? ==> audio.value != track)
    ensures var m := Muxed(exec, ffmpegPath, files[track := bytes], track, audio, output);
      && (|m.1| == 1 ==>
            && m.1[0].cmd == [ffmpegPath] + AudioArgs(track, audio.value, output)
            && m.1[0].ok == Succeeds(exec(m.1[0].cmd, files[track := bytes])))
      && m.2 == (if !m.0 then files
                 else files[output := if HasAudio(audio) then Written(exec(m.1[0].cmd, files[track := bytes])) else bytes])
  {
    var staged := files[track := bytes];
    assert staged - {track} == files;
    if !HasAudio(audio) {
      assert staged[output := bytes] - {track} == files[output := bytes];
    } else if audio.value in staged {
      var cmd := [ffmpegPath] + AudioArgs(track, audio.value, output);
      assert staged[output := Written(exec(cmd, staged))] - {track} == files[output := Written(exec(cmd, staged))];
    }
  }

  /** The font `SceneGenerator(ffmpeg, font_path)` uses, given the tree it looks in. */
  function ChosenFont(fontPath: Option<string>, files: map<string, Bytes>): string {
    if fontPath.Some? && fontPath.value != "" then fontPath.value
    else FirstExisting(CommonFonts, files).GetOr(CommonFonts[0])
  }

  /** A temp file and a text file added to a tree, the temp overwritten and the text file
      deleted, leave the tree with only the temp file added. */
  lemma StagedThenDropped(files: map<string, Bytes>, t: string, sub: string, text: Bytes, out: Bytes)
    requires t !in files && sub !in files && sub != t
    ensures files[t := []][sub := text][t := out] - {sub} == files[t := out]
    ensures files[t := []][sub := text] - {t} - {sub} == files
  {
  }

  /** A fresh clip written beside an existing one that is then deleted: the tree differs
      from the old one only in having the fresh clip in place of the old. */
  lemma ClipReplaced(files: map<string, Bytes>, video: string, t: string, out: Bytes)
    requires video in files && t !in files
    ensures t in files[t := out] - {video}
    ensures (files[t := out] - {video}) - {t} == files - {video}
    ensures files[t := out] - {video} == (files - {video})[t := out]
  {
  }

  class SceneGenerator {
    const ffmpeg: FFmpegWrapper
    const fontPath: string
    /** `str(duration)` of a float. */
    const showFloat: real -> string

    /** `SceneGenerator(ffmpeg, font_path)`: the given font, else the default one. */
    constructor (ffmpeg: FFmpegWrapper, fontPath: Option<string>, showFloat: real -> string)
      ensures this.ffmpeg == ffmpeg && this.showFloat == showFloat
      ensures fontPath.Some? && fontPath.value != "" ==> this.fontPath == fontPath.value
      ensures !(fontPath.Some? && fontPath.value != "") ==>
        this.fontPath == FirstExisting(CommonFonts, ffmpeg.fs.files).GetOr(CommonFonts[0])
    {
      var font: string;
      if fontPath.Some? && fontPath.value != "" {
        font := fontPath.value;
      } else {
        font := FindDefaultFont(ffmpeg.fs);
      }
      this.ffmpeg := ffmpeg;
      this.fontPath := font;
      this.showFloat := showFloat;
    }

    /** One encoder run whose output is `t`; `t` is deleted again when the run fails. */
    method EncodeInto(prefix: seq<string>, t: string) returns (ok: bool)
      modifies ffmpeg, ffmpeg.fs
      ensures var cmd := [ffmpeg.path] + prefix + ["-y", t];
        var o := ffmpeg.exec(cmd, old(ffmpeg.fs.files));
        && ffmpeg.runs == old(ffmpeg.runs) + [Run(cmd, ok)]
        && (ok <==> o.Exited? && o.code == 0)
        && ffmpeg.fs.files == (if ok then old(ffmpeg.fs.files)[t := o.written] else old(ffmpeg.fs.files) - {t})
    {
      assert [ffmpeg.path] + (prefix + ["-y", t]) == [ffmpeg.path] + prefix + ["-y", t];
      ok := ffmpeg.RunCommand(prefix + ["-y", t]);
      if !ok {
        ffmpeg.fs.DeleteIfExists(t);
      }
    }

    /**
     * The body the three `_generate_*` helpers share: a fresh `.mp4` temp file, one encoder
     * run writing it, and the temp file deleted again when the run fails.
     */
    method EncodeToTemp(prefix: seq<string>, avoid: set<string>) returns (r: Option<string>, ghost temp: string)
      modifies ffmpeg, ffmpeg.fs
      ensures temp !in old(ffmpeg.fs.files) && temp !in avoid && EndsWith(temp, ".mp4")
      ensures var cmd := [ffmpeg.path] + prefix + ["-y", temp];
        var o := ffmpeg.exec(cmd, old(ffmpeg.fs.files)[temp := []]);
        && ffmpeg.runs == old(ffmpeg.runs) + [Run(cmd, r.Some?)]
        && (r.Some? <==> o.Exited? && o.code == 0)
        && (r.Some? ==> r.value == temp && ffmpeg.fs.files == old(ffmpeg.fs.files)[temp := o.written])
        && (r.None? ==> ffmpeg.fs.files == old(ffmpeg.fs.files))
    {
      var t := ffmpeg.fs.NewTemp(".mp4", avoid);
      temp := t;
      var ok := EncodeInto(prefix, t);
      if ok {
        return Some(t), t;
      }
      assert ffmpeg.fs.files == old(ffmpeg.fs.files);
      return None, t;
    }

    /** The two temp files of `_add_subtitle`: the `.mp4` to write and the `.txt` holding
        the text in UTF-8. */
    method StageText(text: string, avoid: set<string>) returns (t: string, sub: string)
      modifies ffmpeg.fs
      ensures TextTemps(t, sub, old(ffmpeg.fs.files).Keys, avoid)
      ensures ffmpeg.fs.files == old(ffmpeg.fs.files)[t := []][sub := Utf8(text)]
    {
      t := ffmpeg.fs.NewTemp(".mp4", avoid);
      sub := ffmpeg.fs.NewTemp(".txt", avoid);
      ffmpeg.fs.Write(sub, Utf8(text));
    }

    /**
     * `_add_subtitle`: the text goes to a fresh `.txt` file that `drawtext` reads and that
     * is deleted whatever the run gives; the band is burnt into a fresh `.mp4`, which is
     * deleted again when the run fails.
     */
    method AddSubtitle(video: string, text: string, w: int, h: int, avoid: set<string>)
      returns (r: Option<string>, ghost temp: string, ghost textFile: string)
      modifies ffmpeg, ffmpeg.fs
      ensures TextTemps(temp, textFile, old(ffmpeg.fs.files).Keys, avoid)
      ensures var cmd := [ffmpeg.path] + SubtitleArgs(video, w, h, fontPath, textFile) + ["-y", temp];
        var o := ffmpeg.exec(cmd, old(ffmpeg.fs.files)[temp := []][textFile := Utf8(text)]);
        && ffmpeg.runs == old(ffmpeg.runs) + [Run(cmd, r.Some?)]
        && (r.Some? <==> o.Exited? && o.code == 0)
        && (r.Some? ==> r.value == temp && ffmpeg.fs.files == old(ffmpeg.fs.files)[temp := o.written])
        && (r.None? ==> ffmpeg.fs.files == old(ffmpeg.fs.files))
    {
      var t, sub := StageText(text, avoid);
      temp, textFile := t, sub;
      var ok := EncodeInto(SubtitleArgs(video, w, h, fontPath, sub), t);
      ghost var encoded := ffmpeg.fs.files;
      ffmpeg.fs.DeleteIfExists(sub);
      StagedThenDropped(old(ffmpeg.fs.files), t, sub, Utf8(text), if ok then encoded[t] else []);
      r := if ok then Some(t) else None;
    }

    /** `_add_audio`: false without running the encoder when either input is missing. */
    method AddAudio(video: string, audio: string, output: string) returns (ok: bool)
      modifies ffmpeg, ffmpeg.fs
      ensures video !in old(ffmpeg.fs.files) || audio !in old(ffmpeg.fs.files) ==>
        !ok && ffmpeg.runs == old(ffmpeg.runs) && ffmpeg.fs.files == old(ffmpeg.fs.files)
      ensures video in old(ffmpeg.fs.files) && audio in old(ffmpeg.fs.files) ==>
        var cmd := [ffmpeg.path] + AudioArgs(video, audio, output);
        var o := ffmpeg.exec(cmd, old(ffmpeg.fs.files));
        && ffmpeg.runs == old(ffmpeg.runs) + [Run(cmd, ok)]
        && (ok <==> o.Exited? && o.code == 0)
        && ffmpeg.fs.files == (if ok then old(ffmpeg.fs.files)[output := o.written] else old(ffmpeg.fs.files))
    {
      if video !in ffmpeg.fs.files || audio !in ffmpeg.fs.files {
        return false;
      }
      ok := ffmpeg.RunCommand(AudioArgs(video, audio, output));
    }

    /** Step 2 of `generate_scene`: when the scene has a subtitle, the band is burnt in and,
        on success, the base clip is deleted and the subtitled clip is used from then on. */
    method SubtitleStage(scene: Scene, video: string, w: int, h: int, avoid: set<string>)
      returns (track: string, ghost added: seq<Run>, ghost subTemp: string, ghost textFile: string)
      requires video in ffmpeg.fs.files
      modifies ffmpeg, ffmpeg.fs
      ensures ffmpeg.runs == old(ffmpeg.runs) + added
      ensures (track, added, ffmpeg.fs.files)
        == Subtitled(ffmpeg.exec, ffmpeg.path, fontPath, old(ffmpeg.fs.files), scene, video, w, h, subTemp, textFile)
      ensures scene.HasSubtitle() ==> TextTemps(subTemp, textFile, old(ffmpeg.fs.files).Keys, avoid)
    {
      if !scene.HasSubtitle() {
        return video, [], "", "";
      }
      var r;
      r, subTemp, textFile := AddSubtitle(video, scene.subtitleText, w, h, avoid);
      added := [ffmpeg.runs[|old(ffmpeg.runs)|]];
      if r.Some? {
        ghost var before := old(ffmpeg.fs.files);
        ghost var out := ffmpeg.fs.files[subTemp];
        ClipReplaced(before, video, subTemp, out);
        ffmpeg.fs.Delete(video);
        track := r.value;
      } else {
        track := video;
      }
    }

    /** Step 3 of `generate_scene` and its clean-up: the narration muxed in when an audio
        path is given (and exists), else the clip copied as it is; the clip is deleted
        either way. */
    method Finish(track: string, output: string, audio: Option<string>) returns (ok: bool, ghost added: seq<Run>)
      requires track in ffmpeg.fs.files && track != output && (audio.Some? ==> track != audio.value)
      modifies ffmpeg, ffmpeg.fs
      ensures ffmpeg.runs == old(ffmpeg.runs) + added
      ensures (ok, added, ffmpeg.fs.files) == Muxed(ffmpeg.exec, ffmpeg.path, old(ffmpeg.fs.files), track, audio, output)
    {
      if HasAudio(audio) {
        ok := AddAudio(track, audio.value, output);
      } else {
        ffmpeg.fs.Copy(track, output);
        ok := true;
      }
      added := ffmpeg.runs[|old(ffmpeg.runs)|..];
      ffmpeg.fs.DeleteIfExists(track);
    }

    /**
     * `generate_scene`: the base clip from the scene's media (a still image, a trimmed
     * video, or black), the subtitle band burnt in when the scene has a subtitle, then the
     * narration muxed in or the clip copied to `output_path`; false without a run when the
     * resolution does not parse. What the stages do is `Rendered`, whose properties are
     * `RenderedStages`, `RenderedFiles` and `RenderedOnlyOutput`.
     */
    method GenerateScene(scene: Scene, output: string, duration: real, resolution: string, fps: int,
                         audio: Option<string>)
      returns (ok: bool, ghost base: Run, ghost sub: seq<Run>, ghost mux: seq<Run>, ghost t: Temps)
      modifies ffmpeg, ffmpeg.fs
      ensures ParseResolution(resolution).None? ==>
        !ok && ffmpeg.runs == old(ffmpeg.runs) && ffmpeg.fs.files == old(ffmpeg.fs.files)
      ensures ffmpeg.fs.files - {output} == old(ffmpeg.fs.files) - {output}
      ensures ok ==> output in ffmpeg.fs.files
      ensures ParseResolution(resolution).Some? ==>
        var w, h := ParseResolution(resolution).value.0, ParseResolution(resolution).value.1;
        && ffmpeg.runs == old(ffmpeg.runs) + [base] + sub + mux
        && Rendering(ok, base, sub, mux, ffmpeg.fs.files)
           == Rendered(ffmpeg.exec, ffmpeg.path, fontPath, old(ffmpeg.fs.files), scene, showFloat(duration), w, h, fps, audio, output, t)
        && Drawn(t, old(ffmpeg.fs.files), Inputs(scene, output, audio), base.ok && scene.HasSubtitle())
    {
      var res := ParseResolution(resolution);
      if res.None? {
        return false, Run([], false), [], [], Temps("", "", "");
      }
      ok, base, sub, mux, t := Render(scene, output, showFloat(duration), res.value.0, res.value.1, fps, audio);
      RenderedOnlyOutput(ffmpeg.exec, ffmpeg.path, fontPath, old(ffmpeg.fs.files), scene, showFloat(duration),
                         res.value.0, res.value.1, fps, audio, output, t);
    }

    /** `generate_scene` once the resolution is parsed; `durationText` is `str(duration)`. */
    method Render(scene: Scene, output: string, durationText: string, w: int, h: int, fps: int,
                  audio: Option<string>)
      returns (ok: bool, ghost base: Run, ghost sub: seq<Run>, ghost mux: seq<Run>, ghost t: Temps)
      modifies ffmpeg, ffmpeg.fs
      ensures ffmpeg.runs == old(ffmpeg.runs) + [base] + sub + mux
      ensures Rendering(ok, base, sub, mux, ffmpeg.fs.files)
        == Rendered(ffmpeg.exec, ffmpeg.path, fontPath, old(ffmpeg.fs.files), scene, durationText, w, h, fps, audio, output, t)
      ensures Drawn(t, old(ffmpeg.fs.files), Inputs(scene, output, audio), base.ok && scene.HasSubtitle())
    {
      var avoid := Inputs(scene, output, audio);
      var clip, temp := EncodeToTemp(BaseArgs(scene, durationText, w, h, fps), avoid);
      base := ffmpeg.runs[|old(ffmpeg.runs)|];
      if clip.None? {
        return false, base, [], [], Temps(temp, "", "");
      }
      ghost var cmd := [ffmpeg.path] + BaseArgs(scene, durationText, w, h, fps) + ["-y", temp];
      ghost var before := ffmpeg.fs.files;
      assert before == old(ffmpeg.fs.files)[temp := Written(ffmpeg.exec(cmd, old(ffmpeg.fs.files)[temp := []]))];
      assert before.Keys == old(ffmpeg.fs.files).Keys + {temp};
      ghost var subTemp, textFile;
      ok, sub, mux, subTemp, textFile := SubtitleThenFinish(scene, clip.value, output, w, h, audio, avoid);
      t := Temps(temp, subTemp, textFile);
      ghost var r := Rendered(ffmpeg.exec, ffmpeg.path, fontPath, old(ffmpeg.fs.files), scene, durationText, w, h, fps, audio, output, t);
      assert r == Rendering(ok, base, sub, mux, ffmpeg.fs.files);
    }

    /** Steps 2 and 3 of `generate_scene` on the base clip `clip`, a temp file. */
    method SubtitleThenFinish(scene: Scene, clip: string, output: string, w: int, h: int,
                              audio: Option<string>, avoid: set<string>)
      returns (ok: bool, ghost sub: seq<Run>, ghost mux: seq<Run>, ghost subTemp: string, ghost textFile: string)
      requires clip in ffmpeg.fs.files && clip !in avoid && output in avoid
      requires audio.Some? ==> audio.value in avoid
      modifies ffmpeg, ffmpeg.fs
      ensures ffmpeg.runs == old(ffmpeg.runs) + sub + mux
      ensures var s := Subtitled(ffmpeg.exec, ffmpeg.path, fontPath, old(ffmpeg.fs.files), scene, clip, w, h, subTemp, textFile);
        && sub == s.1
        && (ok, mux, ffmpeg.fs.files) == Muxed(ffmpeg.exec, ffmpeg.path, s.2, s.0, audio, output)
      ensures scene.HasSubtitle() ==> TextTemps(subTemp, textFile, old(ffmpeg.fs.files).Keys, avoid)
    {
      var track;
      track, sub, subTemp, textFile := SubtitleStage(scene, clip, w, h, avoid);
      assert track == clip || track == subTemp;
      ok, mux := Finish(track, output, audio);
    }
  }
}
