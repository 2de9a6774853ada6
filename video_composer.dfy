/**
 * src/insightmovie/video/video_composer.py: joining the scene clips into one video, either
 * by stream copy through the encoder's concat demuxer or after re-encoding every clip to
 * a common size and frame rate.
 */
module Composers {

  import opened Wrappers
  import opened Text
  import opened Files
  import opened Encoders
  import SceneGenerators

  // ---------------------------------------------------------------- the manifest

  /** `.replace('\\', '/')` */
  function Slashed(p: string): (r: string)
    ensures '\\' !in r
  {
    ReplaceCharRemoves(p, '\\', "/");
    ReplaceChar(p, '\\', "/")
  }

  /** One manifest line without its line break: `file '<path>'`, no other escaping. */
  function Entry(absolutePath: string): string {
    "file '" + Slashed(absolutePath) + "'"
  }

  /** The text written to the concat list, one line per clip in order; `absolute` is
      `str(Path(p).absolute())`. */
  function Manifest(paths: seq<string>, absolute: string -> string): string {
    if paths == [] then "" else Entry(absolute(paths[0])) + "\n" + Manifest(paths[1..], absolute)
  }

  lemma {:induction false} ManifestAppend(paths: seq<string>, p: string, absolute: string -> string)
    ensures Manifest(paths + [p], absolute) == Manifest(paths, absolute) + Entry(absolute(p)) + "\n"
  {
    if paths == [] {
      assert [p][1..] == [];
    } else {
      assert (paths + [p])[1..] == paths[1..] + [p];
      ManifestAppend(paths[1..], p, absolute);
    }
  }

  /** The encoded manifest of the first `k + 1` clips extends that of the first `k` by one line. */
  lemma ManifestStep(paths: seq<string>, k: nat, absolute: string -> string)
    requires k < |paths|
    ensures Utf8(Manifest(paths[..k + 1], absolute))
            == Utf8(Manifest(paths[..k], absolute)) + Utf8(Entry(absolute(paths[k])) + "\n")
  {
    assert paths[..k + 1] == paths[..k] + [paths[k]];
    ManifestAppend(paths[..k], paths[k], absolute);
    var line := Entry(absolute(paths[k])) + "\n";
    assert Manifest(paths[..k + 1], absolute) == Manifest(paths[..k], absolute) + line;
    Utf8Append(Manifest(paths[..k], absolute), line);
  }

  /** The manifest read line by line: exactly one `file '...'` line per clip, in the clips'
      order, then nothing after the final line break, provided no path holds a line break. */
  lemma {:induction false} ManifestLines(paths: seq<string>, absolute: string -> string)
    requires forall k :: 0 <= k < |paths| ==> '\n' !in absolute(paths[k])
    ensures Split(Manifest(paths, absolute), '\n') == seq(|paths|, k requires 0 <= k < |paths| => Entry(absolute(paths[k]))) + [""]
  {
    if paths == [] {
    } else {
      var e := Entry(absolute(paths[0]));
      EntryKeepsLine(absolute(paths[0]));
      forall k | 0 <= k < |paths[1..]| ensures '\n' !in absolute(paths[1..][k]) {
        assert paths[1..][k] == paths[k + 1];
      }
      ManifestLines(paths[1..], absolute);
      SplitCons(e, Manifest(paths[1..], absolute), '\n');
      assert Manifest(paths, absolute) == e + ['\n'] + Manifest(paths[1..], absolute);
      var all := seq(|paths|, k requires 0 <= k < |paths| => Entry(absolute(paths[k])));
      var rest := seq(|paths| - 1, k requires 0 <= k < |paths| - 1 => Entry(absolute(paths[1..][k])));
      assert all == [e] + rest by {
        forall k | 0 <= k < |paths| ensures all[k] == ([e] + rest)[k] {
          if k > 0 { assert paths[1..][k - 1] == paths[k]; }
        }
      }
    }
  }

  /** An entry holds a line break only where its path does. */
  lemma EntryKeepsLine(path: string)
    requires '\n' !in path
    ensures '\n' !in Entry(path)
  {
    ReplaceCharIn(path, '\\', "/", '\n');
  }

  /** `-f concat -safe 0 -i <list> -c copy -y <output>` */
  function ConcatArgs(listFile: string, output: string): (args: seq<string>)
    ensures |args| == 10 && args[5] == listFile && args[9] == output
  {
    ["-f", "concat", "-safe", "0", "-i", listFile, "-c", "copy", "-y", output]
  }

  /**
   * The one encoder run of `concat_videos` over two or more `clips`: the concat demuxer
   * reading the fresh list file `listFile` and writing `output`, run on the disk `files`
   * with the list file holding the manifest of `clips` in their order; `ok` is its result.
   */
  predicate JoinedBy(ok: bool, joined: seq<Run>, listFile: string, ffmpegPath: string,
                     exec: (seq<string>, map<string, Bytes>) -> Outcome, absolute: string -> string,
                     clips: seq<string>, output: string, files: map<string, Bytes>) {
    && listFile !in files && listFile !in Named(clips, output)
    && var cmd := [ffmpegPath] + ConcatArgs(listFile, output);
       && joined == [Run(cmd, ok)]
       && ok == Succeeds(exec(cmd, files[listFile := Utf8(Manifest(clips, absolute))]))
  }

  /** The re-encoding of one clip to `w`x`h` at `fps`, with AAC audio at 44.1 kHz. */
  function ReencodeArgs(video: string, w: int, h: int, fps: int, temp: string): seq<string> {
    ["-i", video, "-vf", SceneGenerators.ScaleAndPad(w, h), "-c:v", "libx264", "-pix_fmt", "yuv420p",
     "-r", IntToString(fps), "-c:a", "aac", "-ar", "44100", "-y", temp]
  }

  function Elements(s: seq<string>): set<string> {
    set x | x in s
  }

  /** The paths a concatenation names, which its temp files must differ from. */
  function Named(videoPaths: seq<string>, output: string): set<string> {
    Elements(videoPaths) + {output}
  }

  /** Dropping the keys a disjoint update added gives the map back. */
  lemma RemoveAdded(a: map<string, Bytes>, m: map<string, Bytes>)
    requires forall k :: k in m ==> k !in a
    ensures (a + m) - m.Keys == a
  {
  }

  lemma RemoveAddedAfterWrite(a: map<string, Bytes>, m: map<string, Bytes>, out: string, v: Bytes)
    requires forall k :: k in m ==> k !in a
    requires out !in m
    ensures (a + m)[out := v] - m.Keys == a[out := v]
  {
  }

  /** The runs of the re-encode loop: one per temp file, each re-encoding the clip at
      the same position into it. */
  predicate ReencodeLog(runs: seq<Run>, ffmpegPath: string, videoPaths: seq<string>, w: int, h: int, fps: int,
                        temps: seq<string>) {
    && |runs| == |temps| <= |videoPaths|
    && forall i :: 0 <= i < |temps| ==> runs[i].cmd == [ffmpegPath] + ReencodeArgs(videoPaths[i], w, h, fps, temps[i])
  }

  lemma ReencodeLogStep(runs: seq<Run>, ffmpegPath: string, videoPaths: seq<string>, w: int, h: int, fps: int,
                        temps: seq<string>, temp: string, run: Run)
    requires ReencodeLog(runs, ffmpegPath, videoPaths, w, h, fps, temps) && |temps| < |videoPaths|
    requires run.cmd == [ffmpegPath] + ReencodeArgs(videoPaths[|temps|], w, h, fps, temp)
    ensures ReencodeLog(runs + [run], ffmpegPath, videoPaths, w, h, fps, temps + [temp])
  {
  }

  /** The contents of the temp files after the re-encode runs `runs` wrote `temps`, in
      order: each run saw the disk `files` with the earlier temp files and its own, still
      empty, and its temp file holds what it wrote. */
  function Reencoded(exec: (seq<string>, map<string, Bytes>) -> Outcome, files: map<string, Bytes>,
                     runs: seq<Run>, temps: seq<string>): map<string, Bytes>
    requires |runs| == |temps|
  {
    if temps == [] then map[]
    else
      var before := Reencoded(exec, files, runs[..|runs| - 1], temps[..|temps| - 1]);
      var t := temps[|temps| - 1];
      before[t := Written(exec(runs[|runs| - 1].cmd, (files + before)[t := []]))]
  }

  lemma ReencodedStep(exec: (seq<string>, map<string, Bytes>) -> Outcome, files: map<string, Bytes>,
                      runs: seq<Run>, temps: seq<string>, run: Run, t: string)
    requires |runs| == |temps|
    ensures Reencoded(exec, files, runs + [run], temps + [t])
            == Reencoded(exec, files, runs, temps)[t := Written(exec(run.cmd, (files + Reencoded(exec, files, runs, temps))[t := []]))]
  {
    assert (runs + [run])[..|runs|] == runs;
    assert (temps + [t])[..|temps|] == temps;
  }

  predicate AllOk(runs: seq<Run>) {
    forall i :: 0 <= i < |runs| ==> runs[i].ok
  }

  predicate FreshTemps(temps: seq<string>, files: map<string, Bytes>, avoid: set<string>) {
    forall i :: 0 <= i < |temps| ==> temps[i] !in files && temps[i] !in avoid
  }

  /** `made` holds exactly the temp files, none of which was on the disk before. */
  lemma AllOkStep(runs: seq<Run>, run: Run)
    requires AllOk(runs) && run.ok
    ensures AllOk(runs + [run])
  {
  }

  lemma AppendAssoc(log: seq<Run>, runs: seq<Run>, run: Run)
    ensures log + runs + [run] == log + (runs + [run])
  {
  }

  lemma FreshTempsStep(temps: seq<string>, temp: string, files: map<string, Bytes>, avoid: set<string>)
    requires FreshTemps(temps, files, avoid) && temp !in files && temp !in avoid
    ensures FreshTemps(temps + [temp], files, avoid)
  {
  }

  ghost predicate Holds(made: map<string, Bytes>, temps: seq<string>, files: map<string, Bytes>) {
    (forall p :: p in made <==> p in temps) && (forall p :: p in made ==> p !in files)
  }

  /**
   * What `concat_videos_with_re_encode` did, given the runs of its loop and of its join:
   * the clips re-encoded in order into fresh temp files, each run but the last successful;
   * when every clip was re-encoded (into `made`, on top of the disk `files`), one clip
   * needs no concat run and is the result, and two or more are joined, in their order, by
   * the concat run over the temp files, whose result is the result; otherwise no join.
   */
  predicate ReencodedThenJoined(ok: bool, tried: seq<string>, encoded: seq<Run>, joined: seq<Run>,
                                made: map<string, Bytes>, listFile: string, ffmpegPath: string,
                                exec: (seq<string>, map<string, Bytes>) -> Outcome, absolute: string -> string,
                                videoPaths: seq<string>, outputPath: string, w: int, h: int, fps: int,
                                files: map<string, Bytes>) {
    && ReencodeLog(encoded, ffmpegPath, videoPaths, w, h, fps, tried) && |tried| >= 1
    && AllOk(encoded[..|tried| - 1]) && FreshTemps(tried, files, Named(videoPaths, outputPath))
    && (AllOk(encoded) && |tried| == |videoPaths| ==>
          && made == Reencoded(exec, files, encoded, tried) && made.Keys == Elements(tried)
          && (|videoPaths| == 1 ==> ok && joined == [])
          && (|videoPaths| >= 2 ==>
               JoinedBy(ok, joined, listFile, ffmpegPath, exec, absolute, tried, outputPath, files + made)))
    && (!(AllOk(encoded) && |tried| == |videoPaths|) ==> !ok && joined == [])
  }

  lemma AddAfterUpdate(a: map<string, Bytes>, m: map<string, Bytes>, k: string, v: Bytes)
    ensures (a + m)[k := v] == a + m[k := v]
  {
  }

  class VideoComposer {
    const ffmpeg: FFmpegWrapper
    /** `str(Path(p).absolute())` */
    const absolute: string -> string

    constructor (ffmpeg: FFmpegWrapper, absolute: string -> string)
      ensures this.ffmpeg == ffmpeg && this.absolute == absolute
    {
      this.ffmpeg := ffmpeg;
      this.absolute := absolute;
    }

    /**
     * `concat_videos`. No clip: false, and nothing happens. One clip: copied to the
     * output, true; `shutil.copy` raises (None) when the clip does not exist. Two or more:
     * a fresh `.txt` list file holding the manifest, one encoder run of the concat
     * demuxer over it, the list file deleted, and the run's result returned.
     */
    method ConcatVideos(videoPaths: seq<string>, outputPath: string) returns (r: Option<bool>, ghost listFile: string)
      modifies ffmpeg, ffmpeg.fs
      ensures |videoPaths| == 0 ==>
        r == Some(false) && ffmpeg.runs == old(ffmpeg.runs) && ffmpeg.fs.files == old(ffmpeg.fs.files)
      ensures |videoPaths| == 1 && videoPaths[0] in old(ffmpeg.fs.files) ==>
        && r == Some(true) && ffmpeg.runs == old(ffmpeg.runs)
        && ffmpeg.fs.files == old(ffmpeg.fs.files)[outputPath := old(ffmpeg.fs.files)[videoPaths[0]]]
      ensures |videoPaths| == 1 && videoPaths[0] !in old(ffmpeg.fs.files) ==>
        r.None? && ffmpeg.runs == old(ffmpeg.runs) && ffmpeg.fs.files == old(ffmpeg.fs.files)
      ensures |videoPaths| >= 2 ==>
          && listFile !in old(ffmpeg.fs.files) && listFile !in Named(videoPaths, outputPath)
          && EndsWith(listFile, ".txt")
          && var cmd := [ffmpeg.path] + ConcatArgs(listFile, outputPath);
             var o := ffmpeg.exec(cmd, old(ffmpeg.fs.files)[listFile := Utf8(Manifest(videoPaths, absolute))]);
             && r == Some(o.Exited? && o.code == 0)
             && ffmpeg.runs == old(ffmpeg.runs) + [Run(cmd, r.value)]
             && ffmpeg.fs.files == (if r.value then old(ffmpeg.fs.files)[outputPath := o.written]
                                    else old(ffmpeg.fs.files))
    {
      listFile := "";
      if |videoPaths| == 0 {
        return Some(false), listFile;
      }
      if |videoPaths| == 1 {
        if videoPaths[0] !in ffmpeg.fs.files {
          return None, listFile;
        }
        ffmpeg.fs.Copy(videoPaths[0], outputPath);
        return Some(true), listFile;
      }
      var list := WriteManifest(videoPaths, Named(videoPaths, outputPath));
      listFile := list;
      var ok := ffmpeg.RunCommand(ConcatArgs(list, outputPath));
      ffmpeg.fs.Delete(list);
      assert list != outputPath;
      r := Some(ok);
    }

    /** The list file of `concat_videos`: created empty, then one line written per clip. */
    method WriteManifest(videoPaths: seq<string>, avoid: set<string>) returns (listFile: string)
      modifies ffmpeg.fs
      ensures listFile !in old(ffmpeg.fs.files) && listFile !in avoid && EndsWith(listFile, ".txt")
      ensures ffmpeg.fs.files == old(ffmpeg.fs.files)[listFile := Utf8(Manifest(videoPaths, absolute))]
    {
      listFile := ffmpeg.fs.NewTemp(".txt", avoid);
      for k := 0 to |videoPaths|
        invariant ffmpeg.fs.files == old(ffmpeg.fs.files)[listFile := Utf8(Manifest(videoPaths[..k], absolute))]
      {
        var line := Entry(absolute(videoPaths[k])) + "\n";
        ManifestStep(videoPaths, k, absolute);
        ffmpeg.fs.Write(listFile, ffmpeg.fs.files[listFile] + Utf8(line));
      }
      assert videoPaths[..|videoPaths|] == videoPaths;
    }

    /** `for temp in temps: if Path(temp).exists(): Path(temp).unlink()` */
    method RemoveTemps(temps: seq<string>)
      modifies ffmpeg.fs
      ensures ffmpeg.fs.files == old(ffmpeg.fs.files) - Elements(temps)
    {
      for k := 0 to |temps|
        invariant ffmpeg.fs.files == old(ffmpeg.fs.files) - Elements(temps[..k])
      {
        assert Elements(temps[..k + 1]) == Elements(temps[..k]) + {temps[k]} by {
          assert temps[..k + 1] == temps[..k] + [temps[k]];
        }
        ffmpeg.fs.DeleteIfExists(temps[k]);
      }
      assert temps[..|temps|] == temps;
    }

    /** One pass of the loop body: a fresh `.mp4` temp file and one encoder run writing it. */
    method ReencodeOne(video: string, w: int, h: int, fps: int, avoid: set<string>) returns (done: bool, temp: string)
      modifies ffmpeg, ffmpeg.fs
      ensures temp !in old(ffmpeg.fs.files) && temp !in avoid && temp in ffmpeg.fs.files
      ensures var cmd := [ffmpeg.path] + ReencodeArgs(video, w, h, fps, temp);
        var o := ffmpeg.exec(cmd, old(ffmpeg.fs.files)[temp := []]);
        && ffmpeg.runs == old(ffmpeg.runs) + [Run(cmd, done)]
        && done == Succeeds(o)
        && ffmpeg.fs.files == old(ffmpeg.fs.files)[temp := if done then Written(o) else []]
    {
      temp := ffmpeg.fs.NewTemp(".mp4", avoid);
      done := ffmpeg.RunCommand(ReencodeArgs(video, w, h, fps, temp));
    }

    /** The clean-up on failure: the temp files made so far and the failing one deleted. */
    method Abandon(temps: seq<string>, temp: string, ghost base: map<string, Bytes>, ghost made: map<string, Bytes>)
      requires forall p :: p in made <==> p in temps
      requires forall p :: p in made ==> p !in base
      requires temp !in base && temp in ffmpeg.fs.files
      requires ffmpeg.fs.files == (base + made)[temp := ffmpeg.fs.files[temp]]
      modifies ffmpeg.fs
      ensures ffmpeg.fs.files == base
    {
      RemoveTemps(temps);
      ffmpeg.fs.DeleteIfExists(temp);
      assert Elements(temps) == made.Keys;
      assert ffmpeg.fs.files == (base + made) - made.Keys - {temp};
      RemoveAdded(base, made);
    }

    /** The body of the re-encode loop for the next clip: its temp file is kept on
        success and, with all earlier ones, deleted on failure; `base` is the disk before
        the loop and `made` the temp files so far. */
    method ReencodeNext(videoPaths: seq<string>, w: int, h: int, fps: int, avoid: set<string>, temps: seq<string>,
                        ghost made: map<string, Bytes>, ghost base: map<string, Bytes>)
      returns (done: bool, temp: string, ghost made': map<string, Bytes>, ghost run: Run)
      requires |temps| < |videoPaths|
      requires Holds(made, temps, base) && ffmpeg.fs.files == base + made
      modifies ffmpeg, ffmpeg.fs
      ensures run == Run([ffmpeg.path] + ReencodeArgs(videoPaths[|temps|], w, h, fps, temp), done)
      ensures ffmpeg.runs == old(ffmpeg.runs) + [run]
      ensures temp !in base && temp !in avoid
      ensures done ==> Holds(made', temps + [temp], base) && ffmpeg.fs.files == base + made'
      ensures done ==> made' == made[temp := Written(ffmpeg.exec(run.cmd, (base + made)[temp := []]))]
      ensures !done ==> ffmpeg.fs.files == base
    {
      made' := made;
      done, temp := ReencodeOne(videoPaths[|temps|], w, h, fps, avoid);
      run := Run([ffmpeg.path] + ReencodeArgs(videoPaths[|temps|], w, h, fps, temp), done);
      if !done {
        Abandon(temps, temp, base, made);
        return;
      }
      AddAfterUpdate(base, made, temp, ffmpeg.fs.files[temp]);
      made' := made[temp := ffmpeg.fs.files[temp]];
    }

    /**
     * The loop of `concat_videos_with_re_encode`: each clip, in order, re-encoded into a
     * fresh `.mp4` temp file. At the first failure the temp files made so far and the
     * failing one are deleted and the loop stops (`tried` ends with the failing one);
     * otherwise `temps` holds one re-encoded file per clip, and `made` their contents.
     */
    method ReencodeAll(videoPaths: seq<string>, w: int, h: int, fps: int, avoid: set<string>)
      returns (ok: bool, temps: seq<string>, ghost tried: seq<string>, ghost added: seq<Run>, ghost made: map<string, Bytes>)
      modifies ffmpeg, ffmpeg.fs
      ensures ffmpeg.runs == old(ffmpeg.runs) + added
      ensures ReencodeLog(added, ffmpeg.path, videoPaths, w, h, fps, tried)
      ensures FreshTemps(tried, old(ffmpeg.fs.files), avoid)
      ensures ok ==> && tried == temps && |temps| == |videoPaths| && AllOk(added)
                     && Holds(made, temps, old(ffmpeg.fs.files))
                     && made == Reencoded(ffmpeg.exec, old(ffmpeg.fs.files), added, temps)
                     && ffmpeg.fs.files == old(ffmpeg.fs.files) + made
      ensures !ok ==> && |tried| >= 1 && AllOk(added[..|tried| - 1]) && !added[|tried| - 1].ok
                      && ffmpeg.fs.files == old(ffmpeg.fs.files)
    {
      temps, added, made := [], [], map[];
      ghost var base, log := ffmpeg.fs.files, ffmpeg.runs;
      for k := 0 to |videoPaths|
        invariant |temps| == k
        invariant ffmpeg.runs == log + added
        invariant ReencodeLog(added, ffmpeg.path, videoPaths, w, h, fps, temps) && AllOk(added)
        invariant FreshTemps(temps, base, avoid)
        invariant Holds(made, temps, base)
        invariant ffmpeg.fs.files == base + made
        invariant made == Reencoded(ffmpeg.exec, base, added, temps)
      {
        var done, temp;
        ghost var made', run;
        done, temp, made', run := ReencodeNext(videoPaths, w, h, fps, avoid, temps, made, base);
        ReencodeLogStep(added, ffmpeg.path, videoPaths, w, h, fps, temps, temp, run);
        AppendAssoc(log, added, run);
        FreshTempsStep(temps, temp, base, avoid);
        if !done {
          assert (added + [run])[..|added|] == added;
          return false, temps, temps + [temp], added + [run], made;
        }
        AllOkStep(added, run);
        ReencodedStep(ffmpeg.exec, base, added, temps, run, temp);
        temps, added, made := temps + [temp], added + [run], made';
      }
      ok, tried := true, temps;
    }

    /**
     * `concat_videos_with_re_encode`. No clip, or a resolution that is not `WxH`: false
     * and nothing happens. Otherwise the clips are re-encoded in order (fail-fast, with
     * the temp files cleaned up), joined by `concat_videos`, and every temp file deleted
     * whatever the join returned; no file but the output is left changed.
     */
    method ConcatVideosWithReEncode(videoPaths: seq<string>, outputPath: string, resolution: string, fps: int)
      returns (ok: bool, ghost tried: seq<string>, ghost encoded: seq<Run>, ghost joined: seq<Run>,
               ghost made: map<string, Bytes>, ghost listFile: string)
      modifies ffmpeg, ffmpeg.fs
      ensures ffmpeg.runs == old(ffmpeg.runs) + encoded + joined
      ensures !ok ==> ffmpeg.fs.files == old(ffmpeg.fs.files)
      ensures ok ==>
        outputPath in ffmpeg.fs.files && ffmpeg.fs.files == old(ffmpeg.fs.files)[outputPath := ffmpeg.fs.files[outputPath]]
      ensures |videoPaths| == 0 || SceneGenerators.ParseResolution(resolution).None? ==>
        !ok && encoded == [] && joined == []
      ensures |videoPaths| > 0 && SceneGenerators.ParseResolution(resolution).Some? ==>
        var (w, h) := SceneGenerators.ParseResolution(resolution).value;
        ReencodedThenJoined(ok, tried, encoded, joined, made, listFile, ffmpeg.path, ffmpeg.exec, absolute,
                            videoPaths, outputPath, w, h, fps, old(ffmpeg.fs.files))
    {
      ok, tried, encoded, joined, made, listFile := false, [], [], [], map[], "";
      if |videoPaths| == 0 {
        return;
      }
      var size := SceneGenerators.ParseResolution(resolution);
      if size.None? {
        return;
      }
      var (w, h) := size.value;
      ok, tried, encoded, joined, made, listFile := ReencodeAndJoin(videoPaths, outputPath, w, h, fps);
    }

    /** `concat_videos_with_re_encode` once the resolution is parsed. */
    method ReencodeAndJoin(videoPaths: seq<string>, outputPath: string, w: int, h: int, fps: int)
      returns (ok: bool, ghost tried: seq<string>, ghost encoded: seq<Run>, ghost joined: seq<Run>,
               ghost made: map<string, Bytes>, ghost listFile: string)
      requires |videoPaths| > 0
      modifies ffmpeg, ffmpeg.fs
      ensures ffmpeg.runs == old(ffmpeg.runs) + encoded + joined
      ensures !ok ==> ffmpeg.fs.files == old(ffmpeg.fs.files)
      ensures ok ==>
        outputPath in ffmpeg.fs.files && ffmpeg.fs.files == old(ffmpeg.fs.files)[outputPath := ffmpeg.fs.files[outputPath]]
      ensures ReencodedThenJoined(ok, tried, encoded, joined, made, listFile, ffmpeg.path, ffmpeg.exec, absolute,
                                  videoPaths, outputPath, w, h, fps, old(ffmpeg.fs.files))
    {
      var allEncoded, temps;
      allEncoded, temps, tried, encoded, made := ReencodeAll(videoPaths, w, h, fps, Named(videoPaths, outputPath));
      listFile := "";
      if !allEncoded {
        return false, tried, encoded, [], made, listFile;
      }
      assert made.Keys == Elements(temps);
      ok, joined, listFile := JoinAndClean(temps, outputPath, old(ffmpeg.fs.files), made);
    }

    /** `concat_videos(temp_videos, output_path)` after a successful loop, then every temp
        file deleted; `base` is the disk without the temp files. */
    method JoinAndClean(temps: seq<string>, outputPath: string, ghost base: map<string, Bytes>,
                        ghost made: map<string, Bytes>)
      returns (ok: bool, ghost added: seq<Run>, ghost listFile: string)
      requires |temps| >= 1
      requires forall p :: p in made <==> p in temps
      requires forall p :: p in made ==> p !in base
      requires outputPath !in made
      requires ffmpeg.fs.files == base + made
      modifies ffmpeg, ffmpeg.fs
      ensures ffmpeg.runs == old(ffmpeg.runs) + added
      ensures !ok ==> ffmpeg.fs.files == base
      ensures ok ==> outputPath in ffmpeg.fs.files && ffmpeg.fs.files == base[outputPath := ffmpeg.fs.files[outputPath]]
      ensures |temps| == 1 ==> ok && added == []
      ensures |temps| >= 2 ==>
        JoinedBy(ok, added, listFile, ffmpeg.path, ffmpeg.exec, absolute, temps, outputPath, base + made)
    {
      assert temps[0] in ffmpeg.fs.files;
      var r;
      r, listFile := ConcatVideos(temps, outputPath);
      ok := r == Some(true);
      added := ffmpeg.runs[|old(ffmpeg.runs)|..];
      ghost var joined := ffmpeg.fs.files;
      RemoveTemps(temps);
      assert Elements(temps) == made.Keys;
      if ok {
        RemoveAddedAfterWrite(base, made, outputPath, joined[outputPath]);
        assert joined == (base + made)[outputPath := joined[outputPath]];
      } else {
        RemoveAdded(base, made);
      }
    }
  }
}
