/**
 * src/insightmovie/video/ffmpeg_wrapper.py: locating the encoder, running it, and reading
 * its version line and the `Duration:` of a media file from its output.
 */
module Encoders {

  import opened Wrappers
  import opened Text
  import opened Files

  /** What running a command line gives: an exception (not found, time-out), or an exit
      code with the captured output streams and the bytes written to the output file. */
  datatype Outcome =
    | Raised
    | Exited(code: int, stdout: string, stderr: string, written: Bytes)

  /** A run `run_command` reports as successful: the process exited with code 0. */
  predicate Succeeds(o: Outcome) {
    o.Exited? && o.code == 0
  }

  /** The bytes a run left in its output file; nothing for a run that raised. */
  function Written(o: Outcome): Bytes {
    if o.Exited? then o.written else []
  }

  /** What running a command line does, given the files it can read. */
  type Exec = (seq<string>, map<string, Bytes>) -> Outcome

  /** One `run_command` call: the command line and whether it succeeded. */
  datatype Run = Run(cmd: seq<string>, ok: bool)

  /** The places `find_ffmpeg` looks after PATH, in order. */
  function CommonPaths(home: string): (r: seq<string>)
    ensures |r| == 3
  {
    ["C:\\ffmpeg\\bin\\ffmpeg.exe", "C:\\Program Files\\ffmpeg\\bin\\ffmpeg.exe",
     Join(Join(Join(home, "ffmpeg"), "bin"), "ffmpeg.exe")]
  }

  /** `find_ffmpeg()`, where `which` is `shutil.which("ffmpeg")` and `home` is `Path.home()`. */
  method FindFFmpeg(which: Option<string>, home: string, fs: FileSystem) returns (r: Option<string>)
    ensures which.Some? && which.value != "" ==> r == which
    ensures !(which.Some? && which.value != "") ==> r == FirstExisting(CommonPaths(home), fs.files)
  {
    if which.Some? && which.value != "" {
      return which;
    }
    var candidates := CommonPaths(home);
    for k := 0 to |candidates|
      invariant FirstExisting(candidates, fs.files) == FirstExisting(candidates[k..], fs.files)
    {
      if candidates[k] in fs.files {
        return Some(candidates[k]);
      }
      assert candidates[k..][1..] == candidates[k + 1..];
    }
    return None;
  }

  // ---------------------------------------------------------------- Duration: lines

  const DurationTag := "Duration: "

  predicate DigitAt(s: string, i: nat) {
    i < |s| && IsDigit(s[i])
  }

  /** `Duration: (\d{2}):(\d{2}):(\d{2}\.\d{2})` matches at position `i` of `s`. */
  predicate MatchAt(s: string, i: nat) {
    && i + 21 <= |s| && s[i..i + 10] == DurationTag
    && DigitAt(s, i + 10) && DigitAt(s, i + 11) && s[i + 12] == ':'
    && DigitAt(s, i + 13) && DigitAt(s, i + 14) && s[i + 15] == ':'
    && DigitAt(s, i + 16) && DigitAt(s, i + 17) && s[i + 18] == '.'
    && DigitAt(s, i + 19) && DigitAt(s, i + 20)
  }

  function TwoDigitValue(s: string, i: nat): nat
    requires DigitAt(s, i) && DigitAt(s, i + 1)
  {
    DigitValue(s[i]) * 10 + DigitValue(s[i + 1])
  }

  /** `int(hours) * 3600 + int(minutes) * 60 + float(seconds)` of the match at `i`. */
  function MatchValue(s: string, i: nat): real
    requires MatchAt(s, i)
  {
    (TwoDigitValue(s, i + 10) * 3600 + TwoDigitValue(s, i + 13) * 60) as real
    + TwoDigitValue(s, i + 16) as real + TwoDigitValue(s, i + 19) as real / 100.0
  }

  /** The leftmost match at or after `from`, as `re.search` finds it. */
  function FirstMatch(s: string, from: nat): (r: Option<nat>)
    ensures r.Some? ==> from <= r.value && MatchAt(s, r.value)
    ensures r.Some? ==> forall j :: from <= j < r.value ==> !MatchAt(s, j)
    ensures r.None? ==> forall j :: from <= j ==> !MatchAt(s, j)
    decreases |s| - from
  {
    if from + 21 > |s| then None
    else if MatchAt(s, from) then Some(from)
    else FirstMatch(s, from + 1)
  }

  /** The duration `get_video_info` reads from the encoder's error stream. */
  function ParseDuration(stderr: string): (d: Option<real>)
    ensures d.Some? <==> exists i :: MatchAt(stderr, i)
    ensures d.Some? ==> d.value >= 0.0 && d.value < 362440.0
  {
    match FirstMatch(stderr, 0)
    case None => None
    case Some(i) => Some(MatchValue(stderr, i))
  }

  /** Two decimal digits, with a leading zero. */
  function TwoDigits(n: nat): (r: string)
    requires n < 100
    ensures |r| == 2 && IsDigit(r[0]) && IsDigit(r[1])
  {
    [DigitChar(n / 10), DigitChar(n % 10)]
  }

  /** The header the encoder prints, `Duration: HH:MM:SS.cc`. */
  function DurationField(h: nat, m: nat, sec: nat, cs: nat): (r: string)
    requires h < 100 && m < 100 && sec < 100 && cs < 100
    ensures |r| == 21
  {
    DurationTag + TwoDigits(h) + ":" + TwoDigits(m) + ":" + TwoDigits(sec) + "." + TwoDigits(cs)
  }

  lemma TwoDigitsValue(n: nat, s: string, i: nat)
    requires n < 100 && i + 2 <= |s| && s[i..i + 2] == TwoDigits(n)
    ensures DigitAt(s, i) && DigitAt(s, i + 1) && TwoDigitValue(s, i) == n
  {
    assert s[i] == TwoDigits(n)[0] && s[i + 1] == TwoDigits(n)[1];
  }

  /** A printed `Duration:` header at the start of the stream is read back as its value. */
  lemma ParseDurationField(h: nat, m: nat, sec: nat, cs: nat, rest: string)
    requires h < 100 && m < 100 && sec < 100 && cs < 100
    ensures ParseDuration(DurationField(h, m, sec, cs) + rest)
            == Some((h * 3600 + m * 60) as real + sec as real + cs as real / 100.0)
  {
    var s := DurationField(h, m, sec, cs) + rest;
    assert s[..21] == DurationField(h, m, sec, cs);
    assert s[0..10] == DurationTag;
    TwoDigitsValue(h, s, 10);
    TwoDigitsValue(m, s, 13);
    TwoDigitsValue(sec, s, 16);
    TwoDigitsValue(cs, s, 19);
    assert MatchAt(s, 0);
  }

  // ---------------------------------------------------------------- the wrapper

  class FFmpegWrapper {
    const path: string
    const fs: FileSystem
    const exec: Exec
    /** Every `run_command` so far, in order. */
    var runs: seq<Run>

    /** The object once `ffmpeg_path or find_ffmpeg()` has named a path. */
    constructor (path: string, fs: FileSystem, exec: (seq<string>, map<string, Bytes>) -> Outcome)
      requires path != ""
      ensures this.path == path && this.fs == fs && this.exec == exec && runs == []
    {
      this.path := path;
      this.fs := fs;
      this.exec := exec;
      runs := [];
    }

    /** `FFmpegWrapper(ffmpeg_path)`: the given path, else the one discovery finds; an error
        (`FFmpegNotFoundError`) when neither gives one. */
    static method Open(ffmpegPath: Option<string>, which: Option<string>, home: string, fs: FileSystem,
                       exec: (seq<string>, map<string, Bytes>) -> Outcome)
      returns (r: Result<FFmpegWrapper>)
      ensures ffmpegPath.Some? && ffmpegPath.value != "" ==> r.Ok? && r.value.path == ffmpegPath.value
      ensures !(ffmpegPath.Some? && ffmpegPath.value != "") ==>
        match (if which.Some? && which.value != "" then which else FirstExisting(CommonPaths(home), fs.files))
        case None => r.Err?
        case Some(p) => p != "" ==> r.Ok? && r.value.path == p
      ensures r.Ok? ==> fresh(r.value) && r.value.fs == fs && r.value.exec == exec && r.value.runs == []
    {
      var p: Option<string>;
      if ffmpegPath.Some? && ffmpegPath.value != "" {
        p := ffmpegPath;
      } else {
        p := FindFFmpeg(which, home, fs);
      }
      if p.None? || p.value == "" {
        return Err("ffmpegが見つかりません。インストールまたはパスを指定してください。");
      }
      var w := new FFmpegWrapper(p.value, fs, exec);
      return Ok(w);
    }

    /** `check_available`: `-version` exits with 0. */
    predicate CheckAvailable()
      reads fs
    {
      var o := exec([path, "-version"], fs.files);
      o.Exited? && o.code == 0
    }

    /** `get_version`: the first line of the `-version` output, when it exits with 0: a
        prefix of the output without a line break, ending where the output ends or at
        its first line break. */
    function GetVersion(): (v: Option<string>)
      reads fs
      ensures v.Some? <==> CheckAvailable()
      ensures v.Some? ==> var out := exec([path, "-version"], fs.files).stdout;
        && '\n' !in v.value && StartsWith(out, v.value)
        && (|v.value| == |out| || out[|v.value|] == '\n')
    {
      var o := exec([path, "-version"], fs.files);
      SplitFirst(if o.Exited? then o.stdout else "", '\n');
      if o.Exited? && o.code == 0 then Some(Split(o.stdout, '\n')[0]) else None
    }

    /** `get_video_info`: the duration in the error stream of `-i path`, whatever the exit code. */
    function GetVideoInfo(videoPath: string): (d: Option<real>)
      reads fs
      ensures var o := exec([path, "-i", videoPath, "-hide_banner"], fs.files);
        d.Some? <==> o.Exited? && exists i :: MatchAt(o.stderr, i)
    {
      var o := exec([path, "-i", videoPath, "-hide_banner"], fs.files);
      if o.Exited? then ParseDuration(o.stderr) else None
    }

    /** `run_command(args)`: runs `[ffmpeg_path] + args`; true exactly when the exit code is 0,
        in which case the last argument, the output, holds what the encoder wrote. Failures
        are reported as false, never raised. */
    method RunCommand(args: seq<string>) returns (ok: bool)
      modifies this, fs
      ensures var o := exec([path] + args, old(fs.files));
        ok == (o.Exited? && o.code == 0)
        && fs.files == (if ok && |args| > 0 then old(fs.files)[args[|args| - 1] := o.written] else old(fs.files))
      ensures runs == old(runs) + [Run([path] + args, ok)]
    {
      var cmd := [path] + args;
      var o := exec(cmd, fs.files);
      ok := o.Exited? && o.code == 0;
      if ok && |args| > 0 {
        fs.Write(args[|args| - 1], o.written);
      }
      runs := runs + [Run(cmd, ok)];
    }
  }
}
