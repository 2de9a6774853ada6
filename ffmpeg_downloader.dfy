/**
 * installer/ffmpeg_downloader.py: fetches the essentials build of the encoder as a zip
 * archive and unpacks its programs and libraries, flattened, into `install_dir/bin`.
 */
module FFmpegInstallers {

  import opened Wrappers
  import opened Text
  import opened Files
  import opened Downloads

  const FFmpegUrl := "https://www.gyan.dev/ffmpeg/builds/ffmpeg-release-essentials.zip"

  /** The members `download_ffmpeg` unpacks: under some `bin/` directory, and programs or
      libraries by their suffix. */
  predicate Selected(name: string) {
    Contains(name, "/bin/") && (EndsWith(name, ".exe") || EndsWith(name, ".dll"))
  }

  /** `install_dir / "bin"` */
  function BinDir(installDir: string): string {
    Join(installDir, "bin")
  }

  /** Where a member lands: `install_dir / "bin" / Path(member).name`, whatever
      directories the archive nests it in. */
  function Target(installDir: string, name: string): (p: string)
    ensures StartsWith(p, BinDir(installDir) + "/") && '/' !in p[|BinDir(installDir)| + 1..]
    ensures p[|BinDir(installDir)| + 1..] == Basename(name)
  {
    var p := Join(BinDir(installDir), Basename(name));
    assert p[|BinDir(installDir)| + 1..] == Basename(name);
    p
  }

  /** The disk after the unpack loop has handled `members` in order: each selected member
      written to its target, a later one over an earlier one of the same name. */
  function Extracted(files: map<string, Bytes>, installDir: string, members: seq<Member>): map<string, Bytes> {
    if members == [] then files
    else
      var before := Extracted(files, installDir, members[..|members| - 1]);
      var m := members[|members| - 1];
      if Selected(m.name) then before[Target(installDir, m.name) := m.data] else before
  }

  /** The paths the selected members land on. */
  function Targets(installDir: string, members: seq<Member>): set<string> {
    if members == [] then {}
    else
      var m := members[|members| - 1];
      Targets(installDir, members[..|members| - 1]) + (if Selected(m.name) then {Target(installDir, m.name)} else {})
  }

  /** Member `m` is unpacked onto `p`. */
  predicate LandsOn(installDir: string, m: Member, p: string) {
    Selected(m.name) && Target(installDir, m.name) == p
  }

  /** A path is a target exactly when some selected member lands on it. */
  lemma {:induction false} TargetsAre(installDir: string, members: seq<Member>, p: string)
    ensures p in Targets(installDir, members) <==> exists k :: 0 <= k < |members| && LandsOn(installDir, members[k], p)
  {
    if members != [] {
      var init, m := members[..|members| - 1], members[|members| - 1];
      TargetsAre(installDir, init, p);
      assert p in Targets(installDir, members) <==> p in Targets(installDir, init) || LandsOn(installDir, m, p);
      ExistsSplit(members, init, x => LandsOn(installDir, x, p));
    }
  }

  /** Some element satisfies `P` exactly when one of the first ones or the last one does. */
  lemma ExistsSplit<T>(s: seq<T>, init: seq<T>, P: T -> bool)
    requires s != [] && init == s[..|s| - 1]
    ensures (exists k :: 0 <= k < |s| && P(s[k]))
        <==> (exists k :: 0 <= k < |init| && P(init[k])) || P(s[|s| - 1])
  {
    if exists k :: 0 <= k < |s| && P(s[k]) {
      var k :| 0 <= k < |s| && P(s[k]);
      if k < |init| {
        assert init[k] == s[k];
      }
    }
    if exists k :: 0 <= k < |init| && P(init[k]) {
      var k :| 0 <= k < |init| && P(init[k]);
      assert s[k] == init[k];
    }
  }

  /** Unpacking adds exactly the targets of the selected members. */
  lemma {:induction false} ExtractedKeys(files: map<string, Bytes>, installDir: string, members: seq<Member>)
    ensures Extracted(files, installDir, members).Keys == files.Keys + Targets(installDir, members)
  {
    if members != [] {
      ExtractedKeys(files, installDir, members[..|members| - 1]);
    }
  }

  /** A target holds the bytes of the last selected member that lands on it; a file no
      member lands on keeps its content. */
  lemma {:induction false} ExtractedLastWins(files: map<string, Bytes>, installDir: string, members: seq<Member>, k: nat)
    requires k < |members| && Selected(members[k].name)
    requires forall j :: k < j < |members| && Selected(members[j].name) ==>
      Target(installDir, members[j].name) != Target(installDir, members[k].name)
    ensures var out := Extracted(files, installDir, members); var t := Target(installDir, members[k].name);
      t in out && out[t] == members[k].data
  {
    var init, m := members[..|members| - 1], members[|members| - 1];
    var t := Target(installDir, members[k].name);
    if k < |init| {
      assert forall j :: 0 <= j < |init| ==> init[j] == members[j];
      ExtractedLastWins(files, installDir, init, k);
      ExtractedStep(files, installDir, members, t);
    } else {
      assert m == members[k];
    }
  }

  /** The last member changes no path other than its own target. */
  lemma ExtractedStep(files: map<string, Bytes>, installDir: string, members: seq<Member>, t: string)
    requires members != []
    requires !LandsOn(installDir, members[|members| - 1], t)
    ensures var before := Extracted(files, installDir, members[..|members| - 1]);
      var out := Extracted(files, installDir, members);
      (t in out <==> t in before) && (t in before ==> out[t] == before[t])
  {
  }

  lemma {:induction false} ExtractedOthers(files: map<string, Bytes>, installDir: string, members: seq<Member>, p: string)
    requires forall k :: 0 <= k < |members| && Selected(members[k].name) ==> Target(installDir, members[k].name) != p
    ensures p in Extracted(files, installDir, members) <==> p in files
    ensures p in files ==> Extracted(files, installDir, members)[p] == files[p]
  {
    if members != [] {
      var init := members[..|members| - 1];
      forall k | 0 <= k < |init| && Selected(init[k].name)
        ensures Target(installDir, init[k].name) != p
      {
        assert init[k] == members[k];
      }
      ExtractedOthers(files, installDir, init, p);
    }
  }

  class FFmpegDownloader {
    const installDir: string
    const fs: FileSystem
    /** `requests.get(url, stream=True)`; None where it raises. */
    const fetch: string -> Option<Stream>
    /** `zipfile.ZipFile(...).namelist()` with each member's bytes; None for `BadZipFile`. */
    const unzip: Bytes -> Option<seq<Member>>

    /** `FFmpegDownloader(install_dir)`: the given directory, else
        `%PROGRAMFILES%/InsightMovie/tools/ffmpeg`, where `programFiles` is the
        environment variable. */
    constructor (installDir: Option<string>, programFiles: Option<string>, fs: FileSystem,
                 fetch: string -> Option<Stream>, unzip: Bytes -> Option<seq<Member>>)
      ensures installDir.Some? && installDir.value != "" ==> this.installDir == installDir.value
      ensures !(installDir.Some? && installDir.value != "") ==>
        this.installDir == Join(Join(JoinTo(if programFiles.Some? then programFiles.value else "C:\\Program Files",
                                            "InsightMovie"), "tools"), "ffmpeg")
      ensures this.fs == fs && this.fetch == fetch && this.unzip == unzip
    {
      if installDir.Some? && installDir.value != "" {
        this.installDir := installDir.value;
      } else {
        var root := if programFiles.Some? then programFiles.value else "C:\\Program Files";
        this.installDir := Join(Join(JoinTo(root, "InsightMovie"), "tools"), "ffmpeg");
      }
      this.fs := fs;
      this.fetch := fetch;
      this.unzip := unzip;
    }

    /** `self.install_dir.parent / "ffmpeg_temp.zip"` */
    function TempZip(): string {
      Sibling(installDir, "ffmpeg_temp.zip")
    }

    /** `self.install_dir / "bin" / "ffmpeg.exe"` */
    function FFmpegExe(): string {
      Join(BinDir(installDir), "ffmpeg.exe")
    }

    /**
     * `download_ffmpeg()`. A failed request, an error status or an unreadable length
     * changes nothing; a damaged archive leaves the downloaded zip behind; otherwise the
     * selected members are unpacked, the zip is removed, and the result says whether
     * `bin/ffmpeg.exe` is now there. Every error is reported as False.
     */
    method DownloadFFmpeg() returns (ok: bool)
      modifies fs
      ensures var s := fetch(FFmpegUrl);
        if s.None? || RaisesForStatus(s.value.status) || TotalSize(s.value).None? then
          !ok && fs.files == old(fs.files)
        else
          var zipped := old(fs.files)[TempZip() := Flatten(s.value.chunks)];
          match unzip(Flatten(s.value.chunks))
          case None => !ok && fs.files == zipped
          case Some(members) =>
            fs.files == Extracted(zipped, installDir, members) - {TempZip()}
            && (ok <==> FFmpegExe() in fs.files)
    {
      var response := fetch(FFmpegUrl);
      if response.None? || RaisesForStatus(response.value.status) {
        return false;
      }
      var totalSize := TotalSize(response.value);
      if totalSize.None? {
        return false;
      }
      var tempZip := TempZip();
      var downloaded, _ := WriteStream(fs, tempZip, response.value.chunks);
      var members := unzip(fs.files[tempZip]);
      if members.None? {
        return false;
      }
      ExtractAll(members.value);
      ExtractedKeys(old(fs.files)[tempZip := Flatten(response.value.chunks)], installDir, members.value);
      assert tempZip in fs.files;
      fs.Delete(tempZip);
      ok := FFmpegExe() in fs.files;
    }

    /** The unpack loop over the archive's members. */
    method ExtractAll(members: seq<Member>)
      modifies fs
      ensures fs.files == Extracted(old(fs.files), installDir, members)
    {
      for k := 0 to |members|
        invariant fs.files == Extracted(old(fs.files), installDir, members[..k])
      {
        assert members[..k + 1][..k] == members[..k];
        var m := members[k];
        if Selected(m.name) {
          fs.Write(Target(installDir, m.name), m.data);
        }
      }
      assert members[..|members|] == members;
    }
  }
}
