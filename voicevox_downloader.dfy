/**
 * installer/voicevox_downloader.py: finds the CPU build of the speech engine among the
 * assets of its latest release, downloads that zip archive into the install directory,
 * unpacks it there, and checks that the engine's `run.exe` is now present.
 */
module VoicevoxInstallers {

  import opened Wrappers
  import opened Text
  import opened Files
  import opened Downloads
  import opened Json

  const ReleaseApi := "https://api.github.com/repos/VOICEVOX/voicevox_engine/releases/latest"
  const AssetPattern := "windows-cpu"
  const UrlKey := "browser_download_url"

  // ---------------------------------------------------------------- choosing the asset

  /** The asset test: the lower-cased name mentions the CPU build, and the name as it is
      ends with `.zip`. */
  predicate WantedName(name: string) {
    Contains(Lower(name), AssetPattern) && EndsWith(name, ".zip")
  }

  /** `asset.get("name", "")` as a string; None where the test raises on it (an asset that
      is not an object, a name that is not a string). */
  function AssetName(asset: Value): Option<string> {
    if asset.Dict? then AsString(Get(asset.entries, "name", Str(""))) else None
  }

  /** What the search loop raises on an asset it cannot read. */
  const AttributeError := "AttributeError"

  /**
   * The loop of `find_download_url` over a list of assets: the download URL of the first
   * wanted asset (Null where that asset has none), Null when no asset is wanted. Assets
   * after the wanted one are never read; an unreadable asset before it raises.
   */
  function SearchAssets(assets: seq<Value>): (r: Result<Value>)
    decreases |assets|
  {
    if assets == [] then Ok(Null)
    else match AssetName(assets[0])
      case None => Err(AttributeError)
      case Some(name) =>
        if WantedName(name) then Ok(Get(assets[0].entries, UrlKey, Null))
        else SearchAssets(assets[1..])
  }

  /** `find_download_url(release_info)`: the search over `release_info.get("assets", [])`.
      An empty object or string iterates to nothing; any other non-list raises. */
  function FindDownloadUrl(release: Object): (r: Result<Value>)
    ensures "assets" !in release ==> r == Ok(Null)
    ensures "assets" in release && release["assets"].List? ==> r == SearchAssets(release["assets"].items)
  {
    match Get(release, "assets", List([]))
    case List(items) => SearchAssets(items)
    case Dict(entries) => if entries == map[] then Ok(Null) else Err(AttributeError)
    case Str(s) => if s == "" then Ok(Null) else Err(AttributeError)
    case _ => Err(AttributeError)
  }

  /** The search returns the URL of the first wanted asset, whatever follows it. */
  lemma {:induction false} SearchFindsFirst(assets: seq<Value>, k: nat)
    requires k < |assets| && AssetName(assets[k]).Some? && WantedName(AssetName(assets[k]).value)
    requires forall j :: 0 <= j < k ==> AssetName(assets[j]).Some? && !WantedName(AssetName(assets[j]).value)
    ensures SearchAssets(assets) == Ok(Get(assets[k].entries, UrlKey, Null))
  {
    if k > 0 {
      var rest := assets[1..];
      forall j | 0 <= j < k - 1
        ensures AssetName(rest[j]).Some? && !WantedName(AssetName(rest[j]).value)
      {
        assert rest[j] == assets[j + 1];
      }
      assert rest[k - 1] == assets[k];
      SearchFindsFirst(rest, k - 1);
    }
  }

  /** When every asset is readable and none is wanted, there is no URL. */
  lemma {:induction false} SearchFindsNone(assets: seq<Value>)
    requires forall j :: 0 <= j < |assets| ==> AssetName(assets[j]).Some? && !WantedName(AssetName(assets[j]).value)
    ensures SearchAssets(assets) == Ok(Null)
  {
    if assets != [] {
      var rest := assets[1..];
      forall j | 0 <= j < |rest|
        ensures AssetName(rest[j]).Some? && !WantedName(AssetName(rest[j]).value)
      {
        assert rest[j] == assets[j + 1];
      }
      SearchFindsNone(rest);
    }
  }

  /** A URL that is not Null belongs to a wanted asset. */
  lemma {:induction false} SearchFoundIsWanted(assets: seq<Value>)
    requires SearchAssets(assets).Ok? && SearchAssets(assets).value != Null
    ensures exists k :: 0 <= k < |assets| && AssetName(assets[k]).Some? && WantedName(AssetName(assets[k]).value)
                        && SearchAssets(assets).value == Get(assets[k].entries, UrlKey, Null)
  {
    if !WantedName(AssetName(assets[0]).value) {
      var rest := assets[1..];
      SearchFoundIsWanted(rest);
      var k :| 0 <= k < |rest| && AssetName(rest[k]).Some? && WantedName(AssetName(rest[k]).value)
               && SearchAssets(rest).value == Get(rest[k].entries, UrlKey, Null);
      assert rest[k] == assets[k + 1];
    }
  }

  // ---------------------------------------------------------------- unpacking

  /** A directory entry of an archive, which `extractall` turns into a directory. */
  predicate IsDirectoryEntry(name: string) {
    EndsWith(name, "/")
  }

  /** The disk after `extractall(install_dir)` has written `members` in order, each under
      its own name below the install directory. */
  function Unpacked(files: map<string, Bytes>, installDir: string, members: seq<Member>): map<string, Bytes> {
    if members == [] then files
    else
      var before := Unpacked(files, installDir, members[..|members| - 1]);
      var m := members[|members| - 1];
      if IsDirectoryEntry(m.name) then before else before[Join(installDir, m.name) := m.data]
  }

  /** Unpacking only adds files. */
  lemma {:induction false} UnpackedGrows(files: map<string, Bytes>, installDir: string, members: seq<Member>)
    ensures files.Keys <= Unpacked(files, installDir, members).Keys
  {
    if members != [] {
      UnpackedGrows(files, installDir, members[..|members| - 1]);
    }
  }

  /** Every file member of the archive ends up on the disk. */
  lemma {:induction false} UnpackedHolds(files: map<string, Bytes>, installDir: string, members: seq<Member>, k: nat)
    requires k < |members| && !IsDirectoryEntry(members[k].name)
    ensures Join(installDir, members[k].name) in Unpacked(files, installDir, members)
  {
    var init := members[..|members| - 1];
    if k < |init| {
      assert init[k] == members[k];
      UnpackedHolds(files, installDir, init, k);
    }
  }

  /** `rglob("run.exe")` finds a file: some file below the install directory is named
      `run.exe`. */
  predicate HasRunExe(files: map<string, Bytes>, installDir: string) {
    exists p :: p in files && StartsWith(p, installDir + "/") && EndsWith(p, "/run.exe")
  }

  /** A path ending in `/run.exe` is named `run.exe`. */
  lemma RunExeName(p: string)
    requires EndsWith(p, "/run.exe")
    ensures Basename(p) == "run.exe"
  {
    var q := p[..|p| - 8];
    assert p == q + ['/'] + "run.exe";
    LastIndexJoin(q, "run.exe", '/');
  }

  class VoicevoxDownloader {
    const installDir: string
    const fs: FileSystem
    /** `get_latest_release_info()`: the decoded release object, None where the request
        raises, the status is an error or the body is not an object. */
    const latestRelease: Option<Object>
    /** `requests.get(url, stream=True)`; None where it raises. */
    const fetch: string -> Option<Stream>
    /** The members of a zip archive, in archive order; None for a damaged archive. */
    const unzip: Bytes -> Option<seq<Member>>

    /** `VoicevoxDownloader(install_dir)`: the given directory, else
        `%LOCALAPPDATA%/ShortMakerStudio/voicevox`, where `localAppData` is the environment
        variable and a missing one reads as empty. */
    constructor (installDir: Option<string>, localAppData: Option<string>, fs: FileSystem,
                 latestRelease: Option<Object>, fetch: string -> Option<Stream>,
                 unzip: Bytes -> Option<seq<Member>>)
      ensures installDir.Some? && installDir.value != "" ==> this.installDir == installDir.value
      ensures !(installDir.Some? && installDir.value != "") ==>
        this.installDir == Join(JoinTo(localAppData.GetOr(""), "ShortMakerStudio"), "voicevox")
      ensures this.fs == fs && this.latestRelease == latestRelease
      ensures this.fetch == fetch && this.unzip == unzip
    {
      if installDir.Some? && installDir.value != "" {
        this.installDir := installDir.value;
      } else {
        this.installDir := Join(JoinTo(localAppData.GetOr(""), "ShortMakerStudio"), "voicevox");
      }
      this.fs := fs;
      this.latestRelease := latestRelease;
      this.fetch := fetch;
      this.unzip := unzip;
    }

    /** `self.install_dir / "voicevox_engine.zip"` */
    function ZipPath(): (p: string)
      ensures EndsWith(p, "/voicevox_engine.zip")
    {
      Join(installDir, "voicevox_engine.zip")
    }

    /**
     * `download(url, dest)`: a failed request, an error status or an unreadable length
     * gives False and writes nothing; otherwise the file holds the whole body, True, and
     * the callback saw the running byte count after each non-empty chunk, together with
     * the announced total.
     */
    method Download(url: string, dest: string) returns (ok: bool, reports: seq<(nat, int)>)
      modifies fs
      ensures var s := fetch(url);
        if s.None? || RaisesForStatus(s.value.status) || TotalSize(s.value).None? then
          !ok && reports == [] && fs.files == old(fs.files)
        else
          && ok && fs.files == old(fs.files)[dest := Flatten(s.value.chunks)]
          && |reports| == |Totals(s.value.chunks)|
          && forall k :: 0 <= k < |reports| ==> reports[k] == (Totals(s.value.chunks)[k], TotalSize(s.value).value)
    {
      var response := fetch(url);
      if response.None? || RaisesForStatus(response.value.status) {
        return false, [];
      }
      var totalSize := TotalSize(response.value);
      if totalSize.None? {
        return false, [];
      }
      var downloaded, totals := WriteStream(fs, dest, response.value.chunks);
      reports := seq(|totals|, k requires 0 <= k < |totals| => (totals[k], totalSize.value));
      ok := true;
    }

    /** `extract_zip(zip_path, install_dir)`: False, with nothing written, for a damaged
        archive; else every member unpacked. */
    method ExtractZip(zipPath: string) returns (ok: bool)
      requires zipPath in fs.files
      modifies fs
      ensures unzip(old(fs.files)[zipPath]).None? ==> !ok && fs.files == old(fs.files)
      ensures unzip(old(fs.files)[zipPath]).Some? ==>
        ok && fs.files == Unpacked(old(fs.files), installDir, unzip(old(fs.files)[zipPath]).value)
    {
      var members := unzip(fs.files[zipPath]);
      if members.None? {
        return false;
      }
      ExtractAll(members.value);
      ok := true;
    }

    /** The write loop of `extractall`. */
    method ExtractAll(members: seq<Member>)
      modifies fs
      ensures fs.files == Unpacked(old(fs.files), installDir, members)
    {
      for k := 0 to |members|
        invariant fs.files == Unpacked(old(fs.files), installDir, members[..k])
      {
        assert members[..k + 1][..k] == members[..k];
        if !IsDirectoryEntry(members[k].name) {
          fs.Write(Join(installDir, members[k].name), members[k].data);
        }
      }
      assert members[..|members|] == members;
    }

    /** `find_run_exe()`: some `run.exe` below the install directory, None when there is none. */
    method FindRunExe() returns (r: Option<string>)
      ensures r.Some? <==> HasRunExe(fs.files, installDir)
      ensures r.Some? ==> r.value in fs.files && Basename(r.value) == "run.exe"
    {
      if p :| p in fs.files && StartsWith(p, installDir + "/") && EndsWith(p, "/run.exe") {
        RunExeName(p);
        return Some(p);
      }
      return None;
    }

    /**
     * `install()`, step by step and fail-fast: without release information, without a
     * download URL, or when the download fails, nothing is written and the result is
     * False; a damaged archive leaves the zip behind and gives False; otherwise the
     * archive is unpacked into the install directory, the zip is deleted, and the result
     * says whether a `run.exe` is now below the install directory.
     */
    method Install() returns (ok: bool, url: Value)
      modifies fs
      ensures latestRelease.None? || FindDownloadUrl(latestRelease.value).Err? ==>
        !ok && fs.files == old(fs.files)
      ensures latestRelease.Some? && FindDownloadUrl(latestRelease.value).Ok? ==>
        url == FindDownloadUrl(latestRelease.value).value
      ensures latestRelease.Some? && FindDownloadUrl(latestRelease.value).Ok? ==>
        if !Truthy(url) || !url.Str? then !ok && fs.files == old(fs.files)
        else
          var s := fetch(url.s);
          if s.None? || RaisesForStatus(s.value.status) || TotalSize(s.value).None? then
            !ok && fs.files == old(fs.files)
          else
            var zipped := old(fs.files)[ZipPath() := Flatten(s.value.chunks)];
            match unzip(Flatten(s.value.chunks))
            case None => !ok && fs.files == zipped
            case Some(members) =>
              && fs.files == Unpacked(zipped, installDir, members) - {ZipPath()}
              && (ok <==> HasRunExe(fs.files, installDir))
    {
      url := Null;
      if latestRelease.None? {
        return false, url;
      }
      var found := FindDownloadUrl(latestRelease.value);
      if found.Err? {
        return false, url;
      }
      url := found.value;
      if !Truthy(url) {
        return false, url;
      }
      if !url.Str? {
        // `requests.get` raises for a URL that is not a string; `download` reports False.
        return false, url;
      }
      var zipPath := ZipPath();
      var downloaded, _ := Download(url.s, zipPath);
      if !downloaded {
        return false, url;
      }
      var extracted := ExtractZip(zipPath);
      if !extracted {
        return false, url;
      }
      UnpackedGrows(old(fs.files)[zipPath := Flatten(fetch(url.s).value.chunks)], installDir,
                    unzip(Flatten(fetch(url.s).value.chunks)).value);
      fs.Delete(zipPath);
      var runExe := FindRunExe();
      ok := runExe.Some?;
    }
  }

  /** An archive holding a file `run.exe` at any depth installs successfully: the engine
      is found once the zip is gone. */
  lemma ArchiveWithRunExe(d: VoicevoxDownloader, zipped: map<string, Bytes>, members: seq<Member>, k: nat)
    requires k < |members| && (members[k].name == "run.exe" || EndsWith(members[k].name, "/run.exe"))
    ensures HasRunExe(Unpacked(zipped, d.installDir, members) - {d.ZipPath()}, d.installDir)
  {
    var p := Join(d.installDir, members[k].name);
    JoinedRunExe(d.installDir, members[k].name);
    UnpackedHolds(zipped, d.installDir, members, k);
    assert p != d.ZipPath() by {
      assert p[|p| - 1] == 'e' && d.ZipPath()[|d.ZipPath()| - 1] == 'p';
    }
  }

  /** A member named `run.exe`, at the top or below some directory, lands on a path below
      the install directory that ends in `/run.exe`. */
  lemma JoinedRunExe(dir: string, name: string)
    requires name == "run.exe" || EndsWith(name, "/run.exe")
    ensures !IsDirectoryEntry(name)
    ensures StartsWith(Join(dir, name), dir + "/") && EndsWith(Join(dir, name), "/run.exe")
  {
    var p := Join(dir, name);
    assert name[|name| - 1] == 'e';
    if name == "run.exe" {
      assert p == dir + "/run.exe";
    } else {
      assert p[|p| - 8..] == name[|name| - 8..];
    }
  }
}
