/**
 * src/insightmovie/voicevox/audio_cache.py: synthesised narration kept on disk under a
 * name derived from the text and the speaker, so that a scene whose narration did not
 * change is not synthesised again.
 */
module AudioCaches {

  import opened Wrappers
  import opened Text
  import opened Files

  /** The string hashed for a cache entry, `f"{text}_{speaker_id}"`. */
  function CacheContent(text: string, speakerId: int): string {
    text + "_" + IntToString(speakerId)
  }

  /** Two different (text, speaker) pairs never hash the same string: the speaker id has
      no underscore, so the last underscore separates the two parts. */
  lemma CacheContentInjective(text: string, speakerId: int, text': string, speakerId': int)
    requires CacheContent(text, speakerId) == CacheContent(text', speakerId')
    ensures text == text' && speakerId == speakerId'
  {
    JoinAtLastInjective(text, IntToString(speakerId), text', IntToString(speakerId'), '_');
    IntToStringInjective(speakerId, speakerId');
  }

  /** `frames / float(rate)` from a WAV header, None where `wave` raises or the rate is 0. */
  function DurationFromHeader(header: Option<(nat, nat)>): (d: Option<real>)
    ensures d.Some? <==> header.Some? && header.value.1 > 0
    ensures d.Some? ==> d.value >= 0.0
    ensures d.Some? ==> d.value * header.value.1 as real == header.value.0 as real
  {
    match header
    case None => None
    case Some((frames, rate)) => if rate == 0 then None else Some(frames as real / rate as real)
  }

  /** A name `glob("*.wav")` lists in `dir`: a direct child whose name ends in ".wav". */
  predicate IsWavIn(dir: string, path: string) {
    StartsWith(path, dir + "/") && EndsWith(path, ".wav") && '/' !in path[|dir| + 1..]
  }

  function WavFilesIn(files: map<string, Bytes>, dir: string): (r: set<string>)
    ensures forall p :: p in r <==> p in files && IsWavIn(dir, p)
  {
    set p | p in files && IsWavIn(dir, p)
  }

  class AudioCache {
    const cacheDir: string
    const fs: FileSystem
    /** `hashlib.md5(data).hexdigest()` */
    const digest: Bytes -> string
    /** The frame count and frame rate `wave.open` reads from WAV bytes, or None where it raises. */
    const wavHeader: Bytes -> Option<(nat, nat)>

    /** `AudioCache(cache_dir)`: the given directory, or `insightmovie_cache/audio` in the
        temp directory when none (or an empty one) is given. */
    constructor (cacheDir: Option<string>, fs: FileSystem, digest: Bytes -> string,
                 wavHeader: Bytes -> Option<(nat, nat)>)
      ensures cacheDir.Some? && cacheDir.value != "" ==> this.cacheDir == cacheDir.value
      ensures !(cacheDir.Some? && cacheDir.value != "") ==>
        this.cacheDir == Join(Join(fs.tempDir, "insightmovie_cache"), "audio")
      ensures this.fs == fs && this.digest == digest && this.wavHeader == wavHeader
    {
      if cacheDir.Some? && cacheDir.value != "" {
        this.cacheDir := cacheDir.value;
      } else {
        this.cacheDir := Join(Join(fs.tempDir, "insightmovie_cache"), "audio");
      }
      this.fs := fs;
      this.digest := digest;
      this.wavHeader := wavHeader;
    }

    /** `get_cache_key`: the digest of the UTF-8 bytes of the content string. */
    function CacheKey(text: string, speakerId: int): string {
      digest(Utf8(CacheContent(text, speakerId)))
    }

    /** `get_cache_path` */
    function CachePath(text: string, speakerId: int): (p: string)
      ensures StartsWith(p, cacheDir + "/") && EndsWith(p, ".wav")
      ensures '/' !in CacheKey(text, speakerId) ==> IsWavIn(cacheDir, p)
    {
      var p := Join(cacheDir, CacheKey(text, speakerId) + ".wav");
      assert p[|cacheDir| + 1..] == CacheKey(text, speakerId) + ".wav";
      p
    }

    /** `exists` */
    predicate Exists(text: string, speakerId: int)
      reads fs
    {
      CachePath(text, speakerId) in fs.files
    }

    /** `save`: writes the bytes under the entry's path, replacing an older entry. */
    method Save(text: string, speakerId: int, audio: Bytes) returns (path: string)
      modifies fs
      ensures path == CachePath(text, speakerId)
      ensures fs.files == old(fs.files)[path := audio]
    {
      path := CachePath(text, speakerId);
      fs.Write(path, audio);
    }

    /** `load`: the cached bytes, None when there is no entry. */
    function Load(text: string, speakerId: int): (r: Option<Bytes>)
      reads fs
      ensures r.Some? <==> Exists(text, speakerId)
      ensures r.Some? ==> r.value == fs.files[CachePath(text, speakerId)]
    {
      var p := CachePath(text, speakerId);
      if p in fs.files then Some(fs.files[p]) else None
    }

    /** `get_duration`: the length of the cached audio in seconds, None when there is no
        entry or the entry is not a readable WAV file. */
    function GetDuration(text: string, speakerId: int): (d: Option<real>)
      reads fs
      ensures d.Some? ==> Exists(text, speakerId)
      ensures Exists(text, speakerId) ==> d == DurationFromBytes(Load(text, speakerId).value)
    {
      var p := CachePath(text, speakerId);
      if p in fs.files then DurationFromHeader(wavHeader(fs.files[p])) else None
    }

    /** `get_audio_duration_from_bytes` */
    function DurationFromBytes(audio: Bytes): (d: Option<real>)
      ensures d.Some? <==> wavHeader(audio).Some? && wavHeader(audio).value.1 > 0
    {
      DurationFromHeader(wavHeader(audio))
    }

    /** `clear_cache`: deletes every `*.wav` file directly in the cache directory. */
    method ClearCache()
      modifies fs
      ensures fs.files == old(fs.files) - WavFilesIn(old(fs.files), cacheDir)
    {
      var doomed := WavFilesIn(fs.files, cacheDir);
      var rest := doomed;
      while rest != {}
        invariant rest <= doomed
        invariant fs.files == old(fs.files) - (doomed - rest)
        invariant rest <= fs.files.Keys
        decreases |rest|
      {
        var p :| p in rest;
        fs.Delete(p);
        rest := rest - {p};
      }
    }
  }

  /** What is saved is what is loaded, and its duration is that of the saved bytes. */
  lemma SaveThenLoad(c: AudioCache, files: map<string, Bytes>, text: string, speakerId: int, audio: Bytes)
    requires c.fs.files == files[c.CachePath(text, speakerId) := audio]
    ensures c.Exists(text, speakerId)
    ensures c.Load(text, speakerId) == Some(audio)
    ensures c.GetDuration(text, speakerId) == c.DurationFromBytes(audio)
  {
  }

  /** Saving one entry leaves every other entry as it was: entries of different
      (text, speaker) pairs are different files unless their digests collide. */
  lemma SaveKeepsOthers(c: AudioCache, files: map<string, Bytes>, text: string, speakerId: int,
                        audio: Bytes, text': string, speakerId': int)
    requires c.fs.files == files[c.CachePath(text, speakerId) := audio]
    requires c.CacheKey(text, speakerId) != c.CacheKey(text', speakerId')
    ensures var p := c.CachePath(text', speakerId');
      (p in c.fs.files <==> p in files) && (p in files ==> c.fs.files[p] == files[p])
  {
    var k := c.CacheKey(text, speakerId);
    var k' := c.CacheKey(text', speakerId');
    var p := c.CachePath(text, speakerId);
    var p' := c.CachePath(text', speakerId');
    var n := |c.cacheDir| + 1;
    assert p[n..|p| - 4] == k;
    assert p'[n..|p'| - 4] == k';
  }

  /** What `hexdigest()` returns: lower-case hexadecimal digits only. */
  predicate IsHexDigest(s: string) {
    forall i :: 0 <= i < |s| ==> s[i] in "0123456789abcdef"
  }

  /** A digest that is a hex digest, as md5's is, names a file directly in the cache
      directory: every cache path is a `*.wav` entry of it. */
  lemma HexKeyIsFileName(c: AudioCache, text: string, speakerId: int)
    requires forall data :: IsHexDigest(c.digest(data))
    ensures '/' !in c.CacheKey(text, speakerId)
    ensures IsWavIn(c.cacheDir, c.CachePath(text, speakerId))
  {
    var k := c.CacheKey(text, speakerId);
    assert IsHexDigest(k);
  }

  /** After `clear_cache` no entry whose digest is a file name is left, and every other
      file is untouched. */
  lemma ClearedCacheIsEmpty(c: AudioCache, files: map<string, Bytes>, text: string, speakerId: int)
    requires c.fs.files == files - WavFilesIn(files, c.cacheDir)
    requires '/' !in c.CacheKey(text, speakerId)
    ensures !c.Exists(text, speakerId) && c.Load(text, speakerId).None?
    ensures forall p :: p in files && !IsWavIn(c.cacheDir, p) ==> p in c.fs.files && c.fs.files[p] == files[p]
  {
  }
}
