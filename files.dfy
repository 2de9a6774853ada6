/**
 * The disk as the core sees it: a map from path to content, shared by the audio cache,
 * the scene renderer, the composer, the export and the installers. Paths are joined with
 * "/" (the `Path(dir) / name` operator).
 */
module Files {

  import opened Wrappers
  import opened Text

  newtype byte = x: int | 0 <= x < 256

  type Bytes = seq<byte>

  /** `Path(dir) / name` */
  function Join(dir: string, name: string): (p: string)
    ensures StartsWith(p, dir + "/") && EndsWith(p, name)
  {
    dir + "/" + name
  }

  /** `Path(dir) / name` where `dir` may be empty, which `Path` reads as the current
      directory, so that the name stands alone. */
  function JoinTo(dir: string, name: string): (p: string)
    ensures dir != "" ==> p == Join(dir, name)
    ensures dir == "" ==> p == name
  {
    if dir == "" then name else Join(dir, name)
  }

  /** `Path(p).name`: the part after the last "/". */
  function Basename(p: string): (r: string)
    ensures '/' !in r && EndsWith(p, r)
  {
    LastIndexAfter(p, '/');
    match LastIndex(p, '/')
    case None =>
      assert p[|p| - |p|..] == p;
      p
    case Some(i) =>
      assert p[i + 1..] == p[|p| - |p[i + 1..]|..];
      p[i + 1..]
  }

  /** After the last position of `c`, `c` does not occur. */
  lemma {:induction false} LastIndexAfter(s: string, c: char)
    ensures LastIndex(s, c).Some? ==> c !in s[LastIndex(s, c).value + 1..]
    ensures LastIndex(s, c).None? ==> c !in s
  {
    if s != [] && s[|s| - 1] != c {
      LastIndexAfter(s[..|s| - 1], c);
      var t := s[..|s| - 1];
      if LastIndex(t, c).Some? {
        assert s[LastIndex(t, c).value + 1..] == t[LastIndex(t, c).value + 1..] + [s[|s| - 1]];
      } else {
        assert s == t + [s[|s| - 1]];
      }
    }
  }

  /** `Path(p).parent / name`: the name next to `p`, in the current directory when `p`
      has no "/". */
  function Sibling(p: string, name: string): (r: string)
    ensures EndsWith(r, name)
  {
    match LastIndex(p, '/')
    case None => name
    case Some(i) => if i == 0 then "/" + name else Join(p[..i], name)
  }

  /** The UTF-8 encoding of one Unicode scalar value. */
  function Utf8Char(c: char): (r: Bytes)
    ensures 1 <= |r| <= 4
    ensures (c as int < 0x80) <==> |r| == 1
    ensures |r| == 1 ==> r[0] as int == c as int
  {
    var cp := c as int;
    if cp < 0x80 then [cp as byte]
    else if cp < 0x800 then [(0xC0 + cp / 64) as byte, (0x80 + cp % 64) as byte]
    else if cp < 0x10000 then
      [(0xE0 + cp / 4096) as byte, (0x80 + (cp / 64) % 64) as byte, (0x80 + cp % 64) as byte]
    else
      [(0xF0 + cp / 262144) as byte, (0x80 + (cp / 4096) % 64) as byte,
       (0x80 + (cp / 64) % 64) as byte, (0x80 + cp % 64) as byte]
  }

  /** `text.encode('utf-8')` */
  function Utf8(s: string): (r: Bytes)
    ensures |r| >= |s|
  {
    if s == [] then [] else Utf8Char(s[0]) + Utf8(s[1..])
  }

  /** Encoding text piece by piece gives the encoding of the whole. */
  lemma {:induction false} Utf8Append(a: string, b: string)
    ensures Utf8(a + b) == Utf8(a) + Utf8(b)
  {
    if a != [] {
      assert (a + b)[0] == a[0];
      assert (a + b)[1..] == a[1..] + b;
      Utf8Append(a[1..], b);
    } else {
      assert a + b == b;
    }
  }

  /** The first candidate that names an existing file, as the `for ... if Path(p).exists()`
      searches return it. */
  function FirstExisting(candidates: seq<string>, files: map<string, Bytes>): (r: Option<string>)
    ensures r.Some? ==> r.value in candidates && r.value in files
    ensures r.None? <==> forall k :: 0 <= k < |candidates| ==> candidates[k] !in files
    ensures r.Some? ==> exists k :: (0 <= k < |candidates| && candidates[k] == r.value
              && forall j :: 0 <= j < k ==> candidates[j] !in files)
  {
    if candidates == [] then None
    else if candidates[0] in files then Some(candidates[0])
    else
      var r := FirstExisting(candidates[1..], files);
      if r.Some? then
        var k :| 0 <= k < |candidates| - 1 && candidates[1..][k] == r.value
                 && forall j :: 0 <= j < k ==> candidates[1..][j] !in files;
        assert candidates[k + 1] == r.value;
        r
      else r
  }

  class FileSystem {
    /** Every regular file, by path. */
    var files: map<string, Bytes>
    /** `tempfile.gettempdir()` */
    const tempDir: string

    constructor (initial: map<string, Bytes>, tempDir: string)
      ensures files == initial && this.tempDir == tempDir
    {
      files := initial;
      this.tempDir := tempDir;
    }

    /** `open(path, 'wb').write(data)`: creates or replaces the file. */
    method Write(path: string, data: Bytes)
      modifies this
      ensures files == old(files)[path := data]
    {
      files := files[path := data];
    }

    /** `Path(path).unlink()`, which raises unless the file exists. */
    method Delete(path: string)
      requires path in files
      modifies this
      ensures files == old(files) - {path}
    {
      files := files - {path};
    }

    /** `if Path(path).exists(): Path(path).unlink()` */
    method DeleteIfExists(path: string)
      modifies this
      ensures files == old(files) - {path}
    {
      if path in files {
        files := files - {path};
      }
    }

    /** `shutil.copy(src, dst)` of an existing file. */
    method Copy(src: string, dst: string)
      requires src in files
      modifies this
      ensures files == old(files)[dst := old(files)[src]]
    {
      files := files[dst := files[src]];
    }

    /**
     * `tempfile.NamedTemporaryFile(suffix=suffix, delete=False)`: creates an empty file
     * under a name no existing file has. The name also differs from every path in
     * `avoid`, the other paths the caller names, which live outside the temp directory.
     */
    method NewTemp(suffix: string, avoid: set<string>) returns (path: string)
      modifies this
      ensures path !in old(files) && path !in avoid
      ensures EndsWith(path, suffix)
      ensures files == old(files)[path := []]
    {
      var taken := files.Keys + avoid;
      var rest := taken;
      var longest: nat := 0;
      while rest != {}
        invariant rest <= taken
        invariant forall k :: k in taken && k !in rest ==> |k| < longest
        decreases |rest|
      {
        var k :| k in rest;
        if |k| >= longest {
          longest := |k| + 1;
        }
        rest := rest - {k};
      }
      var name := "tmp" + seq(longest, _ => 'x') + suffix;
      path := Join(tempDir, name);
      assert |path| > longest;
      assert path !in taken;
      files := files[path := []];
    }
  }
}
