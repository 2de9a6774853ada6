/**
 * What the two installer scripts share: a streamed HTTP download written chunk by chunk
 * to a file while a byte counter runs, and the members of a zip archive.
 */
module Downloads {

  import opened Wrappers
  import opened Text
  import opened Files

  /** A streamed `requests.get` response: the status code, the `content-length` header
      and the chunks `iter_content` yields, in order. */
  datatype Stream = Stream(status: int, contentLength: Option<string>, chunks: seq<Bytes>)

  /** One member of a zip archive, in archive order. */
  datatype Member = Member(name: string, data: Bytes)

  /** `response.raise_for_status()` raises for a 4xx or 5xx status. */
  predicate RaisesForStatus(status: int) {
    400 <= status < 600
  }

  /** `int(response.headers.get('content-length', 0))` of a response that passed
      `raise_for_status`; None where `int` raises. */
  function TotalSize(s: Stream): (r: Option<int>)
    ensures s.contentLength.None? ==> r == Some(0)
  {
    match s.contentLength
    case None => Some(0)
    case Some(h) => PyInt(h)
  }

  /** The bytes of the chunks, one after the other. */
  function Flatten(chunks: seq<Bytes>): Bytes {
    if chunks == [] then [] else Flatten(chunks[..|chunks| - 1]) + chunks[|chunks| - 1]
  }

  /** The counter after each non-empty chunk, as the progress callback receives it. */
  function Totals(chunks: seq<Bytes>): seq<nat> {
    if chunks == [] then []
    else Totals(chunks[..|chunks| - 1]) + (if chunks[|chunks| - 1] != [] then [|Flatten(chunks)|] else [])
  }

  /** The number of non-empty chunks. */
  function NonEmpty(chunks: seq<Bytes>): nat {
    if chunks == [] then 0 else NonEmpty(chunks[..|chunks| - 1]) + (if chunks[|chunks| - 1] != [] then 1 else 0)
  }

  /** The counter goes up with every report, never passes the bytes written, ends at their
      number, and is reported once per non-empty chunk. */
  lemma {:induction false} TotalsRise(chunks: seq<Bytes>)
    ensures |Totals(chunks)| == NonEmpty(chunks)
    ensures forall i, j :: 0 <= i < j < |Totals(chunks)| ==> Totals(chunks)[i] < Totals(chunks)[j]
    ensures forall i :: 0 <= i < |Totals(chunks)| ==> 0 < Totals(chunks)[i] <= |Flatten(chunks)|
    ensures |Totals(chunks)| > 0 ==> Totals(chunks)[|Totals(chunks)| - 1] == |Flatten(chunks)|
    ensures |Totals(chunks)| == 0 ==> |Flatten(chunks)| == 0
  {
    if chunks != [] {
      var init, c := chunks[..|chunks| - 1], chunks[|chunks| - 1];
      TotalsRise(init);
      var t, n := Totals(init), |Flatten(init)|;
      assert |Flatten(chunks)| == n + |c|;
      if c != [] {
        var r := Totals(chunks);
        assert r == t + [n + |c|];
        forall i, j | 0 <= i < j < |r| ensures r[i] < r[j] {
          if j < |t| { assert r[i] == t[i] && r[j] == t[j]; } else { assert r[i] == t[i]; }
        }
        forall i | 0 <= i < |r| ensures 0 < r[i] <= n + |c| {
          if i < |t| { assert r[i] == t[i]; }
        }
      }
    }
  }

  /**
   * The write loop of both installers: `open(dest, 'wb')` and, for each non-empty chunk,
   * `f.write(chunk)` and `downloaded += len(chunk)`. The file ends up holding the whole
   * body; `downloaded` counts its bytes, and `reports` lists the counter after each chunk.
   */
  method WriteStream(fs: FileSystem, dest: string, chunks: seq<Bytes>) returns (downloaded: nat, reports: seq<nat>)
    modifies fs
    ensures fs.files == old(fs.files)[dest := Flatten(chunks)]
    ensures downloaded == |Flatten(chunks)|
    ensures reports == Totals(chunks)
  {
    fs.Write(dest, []);
    downloaded, reports := 0, [];
    for k := 0 to |chunks|
      invariant fs.files == old(fs.files)[dest := Flatten(chunks[..k])]
      invariant downloaded == |Flatten(chunks[..k])|
      invariant reports == Totals(chunks[..k])
    {
      assert chunks[..k + 1][..k] == chunks[..k];
      assert Flatten(chunks[..k + 1]) == Flatten(chunks[..k]) + chunks[k];
      if chunks[k] != [] {
        fs.Write(dest, fs.files[dest] + chunks[k]);
        downloaded := downloaded + |chunks[k]|;
        reports := reports + [downloaded];
      } else {
        assert Flatten(chunks[..k]) + chunks[k] == Flatten(chunks[..k]);
      }
    }
    assert chunks[..|chunks|] == chunks;
  }
}
