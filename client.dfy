/**
 * src/insightmovie/voicevox/client.py: the client of the VOICEVOX speech engine. It finds
 * the engine by probing local ports, reads its speaker list to choose a voice, and turns
 * text into WAV bytes. Every HTTP request is an oracle of the client object.
 */
module Clients {

  import opened Wrappers
  import opened Text
  import opened Files
  import Json

  /** An HTTP response as the client reads it: the status code and the body as text. */
  datatype Response = Response(status: int, text: string)

  /** `EngineInfo` */
  datatype EngineInfo = EngineInfo(host: string, port: int, version: string)
  {
    /** `base_url` */
    function BaseUrl(): (u: string)
      ensures StartsWith(u, "http://") && EndsWith(u, ":" + IntToString(port))
    {
      var u := "http://" + (host + ":" + IntToString(port));
      assert u[|u| - |":" + IntToString(port)|..] == ":" + IntToString(port);
      u
    }
  }

  /** Two engines with the same base URL are at the same host and port: the port's digits
      hold no colon, so the last colon of the URL separates the two. */
  lemma BaseUrlInjective(a: EngineInfo, b: EngineInfo)
    requires a.BaseUrl() == b.BaseUrl()
    ensures a.host == b.host && a.port == b.port
  {
    var pa, pb := IntToString(a.port), IntToString(b.port);
    var s, t := a.host + [':'] + pa, b.host + [':'] + pb;
    assert a.BaseUrl() == "http://" + s && b.BaseUrl() == "http://" + t;
    CancelPrefix("http://", s, t);
    JoinAtLastInjective(a.host, pa, b.host, pb, ':');
    IntToStringInjective(a.port, b.port);
  }

  /** One style of a speaker, as the `/speakers` list gives it; `id` is `style.get("id")`. */
  datatype Style = Style(id: Option<int>)

  /** One speaker: `speaker.get("name")` and `speaker.get("styles", [])`. */
  datatype Speaker = Speaker(name: Option<string>, styles: seq<Style>)

  const DefaultHost := "127.0.0.1"
  const DefaultPort := 50021
  const ScanFirst := 50020
  const ScanLast := 50100

  /** The ports of the scan loop from `port` on; with the default port checked first, the
      loop skips it. */
  function Scanned(fastCheckFirst: bool, port: int): (r: seq<int>)
    decreases ScanLast + 1 - port
  {
    if port > ScanLast then []
    else if fastCheckFirst && port == DefaultPort then Scanned(fastCheckFirst, port + 1)
    else [port] + Scanned(fastCheckFirst, port + 1)
  }

  /** One step of the scan loop. */
  lemma ScannedStep(fastCheckFirst: bool, port: int)
    requires port <= ScanLast
    ensures Scanned(fastCheckFirst, port) ==
      if fastCheckFirst && port == DefaultPort then Scanned(fastCheckFirst, port + 1)
      else [port] + Scanned(fastCheckFirst, port + 1)
  {
  }

  /** The order in which `discover_engine` probes the ports. */
  function ProbeOrder(fastCheckFirst: bool): (r: seq<int>)
  {
    (if fastCheckFirst then [DefaultPort] else []) + Scanned(fastCheckFirst, ScanFirst)
  }

  lemma {:induction false} ScannedMembers(fastCheckFirst: bool, port: int)
    ensures forall p :: p in Scanned(fastCheckFirst, port) <==>
      port <= p <= ScanLast && !(fastCheckFirst && p == DefaultPort)
    decreases ScanLast + 1 - port
  {
    if port <= ScanLast {
      ScannedMembers(fastCheckFirst, port + 1);
    }
  }

  lemma {:induction false} ScannedAscending(fastCheckFirst: bool, port: int)
    ensures forall i, j :: 0 <= i < j < |Scanned(fastCheckFirst, port)| ==>
      Scanned(fastCheckFirst, port)[i] < Scanned(fastCheckFirst, port)[j]
    decreases ScanLast + 1 - port
  {
    if port <= ScanLast {
      ScannedAscending(fastCheckFirst, port + 1);
      ScannedMembers(fastCheckFirst, port + 1);
      var s, t := Scanned(fastCheckFirst, port), Scanned(fastCheckFirst, port + 1);
      if !(fastCheckFirst && port == DefaultPort) {
        assert s == [port] + t;
        forall i, j | 0 <= i < j < |s|
          ensures s[i] < s[j]
        {
          if i == 0 {
            assert s[j] == t[j - 1] && t[j - 1] in t;
          } else {
            assert s[i] == t[i - 1] && s[j] == t[j - 1];
          }
        }
      }
    }
  }

  /** Both orders probe every port from 50020 to 50100 once and no other port; with the
      fast check, 50021 comes first, otherwise the ports go up one by one. */
  lemma ProbeOrderCovers(fastCheckFirst: bool)
    ensures forall p :: p in ProbeOrder(fastCheckFirst) <==> ScanFirst <= p <= ScanLast
    ensures forall i, j :: 0 <= i < j < |ProbeOrder(fastCheckFirst)| ==>
      ProbeOrder(fastCheckFirst)[i] != ProbeOrder(fastCheckFirst)[j]
    ensures fastCheckFirst ==> ProbeOrder(fastCheckFirst)[0] == DefaultPort
    ensures !fastCheckFirst ==> forall i, j :: 0 <= i < j < |ProbeOrder(fastCheckFirst)| ==>
      ProbeOrder(fastCheckFirst)[i] < ProbeOrder(fastCheckFirst)[j]
  {
    ScannedMembers(fastCheckFirst, ScanFirst);
    ScannedAscending(fastCheckFirst, ScanFirst);
    var s := Scanned(fastCheckFirst, ScanFirst);
    if fastCheckFirst {
      var o := ProbeOrder(fastCheckFirst);
      assert o == [DefaultPort] + s;
      forall i, j | 0 <= i < j < |o|
        ensures o[i] != o[j]
      {
        if i == 0 {
          assert o[j] == s[j - 1] && o[j] in s;
        } else {
          assert o[i] == s[i - 1] && o[j] == s[j - 1];
        }
      }
    }
  }

  /** The engine at the first port of `ports` where `check` finds one. */
  function FirstAnswer(ports: seq<int>, check: int -> Option<EngineInfo>): Option<EngineInfo> {
    if ports == [] then None
    else if check(ports[0]).Some? then check(ports[0])
    else FirstAnswer(ports[1..], check)
  }

  /** The engine found is the one at a port of `ports` that answers after every port
      before it did not. */
  lemma {:induction false} FirstAnswerFound(ports: seq<int>, check: int -> Option<EngineInfo>)
    requires FirstAnswer(ports, check).Some?
    ensures var r := FirstAnswer(ports, check);
      exists k :: 0 <= k < |ports| && check(ports[k]) == r && forall j :: 0 <= j < k ==> check(ports[j]).None?
  {
    var r := FirstAnswer(ports, check);
    if check(ports[0]).Some? {
      assert check(ports[0]) == r;
    } else {
      var rest := ports[1..];
      FirstAnswerFound(rest, check);
      var k :| 0 <= k < |rest| && check(rest[k]) == r && forall j :: 0 <= j < k ==> check(rest[j]).None?;
      assert ports[k + 1] == rest[k];
      forall j | 0 <= j < k + 1 ensures check(ports[j]).None? {
        if j > 0 { assert ports[j] == rest[j - 1]; }
      }
    }
  }

  /** No engine is found exactly when no port of `ports` answers. */
  lemma {:induction false} FirstAnswerNone(ports: seq<int>, check: int -> Option<EngineInfo>)
    ensures FirstAnswer(ports, check).None? <==> forall p :: p in ports ==> check(p).None?
  {
    if ports != [] {
      var rest := ports[1..];
      FirstAnswerNone(rest, check);
      assert forall p :: p in ports <==> p == ports[0] || p in rest;
    }
  }

  /** The engine the scan loop finds from `port` on: the first port that answers,
      skipping the one checked first. */
  function ScanAnswer(fastCheckFirst: bool, port: int, check: int -> Option<EngineInfo>): Option<EngineInfo>
    decreases ScanLast + 1 - port
  {
    if port > ScanLast then None
    else if fastCheckFirst && port == DefaultPort then ScanAnswer(fastCheckFirst, port + 1, check)
    else if check(port).Some? then check(port)
    else ScanAnswer(fastCheckFirst, port + 1, check)
  }

  /** The scan finds the first answering port of `Scanned`. */
  lemma {:induction false} ScanAnswerIs(fastCheckFirst: bool, port: int, check: int -> Option<EngineInfo>)
    ensures ScanAnswer(fastCheckFirst, port, check) == FirstAnswer(Scanned(fastCheckFirst, port), check)
    decreases ScanLast + 1 - port
  {
    if port <= ScanLast {
      ScanAnswerIs(fastCheckFirst, port + 1, check);
      ScannedStep(fastCheckFirst, port);
      var rest := Scanned(fastCheckFirst, port + 1);
      if !(fastCheckFirst && port == DefaultPort) {
        assert ([port] + rest)[0] == port && ([port] + rest)[1..] == rest;
      }
    }
  }

  /** With the fast check, the default port decides first; otherwise the scan alone. */
  lemma ProbeOrderStart(fastCheckFirst: bool, check: int -> Option<EngineInfo>)
    ensures FirstAnswer(ProbeOrder(fastCheckFirst), check) ==
      if fastCheckFirst && check(DefaultPort).Some? then check(DefaultPort)
      else ScanAnswer(fastCheckFirst, ScanFirst, check)
  {
    var rest := Scanned(fastCheckFirst, ScanFirst);
    ScanAnswerIs(fastCheckFirst, ScanFirst, check);
    if fastCheckFirst {
      assert ProbeOrder(fastCheckFirst) == [DefaultPort] + rest;
      assert ([DefaultPort] + rest)[1..] == rest;
    } else {
      assert ProbeOrder(fastCheckFirst) == rest;
    }
  }

  /** The first speaker with that exact name and at least one style. */
  predicate Usable(s: Speaker, name: string) {
    s.name == Some(name) && |s.styles| > 0
  }

  function FirstUsable(speakers: seq<Speaker>, name: string): (r: Option<nat>)
    ensures r.Some? ==> r.value < |speakers| && Usable(speakers[r.value], name)
    ensures r.Some? ==> forall j :: 0 <= j < r.value ==> !Usable(speakers[j], name)
    ensures r.None? ==> forall j :: 0 <= j < |speakers| ==> !Usable(speakers[j], name)
  {
    if speakers == [] then None
    else if Usable(speakers[0], name) then Some(0)
    else
      match FirstUsable(speakers[1..], name)
      case None => None
      case Some(k) => Some(k + 1)
  }

  /** The style id the name search returns: the first style of the first usable speaker
      (itself None when that style has no id). */
  function StyleNamed(speakers: seq<Speaker>, name: string): (r: Option<int>)
    ensures r.Some? ==> exists k :: 0 <= k < |speakers| && Usable(speakers[k], name) && speakers[k].styles[0].id == r
  {
    match FirstUsable(speakers, name)
    case None => None
    case Some(k) => speakers[k].styles[0].id
  }

  /** The preference order of `get_default_speaker`. */
  const PreferredSpeakers: seq<string> := ["青山龍星", "四国めたん", "ずんだもん", "春日部つむぎ"]

  /** The first preferred name some speaker answers to, with a style. */
  function FirstPreferred(speakers: seq<Speaker>, preferred: seq<string>): (r: Option<nat>)
    ensures r.Some? ==> r.value < |preferred| && FirstUsable(speakers, preferred[r.value]).Some?
    ensures r.Some? ==> forall j :: 0 <= j < r.value ==> FirstUsable(speakers, preferred[j]).None?
    ensures r.None? ==> forall j :: 0 <= j < |preferred| ==> FirstUsable(speakers, preferred[j]).None?
  {
    if preferred == [] then None
    else if FirstUsable(speakers, preferred[0]).Some? then Some(0)
    else
      match FirstPreferred(speakers, preferred[1..])
      case None => None
      case Some(k) => Some(k + 1)
  }

  /** What `get_default_speaker` picks from a speaker list: the first preferred speaker
      present, else the first speaker of the list when it has a style, else nothing. */
  function DefaultStyle(speakers: seq<Speaker>): (r: Option<int>)
  {
    match FirstPreferred(speakers, PreferredSpeakers)
    case Some(k) => speakers[FirstUsable(speakers, PreferredSpeakers[k]).value].styles[0].id
    case None => if |speakers| > 0 && |speakers[0].styles| > 0 then speakers[0].styles[0].id else None
  }

  /** The default is always the first style of some speaker of the list. */
  lemma DefaultIsSomeFirstStyle(speakers: seq<Speaker>)
    ensures DefaultStyle(speakers).Some? ==>
      exists k :: 0 <= k < |speakers| && |speakers[k].styles| > 0 && speakers[k].styles[0].id == DefaultStyle(speakers)
  {
    match FirstPreferred(speakers, PreferredSpeakers)
    case Some(k) =>
      var i := FirstUsable(speakers, PreferredSpeakers[k]).value;
      assert |speakers[i].styles| > 0;
    case None =>
  }

  /** A speaker named 青山龍星 with a style always wins. */
  lemma DefaultPrefersAoyama(speakers: seq<Speaker>)
    requires exists k :: 0 <= k < |speakers| && Usable(speakers[k], "青山龍星")
    ensures DefaultStyle(speakers) == StyleNamed(speakers, "青山龍星")
  {
    assert FirstUsable(speakers, PreferredSpeakers[0]).Some?;
  }

  /** Without any preferred speaker, the first speaker of the list is the fallback. */
  lemma DefaultFallsBack(speakers: seq<Speaker>)
    requires forall k, n :: 0 <= k < |speakers| && n in PreferredSpeakers ==> !Usable(speakers[k], n)
    ensures DefaultStyle(speakers) == if |speakers| > 0 && |speakers[0].styles| > 0 then speakers[0].styles[0].id else None
  {
    forall j | 0 <= j < |PreferredSpeakers|
      ensures FirstUsable(speakers, PreferredSpeakers[j]).None?
    {
      assert PreferredSpeakers[j] in PreferredSpeakers;
    }
  }

  const NotConnected := "エンジンに接続されていません"
  const SpeakersFailed := "話者情報の取得に失敗"
  const QueryFailed := "音声クエリの作成に失敗"
  const SynthesizeFailed := "音声合成に失敗"

  /** The `RuntimeError(f"{what}: {e}")` raised for a `RequestException` `e`. */
  function Failed(what: string, e: string): string {
    what + ": " + e
  }

  class VoiceVoxClient {
    var baseUrl: Option<string>
    var engineInfo: Option<EngineInfo>
    /** `requests.get(url)`; None where it raises. */
    const get: string -> Option<Response>
    /** The decoded list of `GET {base}/speakers`; where the request, its status check or
        the decoding raises a `RequestException`, Err with that exception's `str(e)`. */
    const speakersAt: string -> Result<seq<Speaker>>
    /** The query `POST {base}/audio_query` returns for a text and a speaker, or the
        `str(e)` of the `RequestException` it raises. */
    const audioQueryAt: (string, string, int) -> Result<Json.Object>
    /** The WAV bytes `POST {base}/synthesis` returns for a query and a speaker, or the
        `str(e)` of the `RequestException` it raises. */
    const synthesisAt: (string, Json.Object, int) -> Result<Bytes>

    /** `VoiceVoxClient(base_url)` */
    constructor (baseUrl: Option<string>, get: string -> Option<Response>,
                 speakersAt: string -> Result<seq<Speaker>>,
                 audioQueryAt: (string, string, int) -> Result<Json.Object>,
                 synthesisAt: (string, Json.Object, int) -> Result<Bytes>)
      ensures this.baseUrl == baseUrl && engineInfo == None
      ensures this.get == get && this.speakersAt == speakersAt
      ensures this.audioQueryAt == audioQueryAt && this.synthesisAt == synthesisAt
    {
      this.baseUrl := baseUrl;
      engineInfo := None;
      this.get := get;
      this.speakersAt := speakersAt;
      this.audioQueryAt := audioQueryAt;
      this.synthesisAt := synthesisAt;
    }

    /** `not self._base_url` is false. */
    predicate Connected()
      reads this
    {
      baseUrl.Some? && baseUrl.value != ""
    }

    /** `_check_engine(host, port)`: an engine answers `/version` with status 200; its
        version is the body without the surrounding double quotes. */
    function CheckEngine(host: string, port: int): Option<EngineInfo> {
      var o := get("http://" + host + ":" + IntToString(port) + "/version");
      if o.Some? && o.value.status == 200 then
        Some(EngineInfo(host, port, Trim(o.value.text, Some("\""))))
      else None
    }

    /** An engine answers exactly when `/version` answers with status 200, and it is the
        engine at the probed host and port. */
    lemma CheckEngineAnswers(host: string, port: int)
      ensures var o := get("http://" + host + ":" + IntToString(port) + "/version");
        var r := CheckEngine(host, port);
        && (r.Some? <==> o.Some? && o.value.status == 200)
        && (r.Some? ==> r.value.host == host && r.value.port == port)
    {
    }

    /** The version an engine reports is its `/version` body with the double quotes at
        either end removed: a slice of the body with only quotes before and after it, and
        no quote at either of its own ends. */
    lemma CheckEngineVersion(host: string, port: int)
      requires CheckEngine(host, port).Some?
      ensures var o := get("http://" + host + ":" + IntToString(port) + "/version");
        var text, v := o.value.text, CheckEngine(host, port).value.version;
        && (exists i, j :: && 0 <= i <= j <= |text| && v == text[i..j]
                           && (forall k :: 0 <= k < i ==> text[k] == '"')
                           && (forall k :: j <= k < |text| ==> text[k] == '"'))
        && (|v| > 0 ==> v[0] != '"' && v[|v| - 1] != '"')
    {
      var o := get("http://" + host + ":" + IntToString(port) + "/version");
      QuotesStripped(o.value.text);
    }

    /** The body with its double quotes stripped, stated without the request. */
    lemma QuotesStripped(text: string)
      ensures var v := Trim(text, Some("\""));
        && (exists i, j :: && 0 <= i <= j <= |text| && v == text[i..j]
                           && (forall k :: 0 <= k < i ==> text[k] == '"')
                           && (forall k :: j <= k < |text| ==> text[k] == '"'))
        && (|v| > 0 ==> v[0] != '"' && v[|v| - 1] != '"')
    {
      var i, j := TrimCharCuts(text, '"');
      assert Trim(text, Some("\"")) == text[i..j];
    }

    /** `_check_engine` on the local host, as a function of the port. */
    function Probe(): int -> Option<EngineInfo> {
      port => CheckEngine(DefaultHost, port)
    }

    /** `discover_engine(fast_check_first)`: the engine at the first answering port in
        probe order, remembered with its base URL. When none answers, nothing changes. */
    method DiscoverEngine(fastCheckFirst: bool) returns (r: Option<EngineInfo>)
      modifies this`baseUrl, this`engineInfo
      ensures r == FirstAnswer(ProbeOrder(fastCheckFirst), Probe())
      ensures r.Some? ==> engineInfo == r && baseUrl == Some(r.value.BaseUrl())
      ensures r.None? ==> engineInfo == old(engineInfo) && baseUrl == old(baseUrl)
    {
      ghost var probe := Probe();
      ProbeOrderStart(fastCheckFirst, probe);
      if fastCheckFirst {
        var info := CheckEngine(DefaultHost, DefaultPort);
        assert info == probe(DefaultPort);
        if info.Some? {
          engineInfo := info;
          baseUrl := Some(info.value.BaseUrl());
          return info;
        }
      }
      for port := ScanFirst to ScanLast + 1
        invariant ScanAnswer(fastCheckFirst, ScanFirst, probe) == ScanAnswer(fastCheckFirst, port, probe)
        invariant engineInfo == old(engineInfo) && baseUrl == old(baseUrl)
      {
        if port == DefaultPort && fastCheckFirst {
          continue;
        }
        var info := CheckEngine(DefaultHost, port);
        assert info == probe(port);
        if info.Some? {
          engineInfo := info;
          baseUrl := Some(info.value.BaseUrl());
          return info;
        }
      }
      return None;
    }

    /** `check_connection()`: False without a base URL, else whether `/version` answers 200. */
    predicate CheckConnection()
      reads this
      ensures CheckConnection() ==> Connected()
    {
      Connected() && var o := get(baseUrl.value + "/version"); o.Some? && o.value.status == 200
    }

    /** `get_speakers()`: raises without a base URL, or when the request fails. */
    function GetSpeakers(): (r: Result<seq<Speaker>>)
      reads this
      ensures !Connected() ==> r == Err(NotConnected)
      ensures Connected() ==> (r.Ok? <==> speakersAt(baseUrl.value).Ok?)
      ensures r.Ok? ==> Ok(r.value) == speakersAt(baseUrl.value)
      ensures Connected() && speakersAt(baseUrl.value).Err? ==>
                r == Err(Failed(SpeakersFailed, speakersAt(baseUrl.value).error))
    {
      if !Connected() then Err(NotConnected)
      else match speakersAt(baseUrl.value)
        case Err(e) => Err(Failed(SpeakersFailed, e))
        case Ok(s) => Ok(s)
    }

    /** `find_speaker_by_name(name)`: the first style of the first speaker with that name
        and a style; None when there is none or the list cannot be read. */
    method FindSpeakerByName(name: string) returns (r: Option<int>)
      ensures GetSpeakers().Err? ==> r == None
      ensures GetSpeakers().Ok? ==> r == StyleNamed(GetSpeakers().value, name)
    {
      var response := GetSpeakers();
      if response.Err? {
        return None;
      }
      var speakers := response.value;
      for k := 0 to |speakers|
        invariant forall j :: 0 <= j < k ==> !Usable(speakers[j], name)
      {
        if speakers[k].name == Some(name) {
          var styles := speakers[k].styles;
          if |styles| > 0 {
            assert FirstUsable(speakers, name) == Some(k) by { FirstUsableAt(speakers, name, k); }
            return styles[0].id;
          }
        }
      }
      return None;
    }

    /** `get_default_speaker()`: each preferred name in turn, then the first speaker. */
    method GetDefaultSpeaker() returns (r: Option<int>)
      ensures GetSpeakers().Err? ==> r == None
      ensures GetSpeakers().Ok? ==> r == DefaultStyle(GetSpeakers().value)
    {
      var response := GetSpeakers();
      if response.Err? {
        return None;
      }
      var speakers := response.value;
      for i := 0 to |PreferredSpeakers|
        invariant forall j :: 0 <= j < i ==> FirstUsable(speakers, PreferredSpeakers[j]).None?
      {
        var preferred := PreferredSpeakers[i];
        for k := 0 to |speakers|
          invariant forall j :: 0 <= j < k ==> !Usable(speakers[j], preferred)
        {
          if speakers[k].name == Some(preferred) {
            var styles := speakers[k].styles;
            if |styles| > 0 {
              FirstUsableAt(speakers, preferred, k);
              FirstPreferredAt(speakers, PreferredSpeakers, i);
              return styles[0].id;
            }
          }
        }
      }
      if |speakers| > 0 && |speakers[0].styles| > 0 {
        return speakers[0].styles[0].id;
      }
      return None;
    }

    /** `create_audio_query(text, speaker_id)`: raises without a base URL. */
    function CreateAudioQuery(text: string, speakerId: int): (r: Result<Json.Object>)
      reads this
      ensures !Connected() ==> r == Err(NotConnected)
      ensures Connected() ==> (r.Ok? <==> audioQueryAt(baseUrl.value, text, speakerId).Ok?)
      ensures r.Ok? ==> Ok(r.value) == audioQueryAt(baseUrl.value, text, speakerId)
      ensures Connected() && audioQueryAt(baseUrl.value, text, speakerId).Err? ==>
                r == Err(Failed(QueryFailed, audioQueryAt(baseUrl.value, text, speakerId).error))
    {
      if !Connected() then Err(NotConnected)
      else match audioQueryAt(baseUrl.value, text, speakerId)
        case Err(e) => Err(Failed(QueryFailed, e))
        case Ok(q) => Ok(q)
    }

    /** `synthesize(query, speaker_id)`: raises without a base URL. */
    function Synthesize(query: Json.Object, speakerId: int): (r: Result<Bytes>)
      reads this
      ensures !Connected() ==> r == Err(NotConnected)
      ensures Connected() ==> (r.Ok? <==> synthesisAt(baseUrl.value, query, speakerId).Ok?)
      ensures r.Ok? ==> Ok(r.value) == synthesisAt(baseUrl.value, query, speakerId)
      ensures Connected() && synthesisAt(baseUrl.value, query, speakerId).Err? ==>
                r == Err(Failed(SynthesizeFailed, synthesisAt(baseUrl.value, query, speakerId).error))
    {
      if !Connected() then Err(NotConnected)
      else match synthesisAt(baseUrl.value, query, speakerId)
        case Err(e) => Err(Failed(SynthesizeFailed, e))
        case Ok(b) => Ok(b)
    }

    /** `generate_audio(text, speaker_id)`: the query, then the synthesis of it. */
    function GenerateAudio(text: string, speakerId: int): (r: Result<Bytes>)
      reads this
      ensures !Connected() ==> r == Err(NotConnected)
      ensures r.Ok? ==> Connected() && (exists q :: audioQueryAt(baseUrl.value, text, speakerId) == Ok(q)
                                          && synthesisAt(baseUrl.value, q, speakerId) == Ok(r.value))
      ensures forall q, b ::
                (Connected() && audioQueryAt(baseUrl.value, text, speakerId) == Ok(q)
                 && synthesisAt(baseUrl.value, q, speakerId) == Ok(b)) ==> r == Ok(b)
      ensures Connected() && audioQueryAt(baseUrl.value, text, speakerId).Err? ==>
                r == Err(Failed(QueryFailed, audioQueryAt(baseUrl.value, text, speakerId).error))
      ensures forall q ::
                (Connected() && audioQueryAt(baseUrl.value, text, speakerId) == Ok(q)
                 && synthesisAt(baseUrl.value, q, speakerId).Err?) ==>
                r == Err(Failed(SynthesizeFailed, synthesisAt(baseUrl.value, q, speakerId).error))
    {
      match CreateAudioQuery(text, speakerId)
      case Err(e) => Err(e)
      case Ok(q) => Synthesize(q, speakerId)
    }
  }

  lemma FirstUsableAt(speakers: seq<Speaker>, name: string, k: nat)
    requires k < |speakers| && Usable(speakers[k], name)
    requires forall j :: 0 <= j < k ==> !Usable(speakers[j], name)
    ensures FirstUsable(speakers, name) == Some(k)
  {
  }

  lemma FirstPreferredAt(speakers: seq<Speaker>, preferred: seq<string>, i: nat)
    requires i < |preferred| && FirstUsable(speakers, preferred[i]).Some?
    requires forall j :: 0 <= j < i ==> FirstUsable(speakers, preferred[j]).None?
    ensures FirstPreferred(speakers, preferred) == Some(i)
  {
  }
}
