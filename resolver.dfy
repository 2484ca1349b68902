/**
 * `IPLookup.get_ip_info` (app.py:16-41): query ARIN's RDAP service first
 * (the IP path of RFC 9082, section 3.1.1); only when it answers with a
 * redirect or a not-found status (302 or 404; RFC 7480, sections 5.2-5.3)
 * try APNIC, RIPE, LACNIC and AFRINIC in that order, stopping at the first
 * 200. The HTTP session is the function `get`: for each URL it gives either a
 * response or the transport exception `requests` would raise.
 */
module Resolver {
  import opened PyJson
  import opened Normalizer

  /** What `session.get(url)` does: answer, or raise a `RequestException` with this text. */
  datatype Reply = Response(status: int, body: Json) | Failure(message: string)

  /** What `get_ip_info` returns, or the exception from `parse_data` that escapes it. */
  datatype LookupResult = Found(record: Record) | ErrorResult(message: string) | Raised(error: PyError)

  /** The registries in probing order: ARIN, then the fallback list. */
  const Registries: seq<(string, string)> := [
    ("ARIN", "https://rdap.arin.net/registry/ip/"),
    ("APNIC", "https://rdap.apnic.net/ip/"),
    ("RIPE", "https://rdap.ripe.net/ip/"),
    ("LACNIC", "https://rdap.lacnic.net/rdap/ip/"),
    ("AFRINIC", "https://rdap.afrinic.net/rdap/ip/")
  ]

  /** The five query URLs for `ip`, in probing order. */
  function Urls(ip: string): (urls: seq<string>)
    ensures |urls| == |Registries|
  {
    seq(|Registries|, i requires 0 <= i < |Registries| => Registries[i].1 + ip)
  }

  function FetchError(ip: string): string {
    "Unable to fetch information for IP " + ip
  }

  /** ARIN's answer that sends the query on to the fallback registries. */
  predicate NotAuthoritative(status: int) { status == 302 || status == 404 }

  /** The lookup's result from the last reply seen, once probing has stopped. */
  function Outcome(ip: string, last: Reply, show: Json -> string): LookupResult {
    match last
    case Failure(message) => ErrorResult(message)
    case Response(status, body) =>
      if status != 200 then ErrorResult(FetchError(ip))
      else match Normalize(body, show)
        case Ok(record) => Found(record)
        case Raise(error) => Raised(error)
  }

  /**
   * The URLs of `servers` the fallback walk probes: one by one, up to the
   * first transport failure or 200, or to the end of the list.
   */
  function Walk(servers: seq<string>, get: string -> Reply): (walked: seq<string>)
    requires servers != []
    ensures 1 <= |walked| <= |servers|
  {
    var reply := get(servers[0]);
    if reply.Failure? || reply.status == 200 || |servers| == 1 then [servers[0]]
    else [servers[0]] + Walk(servers[1..], get)
  }

  /** The URLs requested from `urls`, in order: the first, then the fallback walk over the rest after a 302 or 404. */
  function ProbesOf(urls: seq<string>, get: string -> Reply): (probes: seq<string>)
    requires |urls| > 1
    ensures 1 <= |probes| <= |urls|
  {
    var first := get(urls[0]);
    [urls[0]] + if first.Response? && NotAuthoritative(first.status) then Walk(urls[1..], get) else []
  }

  /** Every URL `get_ip_info` requests, in order: ARIN's, then the fallback walk after a 302 or 404. */
  function Probes(ip: string, get: string -> Reply): (probes: seq<string>)
    ensures 1 <= |probes| <= |Registries|
  {
    ProbesOf(Urls(ip), get)
  }

  /** What `get_ip_info` returns: the outcome of the last reply it received. */
  function Resolve(ip: string, get: string -> Reply, show: Json -> string): LookupResult {
    var probes := Probes(ip, get);
    Outcome(ip, get(probes[|probes| - 1]), show)
  }

  /** The fallback walk probes a prefix of the servers and stops only where the source breaks or runs out. */
  lemma {:induction false} WalkStops(servers: seq<string>, get: string -> Reply)
    requires servers != []
    ensures var w := Walk(servers, get);
      && w == servers[..|w|]
      && (forall j :: 0 <= j < |w| - 1 ==> get(w[j]).Response? && get(w[j]).status != 200)
      && (get(w[|w| - 1]).Failure? || get(w[|w| - 1]).status == 200 || |w| == |servers|)
  {
    var reply := get(servers[0]);
    if !(reply.Failure? || reply.status == 200 || |servers| == 1) {
      var rest := Walk(servers[1..], get);
      WalkStops(servers[1..], get);
      assert servers[..1 + |rest|] == [servers[0]] + servers[1..][..|rest|];
    }
  }

  /**
   * ARIN is asked first; the fallback registries are asked, in order, only
   * after ARIN's 302 or 404; every reply but the last was a non-200 response;
   * and the walk stops at a transport failure, at the first 200, after ARIN's
   * other answers, or at the end of the list.
   */
  lemma ResolveProbes(ip: string, get: string -> Reply)
    ensures var p := Probes(ip, get);
      && p == Urls(ip)[..|p|]
      && (forall j :: 0 <= j < |p| - 1 ==> get(p[j]).Response? && get(p[j]).status != 200)
      && (|p| > 1 ==> NotAuthoritative(get(p[0]).status))
      && (var last := get(p[|p| - 1]);
          || last.Failure?
          || last.status == 200
          || (|p| == 1 && !NotAuthoritative(last.status))
          || |p| == |Registries|)
  {
    var urls := Urls(ip);
    var first := get(urls[0]);
    if first.Response? && NotAuthoritative(first.status) {
      WalkStops(urls[1..], get);
      var w := Walk(urls[1..], get);
      assert urls[..1 + |w|] == [urls[0]] + urls[1..][..|w|];
    }
  }

  /** Any ARIN answer other than 200, 302 or 404 ends the lookup with the fixed error, without asking anyone else. */
  lemma NoFallbackAfterOtherStatus(ip: string, get: string -> Reply, show: Json -> string)
    requires get(Urls(ip)[0]).Response?
    requires get(Urls(ip)[0]).status != 200 && !NotAuthoritative(get(Urls(ip)[0]).status)
    ensures Probes(ip, get) == [Urls(ip)[0]]
    ensures Resolve(ip, get, show) == ErrorResult(FetchError(ip))
  {
  }

  /**
   * When ARIN answers 302 or 404 and every fallback registry answers with a
   * status other than 200, whatever the bodies, all five are asked, in order,
   * and the lookup ends with the fixed error.
   */
  lemma EveryRegistryMisses(ip: string, get: string -> Reply, show: Json -> string)
    requires get(Urls(ip)[0]).Response? && NotAuthoritative(get(Urls(ip)[0]).status)
    requires forall k :: 1 <= k < |Registries| ==> get(Urls(ip)[k]).Response? && get(Urls(ip)[k]).status != 200
    ensures Probes(ip, get) == Urls(ip)
    ensures Resolve(ip, get, show) == ErrorResult(FetchError(ip))
  {
    ResolveProbes(ip, get);
  }

  /**
   * A lookup that finds a record found it at the first registry of the
   * probing order that answered 200: ARIN, or, after ARIN's 302 or 404, the
   * first fallback registry to answer 200, every one before it having
   * answered with another status; the record is `parse_data` of that body.
   */
  lemma FoundAtFirstAnswer(ip: string, get: string -> Reply, show: Json -> string, record: Record)
    requires Resolve(ip, get, show) == Found(record)
    ensures exists k, body ::
      && 0 <= k < |Registries|
      && get(Urls(ip)[k]) == Response(200, body)
      && Normalize(body, show) == Ok(record)
      && (k > 0 ==> NotAuthoritative(get(Urls(ip)[0]).status))
      && (forall j :: 0 <= j < k ==> get(Urls(ip)[j]).Response? && get(Urls(ip)[j]).status != 200)
  {
    ResolveProbes(ip, get);
    var p := Probes(ip, get);
    var k := |p| - 1;
    var reply := get(p[k]);
    assert p[k] == Urls(ip)[k];
    forall j | 0 <= j < k
      ensures get(Urls(ip)[j]).Response? && get(Urls(ip)[j]).status != 200
    {
      assert p[j] == Urls(ip)[j];
    }
    if k > 0 {
      assert p[0] == Urls(ip)[0];
    }
    assert get(Urls(ip)[k]) == Response(200, reply.body);
  }

  /**
   * The `for server in other_rdap_servers` loop with its `break` at the first
   * 200; a transport failure ends it too. `reply` starts as ARIN's reply,
   * which the first iteration overwrites.
   */
  method WalkFallbacks(servers: seq<string>, get: string -> Reply, arin: Reply) returns (reply: Reply, ghost walked: seq<string>)
    requires servers != []
    ensures walked == Walk(servers, get)
    ensures var w := Walk(servers, get); reply == get(w[|w| - 1])
  {
    var k := 0;
    walked := [];
    reply := arin;
    while k < |servers|
      invariant 0 <= k <= |servers| && |walked| == k
      invariant k > 0 ==> reply == get(walked[k - 1])
      invariant k < |servers| ==> Walk(servers, get) == walked + Walk(servers[k..], get)
      invariant k == |servers| ==> Walk(servers, get) == walked
    {
      var url := servers[k];
      reply := get(url);
      ghost var rest := Walk(servers[k..], get);
      if reply.Failure? || reply.status == 200 {
        assert rest == [url];
        walked := walked + [url];
        assert walked == Walk(servers, get) && reply == get(walked[k]);
        return;
      }
      if k + 1 < |servers| {
        assert servers[k..][1..] == servers[k + 1..];
        ghost var after := Walk(servers[k + 1..], get);
        assert rest == [url] + after;
        assert walked + rest == (walked + [url]) + after;
      } else {
        assert rest == [url];
      }
      walked := walked + [url];
      k := k + 1;
    }
    assert walked == Walk(servers, get) && reply == get(walked[k - 1]);
  }

  /** After the probing: the error for a final non-200, or `parse_data` of the answering registry's body. */
  method Conclude(ip: string, reply: Reply, show: Json -> string) returns (r: LookupResult)
    ensures r == Outcome(ip, reply, show)
  {
    match reply {
      case Failure(message) =>
        r := ErrorResult(message);
      case Response(status, body) =>
        if status != 200 {
          r := ErrorResult(FetchError(ip));
        } else {
          var parsed := ParseData(body, show);
          match parsed {
            case Ok(record) => r := Found(record);
            case Raise(error) => r := Raised(error);
          }
        }
    }
  }

  /** The requests of `get_ip_info`, up to the reply that decides the result. */
  method ProbeRegistries(urls: seq<string>, get: string -> Reply) returns (reply: Reply, ghost probed: seq<string>)
    requires |urls| > 1
    ensures probed == ProbesOf(urls, get)
    ensures var p := ProbesOf(urls, get); reply == get(p[|p| - 1])
  {
    reply := get(urls[0]);
    probed := [urls[0]];
    if reply.Response? && (reply.status == 302 || reply.status == 404) {
      ghost var walked;
      reply, walked := WalkFallbacks(urls[1..], get, reply);
      probed := probed + walked;
      assert probed[|probed| - 1] == walked[|walked| - 1];
    }
  }

  method GetIpInfo(ip: string, get: string -> Reply, show: Json -> string) returns (r: LookupResult, ghost probed: seq<string>)
    ensures r == Resolve(ip, get, show)
    ensures probed == Probes(ip, get)
  {
    var reply;
    reply, probed := ProbeRegistries(Urls(ip), get);
    r := Conclude(ip, reply, show);
  }
}
