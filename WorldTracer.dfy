/** The gateway to the global WorldTracer network: the integration config read
    on every call, the secured request it sends, the fallback to a local
    simulation whenever the link is off or the call fails, and the module-level
    fallback cache of records that the reverse sync updates in place. */
module WorldTracer {
  import opened Collections
  import opened Text
  import opened Records

  /** The integration settings (`WorldTracerConfig`). */
  datatype Config = Config(
    isConnected: bool,
    apiKey: string,
    stationCode: string,
    agentId: string,
    airlineCode: string,
    baseUrl: string)

  /** What the `wtIntegration` storage slot yields: nothing (missing or
      empty), a parsed config, or something that fails to read or parse. */
  datatype StoredConfig = Absent | Parsed(config: Config) | Unreadable

  const DefaultBaseUrl: string := "https://api.worldtracer.aero/v1"

  /** The config in force for one call. */
  function IntegrationConfig(stored: StoredConfig): (c: Config)
    ensures stored.Parsed? ==> c == stored.config
    ensures !stored.Parsed? ==>
      !c.isConnected && c.apiKey == "" && c.stationCode == "JED" && c.agentId == "SGS_SYS"
      && c.airlineCode == "SV" && c.baseUrl == (if stored.Absent? then DefaultBaseUrl else "")
  {
    match stored
    case Absent => Config(false, "", "JED", "SGS_SYS", "SV", DefaultBaseUrl)
    case Parsed(config) => config
    case Unreadable => Config(false, "", "JED", "SGS_SYS", "SV", "")
  }

  /** The abort timer armed before every live call. */
  const RequestTimeoutMs: nat := 10000

  datatype HttpMethod = GET | PATCH

  datatype Header = Header(name: string, value: string)

  /** The headers of a live call, built from the config read on that call and
      the clock; the credential takes the bearer form of section 2.1 of
      RFC 6750. */
  function SecureHeaders(c: Config, now: nat): seq<Header> {
    [ Header("Content-Type", "application/json"),
      Header("Accept", "application/json"),
      Header("Authorization", "Bearer " + c.apiKey),
      Header("WT-Agent-ID", c.agentId),
      Header("WT-Station-Code", c.stationCode),
      Header("WT-Airline-Code", c.airlineCode),
      Header("X-Request-ID", "SGS-" + NatToString(now)) ]
  }

  /** The value of the first header with the given name. */
  function HeaderValue(hs: seq<Header>, name: string): (v: Option<string>)
    ensures v.Some? ==> exists i :: 0 <= i < |hs| && hs[i] == Header(name, v.value)
    ensures v.None? ==> forall i :: 0 <= i < |hs| ==> hs[i].name != name
  {
    var i := FirstIndex(hs, (h: Header) => h.name == name);
    if i < 0 then None else Some(hs[i].value)
  }

  /** The header at position `k` is the first with its name. */
  lemma HeaderAt(hs: seq<Header>, k: nat)
    requires k < |hs| && forall j :: 0 <= j < k ==> hs[j].name != hs[k].name
    ensures HeaderValue(hs, hs[k].name) == Some(hs[k].value)
  {
    var name := hs[k].name;
    FirstIndexUnique(hs, (h: Header) => h.name == name, k);
  }

  /** Each outbound header carries the matching part of the config. */
  lemma HeadersCarryConfig(c: Config, now: nat)
    ensures var hs := SecureHeaders(c, now);
      && HeaderValue(hs, "Authorization") == Some("Bearer " + c.apiKey)
      && HeaderValue(hs, "WT-Agent-ID") == Some(c.agentId)
      && HeaderValue(hs, "WT-Station-Code") == Some(c.stationCode)
      && HeaderValue(hs, "WT-Airline-Code") == Some(c.airlineCode)
      && HeaderValue(hs, "X-Request-ID") == Some("SGS-" + NatToString(now))
  {
    var hs := SecureHeaders(c, now);
    assert "WT-Station-Code"[3] != "WT-Airline-Code"[3];
    assert "Content-Type"[0] != "X-Request-ID"[0];
    HeaderAt(hs, 2);
    HeaderAt(hs, 3);
    HeaderAt(hs, 4);
    HeaderAt(hs, 5);
    HeaderAt(hs, 6);
  }

  /** Calls made at different milliseconds carry different trace ids. */
  lemma RequestIdsDiffer(c1: Config, c2: Config, t1: nat, t2: nat)
    requires t1 != t2
    ensures HeaderValue(SecureHeaders(c1, t1), "X-Request-ID")
         != HeaderValue(SecureHeaders(c2, t2), "X-Request-ID")
  {
    HeadersCarryConfig(c1, t1);
    HeadersCarryConfig(c2, t2);
    NatToStringInjective(t1, t2);
    var a, b := "SGS-" + NatToString(t1), "SGS-" + NatToString(t2);
    assert a[4..] == NatToString(t1) && b[4..] == NatToString(t2);
  }

  /** A live call as it leaves the app. */
  datatype Request = Request(
    url: string,
    verb: HttpMethod,
    headers: seq<Header>,
    body: Option<Patch>,
    timeoutMs: nat)

  function BuildRequest(c: Config, endpoint: string, verb: HttpMethod, payload: Option<Patch>,
                        now: nat): Request {
    Request(c.baseUrl + endpoint, verb, SecureHeaders(c, now), payload, RequestTimeoutMs)
  }

  /** A JSON value the gateway can hand back: an array of records, a single
      record object together with its lower-case `pir` member ("" when
      missing), the simulation's `{ status: 200, ok: true, data }` wrapper, or
      anything else. */
  datatype Payload =
    | RecordArray(items: seq<Record>)
    | RecordObject(pirField: string, record: Record)
    | SimulationWrapper(data: seq<Record>)
    | OtherJson

  /** How a live call ends: the transport fails, or a response arrives after
      `elapsedMs` with its `ok` flag and its body (`None` when it is not JSON). */
  datatype Transport =
    | NetworkError
    | Response(elapsedMs: nat, ok: bool, body: Option<Payload>)

  /** The live call yields data: it answers before the abort timer fires,
      with a 2xx status and a body that parses. */
  predicate Answered(t: Transport) {
    t.Response? && t.elapsedMs < RequestTimeoutMs && t.ok && t.body.Some?
  }

  /** The local simulation serves the cache wrapped, never as a bare array. */
  function SimulateRequest(cache: seq<Record>): (p: Payload)
    ensures !p.RecordArray? && !(p.RecordObject? && p.pirField != "")
  {
    SimulationWrapper(cache)
  }

  /** The position of the first cached record whose PIR matches `key`
      ignoring case, or -1 (`findIndex`). */
  method FindIndex(rs: seq<Record>, key: string) returns (index: int)
    ensures -1 <= index < |rs|
    ensures index >= 0 ==> KeyMatches(rs[index], key)
                           && forall j :: 0 <= j < index ==> !KeyMatches(rs[j], key)
    ensures index == -1 ==> forall j :: 0 <= j < |rs| ==> !KeyMatches(rs[j], key)
  {
    var wanted := Upper(key);
    var i := 0;
    while i < |rs|
      invariant 0 <= i <= |rs|
      invariant forall j :: 0 <= j < i ==> !KeyMatches(rs[j], key)
    {
      if Upper(rs[i].pir) == wanted {
        return i;
      }
      i := i + 1;
    }
    return -1;
  }

  class Gateway {
    /** The fallback cache (`localServerCache`). */
    var cache: seq<Record>

    constructor (initial: seq<Record>)
      ensures cache == initial
    {
      cache := initial;
    }

    /** `executeSecureRequest`: with the link off the simulation answers and
        nothing is sent; with it on the request goes out, and a timeout, a
        non-2xx status, a transport failure or an unreadable body all fall back
        to the simulation, so no failure of the call itself reaches the caller
        (a stored config that parses to `null` is not modelled). */
    method ExecuteSecureRequest(stored: StoredConfig, endpoint: string, verb: HttpMethod,
                                payload: Option<Patch>, now: nat, transport: Transport)
      returns (result: Payload, sent: Option<Request>)
      ensures var c := IntegrationConfig(stored);
        !c.isConnected ==> sent == None && result == SimulationWrapper(cache)
      ensures var c := IntegrationConfig(stored);
        c.isConnected ==> sent == Some(BuildRequest(c, endpoint, verb, payload, now))
      ensures IntegrationConfig(stored).isConnected ==>
        result == if Answered(transport) then transport.body.value else SimulationWrapper(cache)
    {
      var config := IntegrationConfig(stored);
      if !config.isConnected {
        result := SimulateRequest(cache);
        sent := None;
        return;
      }
      var request := BuildRequest(config, endpoint, verb, payload, now);
      sent := Some(request);
      match transport {
        case NetworkError =>
          result := SimulateRequest(cache);
        case Response(elapsedMs, ok, body) =>
          if elapsedMs >= request.timeoutMs {
            // the abort timer fired first
            result := SimulateRequest(cache);
          } else if !ok {
            result := SimulateRequest(cache);
          } else if body.None? {
            result := SimulateRequest(cache);
          } else {
            result := body.value;
          }
      }
    }

    /** `fetchGlobalReports`: the live result when it is an array, otherwise a
        copy of the cache. */
    method FetchGlobalReports(stored: StoredConfig, now: nat, transport: Transport)
      returns (reports: seq<Record>)
      ensures !IntegrationConfig(stored).isConnected ==> reports == cache
      ensures reports != cache ==>
        IntegrationConfig(stored).isConnected && Answered(transport)
        && transport.body.value.RecordArray? && reports == transport.body.value.items
      ensures (IntegrationConfig(stored).isConnected && Answered(transport)
               && transport.body.value.RecordArray?) ==> reports == transport.body.value.items
    {
      var result, _ := ExecuteSecureRequest(stored, "/reports/active", GET, None, now, transport);
      if result.RecordArray? {
        reports := result.items;
      } else {
        reports := cache;
      }
    }

    /** `findBaggageByQuery`: a live record object is accepted only when its
        lower-case `pir` member is non-empty; otherwise the first cached record
        whose PIR, upper-cased, equals the trimmed, upper-cased query. The
        `kind` argument only shapes the URL. */
    method FindBaggageByQuery(stored: StoredConfig, query: string, kind: string, now: nat,
                              transport: Transport)
      returns (found: Option<Record>)
      ensures var live := IntegrationConfig(stored).isConnected && Answered(transport)
                          && transport.body.value.RecordObject?
                          && transport.body.value.pirField != "";
        found == if live then Some(transport.body.value.record)
                 else Find(cache, (r: Record) => Upper(r.pir) == Upper(Trim(query)))
    {
      var result, _ := ExecuteSecureRequest(stored, "/search?q=" + query + "&type=" + kind, GET,
                                            None, now, transport);
      var normalized := Upper(Trim(query));
      if result.RecordObject? && result.pirField != "" {
        return Some(result.record);
      }
      found := Find(cache, (r: Record) => Upper(r.pir) == normalized);
    }

    /** `findBaggageByPir`: a query of kind `pir`. */
    method FindBaggageByPir(stored: StoredConfig, pir: string, now: nat, transport: Transport)
      returns (found: Option<Record>)
      ensures var live := IntegrationConfig(stored).isConnected && Answered(transport)
                          && transport.body.value.RecordObject?
                          && transport.body.value.pirField != "";
        found == if live then Some(transport.body.value.record)
                 else Find(cache, (r: Record) => Upper(r.pir) == Upper(Trim(pir)))
      ensures !IntegrationConfig(stored).isConnected ==>
        found == Find(cache, (r: Record) => Upper(r.pir) == Upper(Trim(pir)))
      ensures found.None? ==> forall j :: 0 <= j < |cache| ==> Upper(cache[j].pir) != Upper(Trim(pir))
    {
      found := FindBaggageByQuery(stored, pir, "pir", now, transport);
    }

    /** `updateGlobalRecord`: the PATCH is sent (or simulated) and its outcome
        ignored; then the first cached record matching the PIR ignoring case is
        replaced by `{ ...record, ...updates }` in place. */
    method UpdateGlobalRecord(stored: StoredConfig, pir: string, updates: Patch, now: nat,
                              transport: Transport)
      returns (sent: Option<Request>)
      modifies this
      ensures cache == UpdateFirst(old(cache), pir, updates)
      ensures var c := IntegrationConfig(stored);
        sent == if c.isConnected then Some(BuildRequest(c, "/reports/" + pir, PATCH, Some(updates), now))
                else None
    {
      var _, s := ExecuteSecureRequest(stored, "/reports/" + pir, PATCH, Some(updates), now,
                                       transport);
      sent := s;
      var index := FindIndex(cache, pir);
      FirstIndexUnique(cache, (r: Record) => KeyMatches(r, pir), index);
      if index != -1 {
        cache := cache[index := Merge(cache[index], updates)];
      }
    }
  }
}
