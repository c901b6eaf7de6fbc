/**
 * `ArcherConnection` of `tplink_archer/connection.py`: a session that
 * authenticates with a basic-auth cookie, guards every API request, and maps
 * the parsed responses to records. HTTP is a transport whose answers are an
 * oracle: the n-th request sent gets the response `respond(n, request)`.
 */
module Connection {
  import opened Wrappers
  import opened Exceptions
  import opened Models
  import Constants

  // ---------------------------------------------------------------------------
  // Requests and the transport
  // ---------------------------------------------------------------------------

  datatype Verb = HttpGet | HttpPost

  /** The two headers `authenticate_basicauth` installs. */
  datatype Headers = Headers(referer: string, cookie: string)

  datatype Request = Request(verb: Verb, url: string, headers: Option<Headers>, data: Option<string>)

  datatype Response = Response(statusCode: int, text: string)

  /** `f'http://{router_url}/{request_url}'`. */
  function Url(routerUrl: string, path: string): string {
    "http://" + routerUrl + "/" + path
  }

  /** The headers for a router and base64-encoded `username:password` credentials. */
  function AuthHeaders(routerUrl: string, credentials: string): Headers {
    Headers("http://" + routerUrl + "/", "Authorization=Basic " + credentials)
  }

  /** The HTTP client: every request sent is logged, and answered by the oracle. */
  class Transport {
    const respond: (nat, Request) -> Response
    var sent: seq<Request>

    constructor (respond: (nat, Request) -> Response)
      ensures this.respond == respond && sent == []
    {
      this.respond := respond;
      sent := [];
    }

    method Send(req: Request) returns (resp: Response)
      modifies this
      ensures sent == old(sent) + [req]
      ensures resp == respond(|old(sent)|, req)
    {
      resp := respond(|sent|, req);
      sent := sent + [req];
    }
  }

  /** `req` sent `k` times. */
  function Repeat(req: Request, k: nat): (r: seq<Request>)
    ensures |r| == k && forall i :: 0 <= i < k ==> r[i] == req
  {
    if k == 0 then [] else Repeat(req, k - 1) + [req]
  }

  /** The guard of `api_request` on the status: anything but 200 is a `RequestError`. */
  function Checked(resp: Response): (r: Result<Response, Error>)
    ensures r.Ok? <==> resp.statusCode == 200
    ensures r.Ok? ==> r.value == resp
    ensures r.Err? ==> r.error == RequestError
  {
    if resp.statusCode != 200 then Err(RequestError) else Ok(resp)
  }

  /** Number of authentication probes for the statuses of the first two answers. */
  function Probes(first: int, second: int): (k: nat)
    ensures 1 <= k <= 2
    ensures k == 1 <==> first == 200
  {
    if first == 200 then 1 else 2
  }

  function MapOk<T, U>(r: Result<T, Error>, f: T -> U): Result<U, Error> {
    match r
    case Ok(v) => Ok(f(v))
    case Err(e) => Err(e)
  }

  // ---------------------------------------------------------------------------
  // Projections of parsed sections to records
  // ---------------------------------------------------------------------------

  /** The identifier of the section a router answers with when no row matches. */
  const Sentinel: string := "[error]0"

  /** The sections that are not the `[error]0` sentinel, in order. */
  function NonSentinel(ss: seq<Section>): seq<Section> {
    if |ss| == 0 then []
    else NonSentinel(ss[..|ss| - 1]) + (if ss[|ss| - 1].identifier == Sentinel then [] else [ss[|ss| - 1]])
  }

  /** Keeping the non-sentinel sections of two lists one after the other keeps each list's in turn. */
  lemma {:induction false} NonSentinelAppend(a: seq<Section>, b: seq<Section>)
    ensures NonSentinel(a + b) == NonSentinel(a) + NonSentinel(b)
    decreases |b|
  {
    if |b| == 0 {
      assert a + b == a;
    } else {
      var last := b[|b| - 1];
      var tail := if last.identifier == Sentinel then [] else [last];
      assert (a + b)[..|a + b| - 1] == a + b[..|b| - 1];
      NonSentinelAppend(a, b[..|b| - 1]);
      assert NonSentinel(a + b) == NonSentinel(a) + NonSentinel(b[..|b| - 1]) + tail;
    }
  }

  /** A section is kept exactly when it is in the list and it is not the sentinel. */
  lemma {:induction false} NonSentinelMembers(ss: seq<Section>, s: Section)
    ensures s in NonSentinel(ss) <==> s in ss && s.identifier != Sentinel
  {
    if |ss| > 0 {
      NonSentinelMembers(ss[..|ss| - 1], s);
      assert ss == ss[..|ss| - 1] + [ss[|ss| - 1]];
    }
  }

  /** One sentinel section and one ordinary section give exactly one record. */
  lemma OneSentinelOneRow(row: Section, sentinel: Section)
    requires row.identifier != Sentinel && sentinel.identifier == Sentinel
    ensures NonSentinel([sentinel, row]) == [row]
    ensures NonSentinel([row, sentinel]) == [row]
  {
    assert [sentinel][..0] == [] && [row][..0] == [];
    assert NonSentinel([sentinel]) == [] && NonSentinel([row]) == [row];
    assert [sentinel, row][..1] == [sentinel] && [row, sentinel][..1] == [row];
  }

  /** `f` applied to every section, in order. */
  function Map<T>(ss: seq<Section>, f: Section -> T): (r: seq<T>)
    ensures |r| == |ss|
    ensures forall i :: 0 <= i < |ss| ==> r[i] == f(ss[i])
  {
    if |ss| == 0 then [] else Map(ss[..|ss| - 1], f) + [f(ss[|ss| - 1])]
  }

  /** One record per non-sentinel section, in section order. */
  function Projected<T>(ss: seq<Section>, f: Section -> T): seq<T> {
    Map(NonSentinel(ss), f)
  }

  /** One more section adds its record, unless it is the sentinel. */
  lemma ProjectedSnoc<T>(ss: seq<Section>, i: nat, f: Section -> T)
    requires i < |ss|
    ensures Projected(ss[..i + 1], f)
      == Projected(ss[..i], f) + (if ss[i].identifier == Sentinel then [] else [f(ss[i])])
  {
    assert ss[..i + 1][..i] == ss[..i];
    var tail := if ss[i].identifier == Sentinel then [] else [ss[i]];
    var kept := NonSentinel(ss[..i]) + tail;
    assert NonSentinel(ss[..i + 1]) == kept;
    if tail != [] {
      assert kept[..|kept| - 1] == NonSentinel(ss[..i]);
    }
  }

  /** The `for` loop every listing runs: skip the sentinel, append the record of every other section. */
  method Project<T>(ss: seq<Section>, f: Section -> T) returns (records: seq<T>)
    ensures records == Projected(ss, f)
  {
    records := [];
    for i := 0 to |ss|
      invariant records == Projected(ss[..i], f)
    {
      ProjectedSnoc(ss, i, f);
      if ss[i].identifier != Sentinel {
        records := records + [f(ss[i])];
      }
    }
    assert ss[..|ss|] == ss;
  }

  /** The dict `get_stats` returns. */
  datatype Stats = Stats(
    currentUpRate: Option<string>, currentDownRate: Option<string>,
    maxUpRate: Option<string>, maxDownRate: Option<string>)

  function StatsOf(s: Section): (r: Stats)
    ensures r.currentUpRate == Get(s.values, "upstreamCurrRate")
    ensures r.currentDownRate == Get(s.values, "downstreamCurrRate")
    ensures r.maxUpRate == Get(s.values, "upstreamMaxRate")
    ensures r.maxDownRate == Get(s.values, "downstreamMaxRate")
  {
    Stats(Get(s.values, "upstreamCurrRate"), Get(s.values, "downstreamCurrRate"),
      Get(s.values, "upstreamMaxRate"), Get(s.values, "downstreamMaxRate"))
  }

  /** The dict `get_dhcp_clients` builds for one client. */
  datatype DhcpClient = DhcpClient(ipAddress: Option<string>, macAddress: Option<string>, hostname: Option<string>)

  function DhcpClientOf(s: Section): (c: DhcpClient)
    ensures c.ipAddress == Get(s.values, "IPAddress")
    ensures c.macAddress == Get(s.values, "MACAddress")
    ensures c.hostname == Get(s.values, "hostName")
  {
    DhcpClient(Get(s.values, "IPAddress"), Get(s.values, "MACAddress"), Get(s.values, "hostName"))
  }

  /** The MAC address `get_wifi_clients` keeps, read under `associatedDeviceMACAddress` with a lower-case `a`. */
  function WifiClientOf(s: Section): (mac: Option<string>)
    ensures mac == Get(s.values, "associatedDeviceMACAddress")
    ensures "associatedDeviceMACAddress" !in Keys(s.values) ==> mac == None
  {
    Get(s.values, "associatedDeviceMACAddress")
  }

  /** The fields `get_dhcp_leases` gives a new `DHCPLease`. */
  datatype LeaseRecord = LeaseRecord(identifier: string, ipAddress: Option<string>, macAddress: Option<string>, isEnabled: bool)

  function LeaseRecordOf(s: Section): (l: LeaseRecord)
    ensures l.identifier == s.identifier
    ensures l.ipAddress == Get(s.values, "yiaddr") && l.macAddress == Get(s.values, "chaddr")
    ensures l.isEnabled <==> Get(s.values, "enable") == Some("1")
  {
    LeaseRecord(s.identifier, Get(s.values, "yiaddr"), Get(s.values, "chaddr"), Get(s.values, "enable") == Some("1"))
  }

  /** The fields of a lease object, as a record. */
  function RecordOf(l: DhcpLease): LeaseRecord
    reads l
  {
    LeaseRecord(l.identifier, l.ipAddress, l.macAddress, l.isEnabled)
  }

  /** Projecting the section a lease writes gives back the lease. */
  lemma LeaseRoundTrip(l: DhcpLease)
    ensures LeaseRecordOf(l.ToSection()) == RecordOf(l)
  {
    var s := l.ToSection();
    if l.isEnabled {
      assert Get(s.values, "enable") == Some("1");
    } else {
      assert Get(s.values, "enable") == Some("0");
    }
  }

  /** The rule `get_port_forwarding_rules` builds from a section, through the defaulting constructor. */
  function PortRuleOf(s: Section): (r: PortForwardingRule)
    ensures r == NewPortForwardingRule(s.identifier,
      Get(s.values, "internalClient"), Get(s.values, "internalPort"), Get(s.values, "externalPort"),
      Get(s.values, "portMappingEnabled") == Some("1"), Get(s.values, "portMappingProtocol"),
      Get(s.values, "X_TP_InternalPortEnd"), Get(s.values, "X_TP_ExternalPortEnd"))
    ensures r.isEnabled <==> Get(s.values, "portMappingEnabled") == Some("1")
  {
    var v := s.values;
    NewPortForwardingRule(
      s.identifier,
      Get(v, "internalClient"),
      Get(v, "internalPort"),
      Get(v, "externalPort"),
      Get(v, "portMappingEnabled") == Some("1"),
      Get(v, "portMappingProtocol"),
      Get(v, "X_TP_InternalPortEnd"),
      Get(v, "X_TP_ExternalPortEnd"))
  }

  /** Each field of a rule's section holds the rule's field of that name. */
  lemma RuleSectionGet(r: PortForwardingRule)
    ensures var v := RuleToSection(r).values;
      && Get(v, "externalPort") == r.externalPort
      && Get(v, "internalPort") == r.internalPort
      && Get(v, "X_TP_ExternalPortEnd") == r.externalPortEnd
      && Get(v, "X_TP_InternalPortEnd") == r.internalPortEnd
      && Get(v, "internalClient") == r.clientIpAddress
      && Get(v, "portMappingProtocol") == r.protocol
      && Get(v, "portMappingEnabled") == Some(Flag(r.isEnabled))
  {
    var v := RuleToSection(r).values;
    assert v == RuleEntries(r);
    GetAt(v, 0);
    GetAt(v, 1);
    GetAt(v, 2);
    GetAt(v, 3);
    GetAt(v, 4);
    GetAt(v, 5);
    GetAt(v, 6);
  }

  /**
   * Writing a rule built by the constructor and reading it back gives the same
   * rule: running the defaulting a second time changes nothing.
   */
  lemma RuleRoundTrip(
    identifier: string, clientIpAddress: Option<string>, internalPort: Option<string>,
    externalPort: Option<string>, isEnabled: bool, protocol: Option<string>,
    internalPortEnd: Option<string>, externalPortEnd: Option<string>)
    ensures var r := NewPortForwardingRule(identifier, clientIpAddress, internalPort, externalPort,
      isEnabled, protocol, internalPortEnd, externalPortEnd);
      PortRuleOf(RuleToSection(r)) == r
  {
    var r := NewPortForwardingRule(identifier, clientIpAddress, internalPort, externalPort,
      isEnabled, protocol, internalPortEnd, externalPortEnd);
    RuleSectionGet(r);
    var s := RuleToSection(r);
    assert (Get(s.values, "portMappingEnabled") == Some("1")) == r.isEnabled;
  }

  /** A field missing from a section projects to `None` in every record. */
  lemma MissingFieldsAreNone(s: Section, key: string)
    requires key !in Keys(s.values)
    ensures key == "IPAddress" ==> DhcpClientOf(s).ipAddress == None
    ensures key == "MACAddress" ==> DhcpClientOf(s).macAddress == None
    ensures key == "hostName" ==> DhcpClientOf(s).hostname == None
    ensures key == "yiaddr" ==> LeaseRecordOf(s).ipAddress == None
    ensures key == "chaddr" ==> LeaseRecordOf(s).macAddress == None
    ensures key == "enable" ==> !LeaseRecordOf(s).isEnabled
    ensures key == "upstreamCurrRate" ==> StatsOf(s).currentUpRate == None
    ensures key == "downstreamCurrRate" ==> StatsOf(s).currentDownRate == None
    ensures key == "upstreamMaxRate" ==> StatsOf(s).maxUpRate == None
    ensures key == "downstreamMaxRate" ==> StatsOf(s).maxDownRate == None
    ensures key == "associatedDeviceMACAddress" ==> WifiClientOf(s) == None
    ensures key == "internalClient" ==> PortRuleOf(s).clientIpAddress == None
    ensures key == "internalPort" ==> PortRuleOf(s).internalPort == None
    ensures key == "externalPort" ==> PortRuleOf(s).externalPort == None
    ensures key == "portMappingProtocol" ==> PortRuleOf(s).protocol == None
    ensures key == "portMappingEnabled" ==> !PortRuleOf(s).isEnabled
    ensures key == "X_TP_ExternalPortEnd" ==> PortRuleOf(s).externalPortEnd == None
    ensures key == "X_TP_InternalPortEnd" ==>
      PortRuleOf(s).internalPortEnd ==
        if Falsy(Get(s.values, "X_TP_ExternalPortEnd")) then Get(s.values, "externalPort") else Get(s.values, "internalPort")
  {
  }

  /** The first lease in the list whose IP address is `ip`, as `[l for l in leases if l.ip_address == ip][0]` picks it. */
  function FirstWithIp(leases: seq<LeaseRecord>, ip: string): (r: Option<nat>)
    ensures r.None? <==> forall i :: 0 <= i < |leases| ==> leases[i].ipAddress != Some(ip)
    ensures r.Some? ==> (r.value < |leases| && leases[r.value].ipAddress == Some(ip)
      && forall j :: 0 <= j < r.value ==> leases[j].ipAddress != Some(ip))
  {
    if |leases| == 0 then None
    else if leases[0].ipAddress == Some(ip) then Some(0)
    else
      match FirstWithIp(leases[1..], ip)
      case None => None
      case Some(k) => Some(k + 1)
  }

  /**
   * The record `create_dhcp_lease` answers with, from the leases it fetches:
   * the first with that IP address, or `IndexError` when there is none; a
   * failed fetch passes its error on.
   */
  function LeaseAnswer(f: Result<seq<Section>, Error>, ip: string): (a: Result<LeaseRecord, Error>)
    ensures a.Ok? ==> a.value.ipAddress == Some(ip)
  {
    match f
    case Err(e) => Err(e)
    case Ok(ss) =>
      var recs := Projected(ss, LeaseRecordOf);
      match FirstWithIp(recs, ip)
      case None => Err(IndexError)
      case Some(k) => Ok(recs[k])
  }

  /**
   * With the leases fetched, the answer is `IndexError` exactly when no lease
   * has the IP address, and otherwise the first lease that has it.
   */
  lemma LeaseAnswerFirst(ss: seq<Section>, ip: string)
    ensures var recs := Projected(ss, LeaseRecordOf);
      LeaseAnswer(Ok(ss), ip) == Err(IndexError) <==> forall i :: 0 <= i < |recs| ==> recs[i].ipAddress != Some(ip)
    ensures var recs := Projected(ss, LeaseRecordOf);
      LeaseAnswer(Ok(ss), ip).Ok? ==> exists i :: (0 <= i < |recs| && recs[i] == LeaseAnswer(Ok(ss), ip).value
        && forall j :: 0 <= j < i ==> recs[j].ipAddress != Some(ip))
  {
  }

  /** `external_ip`'s lookup: the first section named `[1,1,1,0,0,0]7` and its `externalIPAddress`. */
  function ExternalIpOf(ss: seq<Section>): Result<Option<string>, Error> {
    match SectionLookup(ss, ExternalIpSection)
    case Ok(Some(s)) => Ok(Get(s.values, "externalIPAddress"))
    case Ok(None) => Ok(None)
    case Err(e) => Err(e)
  }

  const ExternalIpSection: string := "[1,1,1,0,0,0]7"

  /** The external IP is found exactly when some section carries the identifier; otherwise `SectionNotFoundError`. */
  lemma ExternalIpFound(ss: seq<Section>)
    requires |ss| > 0
    ensures ExternalIpOf(ss).Err? <==> forall i :: 0 <= i < |ss| ==> ss[i].identifier != ExternalIpSection
    ensures ExternalIpOf(ss).Err? ==> ExternalIpOf(ss).error == SectionNotFoundError
    ensures forall i :: (0 <= i < |ss| && ss[i].identifier == ExternalIpSection
      && (forall j :: 0 <= j < i ==> ss[j].identifier != ExternalIpSection)) ==>
      ExternalIpOf(ss) == Ok(Get(ss[i].values, "externalIPAddress"))
  {
  }

  // ---------------------------------------------------------------------------
  // The session
  // ---------------------------------------------------------------------------

  class ArcherConnection {
    const routerUrl: string
    const transport: Transport
    var isAuthenticated: bool
    var headers: Option<Headers>

    /** `ArcherConnection(router_url)`: not authenticated, no headers. */
    constructor (routerUrl: string, transport: Transport)
      ensures this.routerUrl == routerUrl && this.transport == transport
      ensures !isAuthenticated && headers == None
    {
      this.routerUrl := routerUrl;
      this.transport := transport;
      isAuthenticated := false;
      headers := None;
    }

    /** The request `__get_request(path)` sends with the current headers. */
    function GetTo(path: string): Request
      reads this
    {
      Request(HttpGet, Url(routerUrl, path), headers, None)
    }

    /** The request `__post_request(path, data)` sends with the current headers. */
    function PostTo(path: string, data: Option<string>): Request
      reads this
    {
      Request(HttpPost, Url(routerUrl, path), headers, data)
    }

    /** `__get_request`. */
    method GetRequest(path: string) returns (resp: Response)
      modifies transport
      ensures transport.sent == old(transport.sent) + [GetTo(path)]
      ensures resp == transport.respond(|old(transport.sent)|, GetTo(path))
    {
      resp := transport.Send(GetTo(path));
    }

    /** `__post_request`. */
    method PostRequest(path: string, data: Option<string>) returns (resp: Response)
      modifies transport
      ensures transport.sent == old(transport.sent) + [PostTo(path, data)]
      ensures resp == transport.respond(|old(transport.sent)|, PostTo(path, data))
    {
      resp := transport.Send(PostTo(path, data));
    }

    /**
     * `authenticate_basicauth`: installs the headers, then probes the status
     * page at most twice, stopping at the first 200. A session that is already
     * authenticated sends no probe and succeeds whatever the credentials.
     */
    method AuthenticateBasicAuth(credentials: string) returns (r: Outcome<Error>)
      modifies this, transport
      ensures headers == Some(AuthHeaders(routerUrl, credentials))
      ensures old(isAuthenticated) ==> transport.sent == old(transport.sent) && isAuthenticated && r == Pass
      ensures !old(isAuthenticated) ==>
        var probe := GetTo(Constants.AuthenticationUrl);
        var n := |old(transport.sent)|;
        var first := transport.respond(n, probe).statusCode;
        var second := transport.respond(n + 1, probe).statusCode;
        && transport.sent == old(transport.sent) + Repeat(probe, Probes(first, second))
        && (isAuthenticated <==> first == 200 || second == 200)
        && (r == if isAuthenticated then Pass else Fail(AuthError))
    {
      headers := Some(AuthHeaders(routerUrl, credentials));
      ghost var wasAuthenticated := isAuthenticated;
      ghost var n := |transport.sent|;
      ghost var probe := GetTo(Constants.AuthenticationUrl);
      var attempts := 1;
      while attempts <= 2 && !isAuthenticated
        invariant 1 <= attempts <= 3
        invariant headers == Some(AuthHeaders(routerUrl, credentials))
        invariant wasAuthenticated ==> attempts == 1 && isAuthenticated && transport.sent == old(transport.sent)
        invariant !wasAuthenticated ==> transport.sent == old(transport.sent) + Repeat(probe, attempts - 1)
        invariant !wasAuthenticated && attempts >= 2 ==>
          (isAuthenticated <==> transport.respond(n + attempts - 2, probe).statusCode == 200)
        invariant !wasAuthenticated && attempts == 1 ==> !isAuthenticated
        invariant !wasAuthenticated && attempts == 3 ==> transport.respond(n, probe).statusCode != 200
        decreases 3 - attempts
      {
        var resp := GetRequest(Constants.AuthenticationUrl);
        isAuthenticated := true;
        if resp.statusCode != 200 {
          isAuthenticated := false;
        }
        attempts := attempts + 1;
      }
      if !isAuthenticated {
        return Fail(AuthError);
      }
      return Pass;
    }

    /**
     * `api_request`: `AuthError` before anything is sent when the session is
     * not authenticated, then `ValueError` for a request type other than
     * 'get' or 'post', then `RequestError` for any status but 200; otherwise
     * the response itself. A GET sends no data.
     */
    method ApiRequest(requestType: string, path: string, data: Option<string>) returns (r: Result<Response, Error>)
      modifies transport
      ensures !isAuthenticated ==> r == Err(AuthError) && transport.sent == old(transport.sent)
      ensures isAuthenticated && requestType != "get" && requestType != "post" ==>
        r == Err(ValueError) && transport.sent == old(transport.sent)
      ensures isAuthenticated && requestType == "get" ==>
        && transport.sent == old(transport.sent) + [GetTo(path)]
        && r == Checked(transport.respond(|old(transport.sent)|, GetTo(path)))
      ensures isAuthenticated && requestType == "post" ==>
        && transport.sent == old(transport.sent) + [PostTo(path, data)]
        && r == Checked(transport.respond(|old(transport.sent)|, PostTo(path, data)))
    {
      if !isAuthenticated {
        return Err(AuthError);
      }
      var resp: Response;
      if requestType == "get" {
        resp := GetRequest(path);
      } else if requestType == "post" {
        resp := PostRequest(path, data);
      } else {
        return Err(ValueError);
      }
      if resp.statusCode != 200 {
        return Err(RequestError);
      }
      return Ok(resp);
    }

    /** What a POST of `query` to `path` as the `n`-th request yields: the guard's error, or the response. */
    function Answer(n: nat, path: string, query: string): Result<Response, Error>
      reads this
    {
      if !isAuthenticated then Err(AuthError) else Checked(transport.respond(n, PostTo(path, Some(query))))
    }

    /** The sections of that answer, or the error of the request or of the parse. */
    function Fetched(n: nat, path: string, query: string): Result<seq<Section>, Error>
      reads this
    {
      match Answer(n, path, query)
      case Err(e) => Err(e)
      case Ok(resp) => ParseStack(resp.text)
    }

    /** The log after a POST that the guard lets through only for an authenticated session. */
    function Posted(before: seq<Request>, path: string, query: string): seq<Request>
      reads this
    {
      if isAuthenticated then before + [PostTo(path, Some(query))] else before
    }

    /** POST a query and parse the answer: the first two steps of every listing. */
    method Query(path: string, query: string) returns (r: Result<seq<Section>, Error>)
      modifies transport
      ensures transport.sent == Posted(old(transport.sent), path, query)
      ensures r == Fetched(|old(transport.sent)|, path, query)
    {
      var resp := ApiRequest("post", path, Some(query));
      if resp.Err? {
        return Err(resp.error);
      }
      var stack := Stack.New(resp.value.text);
      if stack.Err? {
        return Err(stack.error);
      }
      return Ok(stack.value.sections);
    }

    /** `get_stats`: the four rates of the FIRST section only. */
    method GetStats() returns (r: Result<Stats, Error>)
      modifies transport
      ensures transport.sent == Posted(old(transport.sent), Constants.StatsUrl, Constants.StatsQuery)
      ensures var f := Fetched(|old(transport.sent)|, Constants.StatsUrl, Constants.StatsQuery);
        && (f.Err? ==> r == Err(f.error))
        && (f.Ok? ==> |f.value| > 0 && r == Ok(StatsOf(f.value[0])))
    {
      var sections := Query(Constants.StatsUrl, Constants.StatsQuery);
      if sections.Err? {
        return Err(sections.error);
      }
      return Ok(StatsOf(sections.value[0]));
    }

    /** `get_external_ip`: `externalIPAddress` of the section `[1,1,1,0,0,0]7`, or `SectionNotFoundError`. */
    method GetExternalIp() returns (r: Result<Option<string>, Error>)
      modifies transport
      ensures transport.sent == Posted(old(transport.sent), Constants.ExternalIpUrl, Constants.ExternalIpQuery)
      ensures var f := Fetched(|old(transport.sent)|, Constants.ExternalIpUrl, Constants.ExternalIpQuery);
        && (f.Err? ==> r == Err(f.error))
        && (f.Ok? ==> |f.value| > 0 && r == ExternalIpOf(f.value))
    {
      var resp := ApiRequest("post", Constants.ExternalIpUrl, Some(Constants.ExternalIpQuery));
      if resp.Err? {
        return Err(resp.error);
      }
      var stack := Stack.New(resp.value.text);
      if stack.Err? {
        return Err(stack.error);
      }
      var section := stack.value.GetSection(ExternalIpSection);
      if section.Err? {
        return Err(section.error);
      }
      match section.value {
        case Some(s) => return Ok(Get(s.values, "externalIPAddress"));
        case None => return Ok(None);
      }
    }

    /** `get_dhcp_clients`: one client per non-sentinel section. */
    method GetDhcpClients() returns (r: Result<seq<DhcpClient>, Error>)
      modifies transport
      ensures transport.sent == Posted(old(transport.sent), Constants.DhcpClientsUrl, Constants.DhcpClientsQuery)
      ensures r == MapOk(Fetched(|old(transport.sent)|, Constants.DhcpClientsUrl, Constants.DhcpClientsQuery),
        ss => Projected(ss, DhcpClientOf))
    {
      var sections := Query(Constants.DhcpClientsUrl, Constants.DhcpClientsQuery);
      if sections.Err? {
        return Err(sections.error);
      }
      var clients := Project(sections.value, DhcpClientOf);
      return Ok(clients);
    }

    /** `get_wifi_clients`: the MAC address of every non-sentinel section, for the band's query. */
    method GetWifiClients(freq: WifiFreq) returns (r: Result<seq<Option<string>>, Error>)
      modifies transport
      ensures transport.sent == Posted(old(transport.sent), Constants.WifiClientsUrl, Constants.WifiClientsQuery(freq))
      ensures r == MapOk(Fetched(|old(transport.sent)|, Constants.WifiClientsUrl, Constants.WifiClientsQuery(freq)),
        ss => Projected(ss, WifiClientOf))
    {
      var data := Constants.Wifi2gClientsQuery;
      if freq == Wifi5G {
        data := Constants.Wifi5gClientsQuery;
      }
      var sections := Query(Constants.WifiClientsUrl, data);
      if sections.Err? {
        return Err(sections.error);
      }
      var clients := Project(sections.value, WifiClientOf);
      return Ok(clients);
    }

    /** `get_port_forwarding_rules`: one rule per non-sentinel section, through the defaulting constructor. */
    method GetPortForwardingRules() returns (r: Result<seq<PortForwardingRule>, Error>)
      modifies transport
      ensures transport.sent == Posted(old(transport.sent), Constants.PortForwardingRulesUrl, Constants.PortForwardingRulesQuery)
      ensures r == MapOk(Fetched(|old(transport.sent)|, Constants.PortForwardingRulesUrl, Constants.PortForwardingRulesQuery),
        ss => Projected(ss, PortRuleOf))
    {
      var sections := Query(Constants.PortForwardingRulesUrl, Constants.PortForwardingRulesQuery);
      if sections.Err? {
        return Err(sections.error);
      }
      var rules := Project(sections.value, PortRuleOf);
      return Ok(rules);
    }

    /** `get_dhcp_leases`: a new lease object per non-sentinel section, in order. */
    method GetDhcpLeases() returns (r: Result<seq<DhcpLease>, Error>)
      modifies transport
      ensures transport.sent == Posted(old(transport.sent), Constants.DhcpLeasesUrl, Constants.DhcpLeasesQuery)
      ensures var f := Fetched(|old(transport.sent)|, Constants.DhcpLeasesUrl, Constants.DhcpLeasesQuery);
        && (f.Err? ==> r == Err(f.error))
        && (f.Ok? ==> r.Ok? && Records(r.value) == Projected(f.value, LeaseRecordOf))
      ensures r.Ok? ==> forall i :: 0 <= i < |r.value| ==> fresh(r.value[i])
      ensures r.Ok? ==> Distinct(r.value)
    {
      var sections := Query(Constants.DhcpLeasesUrl, Constants.DhcpLeasesQuery);
      if sections.Err? {
        return Err(sections.error);
      }
      var leases := MakeLeases(sections.value);
      return Ok(leases);
    }

    /**
     * `create_dhcp_lease`: sends the create command, fetches the leases again
     * and returns the first whose IP address is the requested one; an empty
     * match raises `IndexError`.
     */
    method CreateDhcpLease(ip: string, mac: string, isEnabled: bool) returns (r: Result<DhcpLease, Error>)
      modifies transport
      ensures !isAuthenticated ==> r == Err(AuthError) && transport.sent == old(transport.sent)
      ensures isAuthenticated ==>
        var n := |old(transport.sent)|;
        var create := PostTo(Constants.DhcpLeasesCreateUrl, Some(Constants.CreateCommand(mac, ip, Flag(isEnabled))));
        var created := Checked(transport.respond(n, create));
        var a := LeaseAnswer(Fetched(n + 1, Constants.DhcpLeasesUrl, Constants.DhcpLeasesQuery), ip);
        && (created.Err? ==> r == Err(created.error) && transport.sent == old(transport.sent) + [create])
        && (created.Ok? ==>
             transport.sent == old(transport.sent) + [create, PostTo(Constants.DhcpLeasesUrl, Some(Constants.DhcpLeasesQuery))])
        && (created.Ok? && a.Err? ==> r == Err(a.error))
        && (created.Ok? && a.Ok? ==> r.Ok? && fresh(r.value) && RecordOf(r.value) == a.value)
      ensures r.Ok? ==> r.value.ipAddress == Some(ip) && fresh(r.value)
    {
      var data := Constants.CreateCommand(mac, ip, Flag(isEnabled));
      ghost var before := transport.sent;
      var created := ApiRequest("post", Constants.DhcpLeasesCreateUrl, Some(data));
      if created.Err? {
        return Err(created.error);
      }
      ghost var create := PostTo(Constants.DhcpLeasesCreateUrl, Some(data));
      ghost var fetch := PostTo(Constants.DhcpLeasesUrl, Some(Constants.DhcpLeasesQuery));
      ghost var m := |transport.sent|;
      assert m == |before| + 1;
      r := LeaseWithIp(ip);
      assert transport.sent == before + [create] + [fetch];
      assert before + [create] + [fetch] == before + [create, fetch];
    }

    /** The re-fetch that ends `create_dhcp_lease`: the first of the current leases with that IP address. */
    method LeaseWithIp(ip: string) returns (r: Result<DhcpLease, Error>)
      modifies transport
      ensures transport.sent == Posted(old(transport.sent), Constants.DhcpLeasesUrl, Constants.DhcpLeasesQuery)
      ensures var a := LeaseAnswer(Fetched(|old(transport.sent)|, Constants.DhcpLeasesUrl, Constants.DhcpLeasesQuery), ip);
        && (a.Err? ==> r == Err(a.error))
        && (a.Ok? ==> r.Ok? && fresh(r.value) && RecordOf(r.value) == a.value)
      ensures r.Ok? ==> r.value.ipAddress == Some(ip) && fresh(r.value)
    {
      var leases := GetDhcpLeases();
      if leases.Err? {
        return Err(leases.error);
      }
      r := FirstLeaseWithIp(leases.value, ip);
    }

    /** `delete_dhcp_lease`: the delete command for the lease's raw identifier. */
    method DeleteDhcpLease(lease: DhcpLease) returns (r: Outcome<Error>)
      modifies transport
      ensures var req := PostTo(Constants.DhcpLeasesDeleteUrl, Some(Constants.DeleteCommand(RawIdentifier(lease.identifier))));
        && (!isAuthenticated ==> r == Fail(AuthError) && transport.sent == old(transport.sent))
        && (isAuthenticated ==> (transport.sent == old(transport.sent) + [req]
             && (r == if transport.respond(|old(transport.sent)|, req).statusCode == 200 then Pass else Fail(RequestError))))
        && (r.Fail? ==> r.error == AuthError || r.error == RequestError)
    {
      var data := Constants.DeleteCommand(RawIdentifier(lease.identifier));
      var resp := ApiRequest("post", Constants.DhcpLeasesDeleteUrl, Some(data));
      if resp.Err? {
        return Fail(resp.error);
      }
      return Pass;
    }

    /**
     * `toggle_dhcp_lease`: the toggle command for the lease's raw identifier
     * and the flag; the lease's flag changes only once the request succeeded.
     */
    method ToggleDhcpLease(lease: DhcpLease, enable: bool) returns (r: Outcome<Error>)
      modifies transport, lease
      ensures var req := PostTo(Constants.DhcpLeasesToggleUrl, Some(Constants.ToggleCommand(RawIdentifier(lease.identifier), Flag(enable))));
        && (!isAuthenticated ==> r == Fail(AuthError) && transport.sent == old(transport.sent))
        && (isAuthenticated ==> (transport.sent == old(transport.sent) + [req]
             && (r == if transport.respond(|old(transport.sent)|, req).statusCode == 200 then Pass else Fail(RequestError))))
      ensures r == Pass ==> lease.isEnabled == enable
      ensures r.Fail? ==> lease.isEnabled == old(lease.isEnabled)
    {
      var data := Constants.ToggleCommand(RawIdentifier(lease.identifier), Flag(enable));
      var resp := ApiRequest("post", Constants.DhcpLeasesToggleUrl, Some(data));
      if resp.Err? {
        return Fail(resp.error);
      }
      lease.isEnabled := enable;
      return Pass;
    }

    /** `enable_dhcp_lease`: toggle with `true`. */
    method EnableDhcpLease(lease: DhcpLease) returns (r: Outcome<Error>)
      modifies transport, lease
      ensures var req := PostTo(Constants.DhcpLeasesToggleUrl, Some(Constants.ToggleCommand(RawIdentifier(lease.identifier), "1")));
        isAuthenticated ==> (transport.sent == old(transport.sent) + [req]
          && (r == if transport.respond(|old(transport.sent)|, req).statusCode == 200 then Pass else Fail(RequestError)))
      ensures !isAuthenticated ==> r == Fail(AuthError) && transport.sent == old(transport.sent)
      ensures r == Pass ==> lease.isEnabled
      ensures r.Fail? ==> lease.isEnabled == old(lease.isEnabled)
    {
      r := ToggleDhcpLease(lease, true);
    }

    /** `disable_dhcp_lease`: toggle with `false`. */
    method DisableDhcpLease(lease: DhcpLease) returns (r: Outcome<Error>)
      modifies transport, lease
      ensures var req := PostTo(Constants.DhcpLeasesToggleUrl, Some(Constants.ToggleCommand(RawIdentifier(lease.identifier), "0")));
        isAuthenticated ==> (transport.sent == old(transport.sent) + [req]
          && (r == if transport.respond(|old(transport.sent)|, req).statusCode == 200 then Pass else Fail(RequestError)))
      ensures !isAuthenticated ==> r == Fail(AuthError) && transport.sent == old(transport.sent)
      ensures r == Pass ==> !lease.isEnabled
      ensures r.Fail? ==> lease.isEnabled == old(lease.isEnabled)
    {
      r := ToggleDhcpLease(lease, false);
    }
  }

  /** The records of a list of lease objects. */
  function Records(leases: seq<DhcpLease>): (r: seq<LeaseRecord>)
    reads set l | l in leases
    ensures |r| == |leases| && forall i :: 0 <= i < |leases| ==> r[i] == RecordOf(leases[i])
  {
    if |leases| == 0 then [] else Records(leases[..|leases| - 1]) + [RecordOf(leases[|leases| - 1])]
  }

  /** No element occurs twice: for objects, no two positions hold the same object. */
  predicate Distinct<T(==)>(xs: seq<T>) {
    forall i, j :: 0 <= i < j < |xs| ==> xs[i] != xs[j]
  }

  /** A sequence whose elements each map back to their own index holds no element twice. */
  lemma DistinctByPosition<T>(xs: seq<T>, position: map<T, int>)
    requires forall j :: 0 <= j < |xs| ==> xs[j] in position && position[xs[j]] == j
    ensures Distinct(xs)
  {
  }

  /** The loop of `get_dhcp_leases`: a fresh lease object for every non-sentinel section. */
  method MakeLeases(ss: seq<Section>) returns (leases: seq<DhcpLease>)
    ensures Records(leases) == Projected(ss, LeaseRecordOf)
    ensures forall i :: 0 <= i < |leases| ==> fresh(leases[i])
    ensures Distinct(leases)
  {
    leases := [];
    ghost var recs: seq<LeaseRecord> := [];
    ghost var position: map<DhcpLease, int> := map[];
    for i := 0 to |ss|
      invariant recs == Projected(ss[..i], LeaseRecordOf)
      invariant |leases| == |recs|
      invariant forall j :: 0 <= j < |leases| ==>
        fresh(leases[j]) && RecordOf(leases[j]) == recs[j] && leases[j] in position && position[leases[j]] == j
    {
      ProjectedSnoc(ss, i, LeaseRecordOf);
      var section := ss[i];
      if section.identifier != Sentinel {
        var rec := LeaseRecordOf(section);
        var l := new DhcpLease(section.identifier, rec.ipAddress, rec.macAddress, rec.isEnabled);
        position := position[l := |leases|];
        leases := leases + [l];
        recs := recs + [rec];
      }
    }
    assert ss[..|ss|] == ss;
    DistinctByPosition(leases, position);
  }

  /** `[l for l in leases if l.ip_address == ip][0]`: the first lease with that IP address, or `IndexError`. */
  method FirstLeaseWithIp(leases: seq<DhcpLease>, ip: string) returns (r: Result<DhcpLease, Error>)
    ensures FirstWithIp(Records(leases), ip).None? ==> r == Err(IndexError)
    ensures FirstWithIp(Records(leases), ip).Some? ==> r == Ok(leases[FirstWithIp(Records(leases), ip).value])
  {
    for i := 0 to |leases|
      invariant forall j :: 0 <= j < i ==> leases[j].ipAddress != Some(ip)
    {
      if leases[i].ipAddress == Some(ip) {
        return Ok(leases[i]);
      }
    }
    return Err(IndexError);
  }
}
