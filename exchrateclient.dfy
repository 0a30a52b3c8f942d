/**
 * The client of the exchange-rate service: its configuration (client.go), the endpoint
 * router and typed accessors (fetcher.go). The network, the JSON decoder and the RFC 1123
 * date parser are inputs, bundled in `Io`.
 */
module ExchRateClient {
  import opened Wrappers
  import opened Types
  import ErrorHand
  import GoStd

  /** The API root, "https://v6.exchangerate-api.com/v6", written by its parts. */
  const Host := Scheme + "//" + Domain + "/" + Version

  const LatestUrlKey := "latest"
  const CodesUrlKey := "codes"
  const PairUrlKey := "pair"
  /** Declared next to the URL keys; no code path compares the envelope's result with it. */
  const SuccessKey := "success"

  /** The message doRequest's deferred IfError puts in front of every error. */
  const RequestContext := "failed to do request"

  const PairArgsMessage := "invalid args len: pair endpoint requires 2 args"
  const IndexArgsMessage := "invalid args len:index endpoint requires 1 args"

  // ---------------------------------------------------------------------------------------
  // Paths

  /** pathConstruct: the segments joined with "/", nothing cleaned. */
  function PathConstruct(segments: seq<string>): string
  {
    GoStd.Join(segments, "/")
  }

  /** When no segment holds a "/", splitting the constructed path at "/" gives the segments back. */
  lemma PathConstructSplits(segments: seq<string>)
    requires |segments| > 0
    requires forall i :: 0 <= i < |segments| ==> '/' !in segments[i]
    ensures GoStd.Split(PathConstruct(segments), '/') == segments
  {
    GoStd.SplitJoin(segments, '/');
  }

  lemma PathConstructTwo(a: string, b: string)
    ensures PathConstruct([a, b]) == a + "/" + b
  {
    assert [a, b] == [a] + [b];
    GoStd.JoinCons(a, [b], "/");
    GoStd.JoinSingle(b, "/");
  }

  lemma PathConstructThree(a: string, b: string, c: string)
    ensures PathConstruct([a, b, c]) == a + "/" + b + "/" + c
  {
    assert [a, b, c] == [a] + [b, c];
    GoStd.JoinCons(a, [b, c], "/");
    PathConstructTwo(b, c);
  }

  lemma PathConstructFour(a: string, b: string, c: string, d: string)
    ensures PathConstruct([a, b, c, d]) == a + "/" + b + "/" + c + "/" + d
  {
    assert [a, b, c, d] == [a] + [b, c, d];
    GoStd.JoinCons(a, [b, c, d], "/");
    PathConstructThree(b, c, d);
  }

  /** Empty segments are kept: they show up as a doubled or a trailing "/". */
  lemma PathConstructKeepsEmptySegments(a: string, b: string)
    ensures PathConstruct([a, "", b]) == a + "//" + b
    ensures PathConstruct([a, ""]) == a + "/"
  {
    assert [a, "", b][1..] == ["", b];
    PathConstructTwo("", b);
    assert a + "/" + ("" + "/" + b) == a + "//" + b;
    PathConstructTwo(a, "");
  }

  // ---------------------------------------------------------------------------------------
  // The world outside: transport, decoder, date parser

  /** What reading the response body gave. */
  datatype BodyRead = Bytes(data: seq<byte>) | NilBytes | ReadFailed(reason: string)

  /** What building and sending a GET request for a URL gave. */
  datatype HttpOutcome =
    | RequestFailed(reason: string)             // http.NewRequest refused the URL
    | NetworkFailed(reason: string)             // Client.Do failed
    | Reply(status: int, body: BodyRead)        // a response with its status code

  /** Statuses that doRequest treats as a client error: strictly between 400 and 500. */
  predicate IsClientError(status: int)
  {
    400 < status < 500
  }

  /** Whether doRequest comes back without an error for this outcome of a non-empty query. */
  predicate Delivered(o: HttpOutcome)
  {
    o.Reply? && !IsClientError(o.status) && !o.body.ReadFailed?
  }

  /** What json.Unmarshal of a body into a fresh envelope gave. */
  datatype Decoding = Decoded(wire: WireResponse) | DecodeFailed(reason: string)

  /** The black boxes: the service as seen per URL, the JSON decoder and time.Parse(RFC1123, _). */
  datatype Io = Io(
    transport: string -> HttpOutcome,
    unmarshal: seq<byte> -> Decoding,
    parseRfc1123: string -> Option<Time>)

  /** time.Parse returns the zero Time alongside its error. */
  function ParsedOrZero(t: Option<Time>): Time
  {
    if t.Some? then t.value else ZeroTime
  }

  // ---------------------------------------------------------------------------------------
  // The specification of Fetch

  /** A routed request: its URL and whether the two update times are parsed. */
  datatype Query = Query(url: string, dateParse: bool)

  /**
   * The URL a request goes to, following the service's URL shapes {base}/codes,
   * {base}/pair/{base code}/{target code} and {base}/latest/{base code}.
   */
  function Route(basePath: string, toFetch: Endpoint, args: seq<string>): (r: Result<Query>)
    ensures r.Ok? <==> toFetch == CodesEndpoint || (toFetch == PairEndpoint && |args| == 2)
                       || (toFetch == IndexEndpoint && |args| == 1)
    ensures r.Ok? ==> (r.value.dateParse <==> toFetch != CodesEndpoint)
    ensures r.Ok? ==> basePath + "/" < r.value.url
    ensures r.Err? && toFetch == PairEndpoint ==> r.msg == PairArgsMessage
    ensures r.Err? && toFetch == IndexEndpoint ==> r.msg == IndexArgsMessage
    ensures !IsKnownEndpoint(toFetch) ==> r == Err("Unsupported endpoint: " + toFetch)
  {
    if toFetch == CodesEndpoint then Ok(Query(basePath + "/codes", false))
    else if toFetch == PairEndpoint then
      if |args| == 2 then Ok(Query(basePath + "/pair/" + args[0] + "/" + args[1], true))
      else Err(PairArgsMessage)
    else if toFetch == IndexEndpoint then
      if |args| == 1 then Ok(Query(basePath + "/latest/" + args[0], true))
      else Err(IndexArgsMessage)
    else Err("Unsupported endpoint: " + toFetch)
  }

  /**
   * Below the base path and its "/", a routed URL consists of exactly the endpoint's key
   * followed by the arguments the endpoint takes: ["codes"] (further arguments are ignored),
   * ["pair", base, target] or ["latest", code]. Arguments must not hold a "/".
   */
  lemma RouteSegments(basePath: string, toFetch: Endpoint, args: seq<string>)
    requires Route(basePath, toFetch, args).Ok?
    requires forall i :: 0 <= i < |args| ==> '/' !in args[i]
    ensures var url := Route(basePath, toFetch, args).value.url;
            && |basePath| + 1 <= |url|
            && GoStd.Split(url[|basePath| + 1..], '/')
               == if toFetch == CodesEndpoint then [CodesUrlKey]
                  else if toFetch == PairEndpoint then [PairUrlKey, args[0], args[1]]
                  else [LatestUrlKey, args[0]]
  {
    var url := Route(basePath, toFetch, args).value.url;
    if toFetch == CodesEndpoint {
      GoStd.JoinSingle(CodesUrlKey, "/");
      BelowBase(basePath, url, [CodesUrlKey]);
    } else if toFetch == PairEndpoint {
      PathConstructThree(PairUrlKey, args[0], args[1]);
      BelowBase(basePath, url, [PairUrlKey, args[0], args[1]]);
    } else {
      PathConstructTwo(LatestUrlKey, args[0]);
      BelowBase(basePath, url, [LatestUrlKey, args[0]]);
    }
  }

  lemma BelowBase(basePath: string, url: string, segments: seq<string>)
    requires url == basePath + "/" + PathConstruct(segments)
    requires |segments| > 0 && forall i :: 0 <= i < |segments| ==> '/' !in segments[i]
    ensures |basePath| + 1 <= |url| && GoStd.Split(url[|basePath| + 1..], '/') == segments
  {
    assert url[|basePath| + 1..] == PathConstruct(segments);
    PathConstructSplits(segments);
  }

  /** The envelope after date parsing: only the two parsed times change, and only for dateParse. */
  function Stamp(r: ResponseFromServer, dateParse: bool, parse: string -> Option<Time>): (stamped: ResponseFromServer)
    ensures Wire(stamped) == Wire(r)
    ensures !dateParse ==> stamped == r
    ensures dateParse ==>
              && stamped.lastUpdateDateTime == ParsedOrZero(parse(r.lastUpdateString))
              && stamped.nextUpdateDateTime == ParsedOrZero(parse(r.nextUpdateString))
  {
    if dateParse then
      r.(nextUpdateDateTime := ParsedOrZero(parse(r.nextUpdateString)),
         lastUpdateDateTime := ParsedOrZero(parse(r.lastUpdateString)))
    else r
  }

  /** What sending a routed query, decoding and date parsing give, as Fetch returns it. */
  function Deliver(q: Query, io: Io): (Option<ResponseFromServer>, Option<string>)
  {
    var outcome := io.transport(q.url);
    if !Delivered(outcome) then (None, Some("failed to fetch: " + ("failed to do request: " + q.url)))
    else if outcome.body.NilBytes? then (None, Some("failed to fetch: " + "failed to do request: empty response"))
    else
      var decoded := io.unmarshal(outcome.body.data);
      if decoded.DecodeFailed? then (None, Some("failed to fetch: " + ("failed to unmarshal data: " + decoded.reason)))
      else (Some(Stamp(FromWire(decoded.wire), q.dateParse, io.parseRfc1123)), None)
  }

  /**
   * What Fetch returns. Exactly one of envelope and error is nil; every error carries the
   * prefix "failed to fetch: "; a routing error is decided without any request; a returned
   * envelope is exactly what the decoder produced, apart from the two parsed times, which
   * stay zero for the codes endpoint; and a failed date parse never fails the call.
   */
  function FetchResult(basePath: string, toFetch: Endpoint, args: seq<string>, io: Io)
    : (r: (Option<ResponseFromServer>, Option<string>))
    ensures r.0.None? <==> r.1.Some?
    ensures r.1.Some? ==> "failed to fetch: " <= r.1.value
    ensures Route(basePath, toFetch, args).Err? ==>
              r == (None, Some("failed to fetch: " + Route(basePath, toFetch, args).msg))
    ensures r.0.Some? ==>
              && Route(basePath, toFetch, args).Ok?
              && var outcome := io.transport(Route(basePath, toFetch, args).value.url);
              && Delivered(outcome) && outcome.body.Bytes?
              && io.unmarshal(outcome.body.data) == Decoded(Wire(r.0.value))
    ensures r.0.Some? && toFetch == CodesEndpoint ==>
              r.0.value.lastUpdateDateTime == ZeroTime && r.0.value.nextUpdateDateTime == ZeroTime
    ensures r.0.Some? && toFetch != CodesEndpoint ==>
              && r.0.value.lastUpdateDateTime == ParsedOrZero(io.parseRfc1123(r.0.value.lastUpdateString))
              && r.0.value.nextUpdateDateTime == ParsedOrZero(io.parseRfc1123(r.0.value.nextUpdateString))
    ensures Route(basePath, toFetch, args).Ok? ==>
              var outcome := io.transport(Route(basePath, toFetch, args).value.url);
              Delivered(outcome) && outcome.body.Bytes? && io.unmarshal(outcome.body.data).Decoded? ==> r.1.None?
  {
    var route := Route(basePath, toFetch, args);
    if route.Err? then (None, Some("failed to fetch: " + route.msg))
    else Deliver(route.value, io)
  }

  /** A routing error is decided before any request: the outcome does not depend on Io. */
  lemma FetchRejectsBeforeRequest(basePath: string, toFetch: Endpoint, args: seq<string>, io1: Io, io2: Io)
    requires Route(basePath, toFetch, args).Err?
    ensures FetchResult(basePath, toFetch, args, io1) == FetchResult(basePath, toFetch, args, io2)
    ensures toFetch == PairEndpoint ==>
              FetchResult(basePath, toFetch, args, io1).1 == Some("failed to fetch: " + PairArgsMessage)
    ensures toFetch == IndexEndpoint ==>
              FetchResult(basePath, toFetch, args, io1).1 == Some("failed to fetch: " + IndexArgsMessage)
  {
  }

  /**
   * A failed request yields an error that names the query and nothing else: two different
   * transport failures for the same URL give the same result.
   */
  lemma FetchDropsTransportCause(basePath: string, toFetch: Endpoint, args: seq<string>, io1: Io, io2: Io)
    requires Route(basePath, toFetch, args).Ok?
    requires !Delivered(io1.transport(Route(basePath, toFetch, args).value.url))
    requires !Delivered(io2.transport(Route(basePath, toFetch, args).value.url))
    ensures FetchResult(basePath, toFetch, args, io1) == FetchResult(basePath, toFetch, args, io2)
    ensures FetchResult(basePath, toFetch, args, io1)
         == (None, Some("failed to fetch: failed to do request: " + Route(basePath, toFetch, args).value.url))
  {
    var url := Route(basePath, toFetch, args).value.url;
    assert "failed to fetch: " + ("failed to do request: " + url) == "failed to fetch: failed to do request: " + url;
  }

  /** A delivered nil body fails with "empty response": the response is nil. */
  lemma FetchNilBody(basePath: string, toFetch: Endpoint, args: seq<string>, io: Io)
    requires Route(basePath, toFetch, args).Ok?
    requires var outcome := io.transport(Route(basePath, toFetch, args).value.url);
             Delivered(outcome) && outcome.body.NilBytes?
    ensures FetchResult(basePath, toFetch, args, io)
            == (None, Some("failed to fetch: " + "failed to do request: empty response"))
  {
  }

  /** A delivered body the decoder rejects fails with the decoder's reason; the response is nil. */
  lemma FetchUndecodableBody(basePath: string, toFetch: Endpoint, args: seq<string>, io: Io)
    requires Route(basePath, toFetch, args).Ok?
    requires var outcome := io.transport(Route(basePath, toFetch, args).value.url);
             Delivered(outcome) && outcome.body.Bytes? && io.unmarshal(outcome.body.data).DecodeFailed?
    ensures var outcome := io.transport(Route(basePath, toFetch, args).value.url);
            var reason := io.unmarshal(outcome.body.data).reason;
            FetchResult(basePath, toFetch, args, io)
            == (None, Some("failed to fetch: " + ("failed to unmarshal data: " + reason)))
  {
  }

  /**
   * The scenario of a pair reply whose update time is not a date: the decoded envelope comes
   * back without error, with the codes and rate as decoded and a zero parsed time.
   */
  lemma FetchPairWithUnparsableDate(basePath: string)
    ensures var wire := WireResponse("", "not-a-date", "", "USD", map[], "EUR", 1.23, []);
            var io := Io(_ => Reply(200, Bytes([0x7b, 0x7d])), _ => Decoded(wire), _ => None);
            var r := FetchResult(basePath, PairEndpoint, ["USD", "EUR"], io);
            && r.1.None? && r.0.Some?
            && r.0.value.baseCode == "USD" && r.0.value.targetCode == "EUR"
            && r.0.value.conversionRateFloat == 1.23
            && r.0.value.lastUpdateDateTime == ZeroTime
  {
  }

  /** The upstream codes are passed through: the envelope may name other codes than those asked for. */
  lemma FetchPairDoesNotEchoCheck(basePath: string)
    ensures var wire := WireResponse("success", "", "", "EUR", map[], "JPY", 160.0, []);
            var io := Io(_ => Reply(200, Bytes([0x7b, 0x7d])), _ => Decoded(wire), _ => None);
            var r := FetchResult(basePath, PairEndpoint, ["USD", "GBP"], io);
            r.1.None? && r.0.value.baseCode != "USD" && r.0.value.targetCode != "GBP"
  {
  }

  // ---------------------------------------------------------------------------------------
  // The codes table

  /** Every entry of the supported-codes list has a code and a name. */
  predicate WellFormed(entries: seq<seq<string>>)
  {
    forall i :: 0 <= i < |entries| ==> |entries[i]| >= 2
  }

  /**
   * The map FetchCodes builds: entry by entry, the code maps to {Code: code, Name: name};
   * a later entry with the same code overwrites an earlier one. Every value carries its key.
   */
  function CodesMap(entries: seq<seq<string>>): (m: map<string, Iso4217>)
    requires WellFormed(entries)
    ensures forall k :: k in m ==> m[k].code == k
    decreases |entries|
  {
    if entries == [] then map[]
    else
      var v := entries[|entries| - 1];
      CodesMap(entries[..|entries| - 1])[v[0] := Iso4217(v[1], v[0])]
  }

  function CodesOf(entries: seq<seq<string>>): set<string>
    requires WellFormed(entries)
  {
    set i | 0 <= i < |entries| :: entries[i][0]
  }

  predicate DistinctCodes(entries: seq<seq<string>>)
    requires WellFormed(entries)
  {
    forall i, j :: 0 <= i < j < |entries| ==> entries[i][0] != entries[j][0]
  }

  /** The keys of the codes map are exactly the first elements of the entries. */
  lemma {:induction false} CodesMapKeys(entries: seq<seq<string>>)
    requires WellFormed(entries)
    ensures CodesMap(entries).Keys == CodesOf(entries)
    decreases |entries|
  {
    if entries != [] {
      var prefix := entries[..|entries| - 1];
      CodesMapKeys(prefix);
      assert CodesOf(entries) == CodesOf(prefix) + {entries[|entries| - 1][0]} by {
        forall k | k in CodesOf(entries) ensures k in CodesOf(prefix) + {entries[|entries| - 1][0]} {
          var i :| 0 <= i < |entries| && entries[i][0] == k;
          if i < |entries| - 1 { assert prefix[i] == entries[i]; }
        }
        forall k | k in CodesOf(prefix) ensures k in CodesOf(entries) {
          var i :| 0 <= i < |prefix| && prefix[i][0] == k;
          assert entries[i] == prefix[i];
        }
      }
    }
  }

  /** The last entry with a given code decides its value. */
  lemma {:induction false} CodesMapLastWins(entries: seq<seq<string>>, j: nat)
    requires WellFormed(entries)
    requires j < |entries|
    requires forall t :: j < t < |entries| ==> entries[t][0] != entries[j][0]
    ensures entries[j][0] in CodesMap(entries)
    ensures CodesMap(entries)[entries[j][0]] == Iso4217(entries[j][1], entries[j][0])
    decreases |entries|
  {
    if j < |entries| - 1 {
      var prefix := entries[..|entries| - 1];
      assert prefix[j] == entries[j];
      CodesMapLastWins(prefix, j);
    }
  }

  /** Removing the last entry: distinctness splits into the rest and the last code. */
  lemma DistinctCodesSnoc(entries: seq<seq<string>>)
    requires WellFormed(entries) && entries != []
    ensures var prefix := entries[..|entries| - 1];
            DistinctCodes(entries) <==> DistinctCodes(prefix) && entries[|entries| - 1][0] !in CodesOf(prefix)
  {
    var prefix := entries[..|entries| - 1];
    var last := entries[|entries| - 1][0];
    assert forall i :: 0 <= i < |prefix| ==> prefix[i] == entries[i];
    if last in CodesOf(prefix) {
      var i :| 0 <= i < |prefix| && prefix[i][0] == last;
      assert entries[i][0] == entries[|entries| - 1][0];
    }
    if DistinctCodes(prefix) && last !in CodesOf(prefix) {
      forall i, j | 0 <= i < j < |entries| ensures entries[i][0] != entries[j][0] {
        if j == |entries| - 1 {
          assert entries[i][0] in CodesOf(prefix);
        }
      }
    }
  }

  /**
   * The map has at most one key per entry, and exactly one per entry precisely when the
   * codes are distinct.
   */
  lemma {:induction false} CodesMapSize(entries: seq<seq<string>>)
    requires WellFormed(entries)
    ensures |CodesMap(entries)| <= |entries|
    ensures |CodesMap(entries)| == |entries| <==> DistinctCodes(entries)
    decreases |entries|
  {
    if entries != [] {
      var prefix := entries[..|entries| - 1];
      var v := entries[|entries| - 1];
      CodesMapSize(prefix);
      CodesMapKeys(prefix);
      DistinctCodesSnoc(entries);
      var m := CodesMap(prefix);
      assert CodesMap(entries) == m[v[0] := Iso4217(v[1], v[0])];
      if v[0] in m {
        assert CodesMap(entries).Keys == m.Keys;
      } else {
        assert CodesMap(entries).Keys == m.Keys + {v[0]};
      }
    }
  }

  // ---------------------------------------------------------------------------------------
  // Objects

  /** The net/http client a Client owns; its behaviour is the transport of Io. */
  class HttpClient {
    constructor ()
    {
    }
  }

  /** The API configuration: host, optional key and the base path derived from them. */
  class Client {
    var basePath: string
    var api: string
    var httpClient: HttpClient
    var apiFetcher: ApiFetcher?

    /** The embedded fetcher points back at this client. */
    ghost predicate Valid()
      reads this, apiFetcher
    {
      apiFetcher != null && apiFetcher.client == this
    }

    /** defaultClient: no key, the bare host as base path. */
    constructor DefaultClient()
      ensures Valid() && fresh(httpClient) && fresh(apiFetcher)
      ensures api == "" && basePath == Host
    {
      httpClient := new HttpClient();
      basePath := Host;
      api := "";
      apiFetcher := null;
      new;
      apiFetcher := new ApiFetcher(this);
    }

    /** clientWithApi: the key appended to the host with "/", so "" leaves a trailing "/". */
    constructor ClientWithApi(key: string)
      ensures Valid() && fresh(httpClient) && fresh(apiFetcher)
      ensures api == key && basePath == Host + "/" + key
    {
      api := key;
      httpClient := new HttpClient();
      basePath := PathConstruct([Host, key]);
      PathConstructTwo(Host, key);
      apiFetcher := null;
      new;
      apiFetcher := new ApiFetcher(this);
    }

    /** SetAPI: replaces the key and recomputes the base path with path.Join; nothing else changes. */
    method SetAPI(key: string)
      modifies this`api, this`basePath
      ensures api == key && basePath == GoStd.PathJoin([Host, key])
      ensures httpClient == old(httpClient) && apiFetcher == old(apiFetcher)
      ensures old(Valid()) ==> Valid()
    {
      api := key;
      basePath := GoStd.PathJoin([Host, api]);
    }

    /** SetAPI as its comment and clientWithApi intend: the same base path clientWithApi builds. */
    method SetAPIIntended(key: string)
      modifies this`api, this`basePath
      ensures api == key && basePath == Host + "/" + key
      ensures httpClient == old(httpClient) && apiFetcher == old(apiFetcher)
      ensures old(Valid()) ==> Valid()
    {
      api := key;
      basePath := PathConstruct([Host, api]);
      PathConstructTwo(Host, key);
    }

    /**
     * doRequest: an empty query fails before anything is sent; otherwise the outcome of the
     * GET decides. Statuses 401 to 499 are errors, every other status yields the body.
     * Every error is wrapped by IfError("failed to do request", _), so it reads
     * "failed to do request: " followed by the cause.
     */
    method DoRequest(query: string, transport: string -> HttpOutcome) returns (result: Option<seq<byte>>, err: Option<string>)
      ensures query == "" ==> result.None? && err == ErrorHand.IfError(RequestContext, Some("empty query"))
      ensures query != "" ==> (err.None? <==> Delivered(transport(query)))
      ensures err.Some? ==> result.None? && ErrorHand.Unwrap(RequestContext, err.value).Some?
      ensures query != "" && (transport(query).RequestFailed? || transport(query).NetworkFailed?) ==>
                err == ErrorHand.IfError(RequestContext, Some(transport(query).reason))
      ensures query != "" && transport(query).Reply? && IsClientError(transport(query).status) ==>
                err == ErrorHand.IfError(RequestContext, Some("client error: status code " + GoStd.Itoa(transport(query).status)))
      ensures query != "" && transport(query).Reply? && !IsClientError(transport(query).status) ==>
                match transport(query).body
                case ReadFailed(reason) => err == ErrorHand.IfError(RequestContext, Some(reason))
                case NilBytes => result.None? && err.None?
                case Bytes(data) => result == Some(data) && err.None?
    {
      if query == "" {
        return None, ErrorHand.IfError(RequestContext, Some("empty query"));
      }
      var outcome := transport(query);
      match outcome
      case RequestFailed(reason) =>
        return None, ErrorHand.IfError(RequestContext, Some(reason));
      case NetworkFailed(reason) =>
        return None, ErrorHand.IfError(RequestContext, Some(reason));
      case Reply(status, body) =>
        if IsClientError(status) {
          return None, ErrorHand.IfError(RequestContext, Some("client error: status code " + GoStd.Itoa(status)));
        }
        match body
        case ReadFailed(reason) =>
          return None, ErrorHand.IfError(RequestContext, Some(reason));
        case NilBytes =>
          return None, ErrorHand.IfError(RequestContext, None);
        case Bytes(data) =>
          return Some(data), ErrorHand.IfError(RequestContext, None);
    }
  }

  /** apiFetcher: reaches the service through the client it belongs to. */
  class ApiFetcher {
    var client: Client

    /** NewFetcher. */
    constructor (cl: Client)
      ensures client == cl
    {
      client := cl;
    }

    /**
     * Fetch: routes the request, sends it through the client, decodes the body and, for the
     * pair and index endpoints, parses the two update times. Exactly FetchResult.
     */
    method Fetch(toFetch: Endpoint, args: seq<string>, io: Io) returns (resp: Option<ResponseFromServer>, err: Option<string>)
      ensures (resp, err) == FetchResult(client.basePath, toFetch, args, io)
    {
      assert "failed to fetch" + ": " == "failed to fetch: ";
      var base := client.basePath;
      var query: string;
      var dateParse := true;
      if toFetch == CodesEndpoint {
        query := PathConstruct([base, CodesUrlKey]);
        dateParse := false;
      } else if toFetch == PairEndpoint {
        if |args| != 2 {
          return None, ErrorHand.IfError("failed to fetch", Some(PairArgsMessage));
        }
        query := PathConstruct([base, PairUrlKey, args[0], args[1]]);
      } else if toFetch == IndexEndpoint {
        if |args| != 1 {
          return None, ErrorHand.IfError("failed to fetch", Some(IndexArgsMessage));
        }
        query := PathConstruct([base, LatestUrlKey, args[0]]);
      } else {
        return None, ErrorHand.IfError("failed to fetch", Some("Unsupported endpoint: " + toFetch));
      }
      assert query == Route(base, toFetch, args).value.url by {
        PathConstructUnfolds(base, toFetch, args);
      }

      var reqResp, reqErr := client.DoRequest(query, io.transport);
      if reqErr.Some? {
        return None, ErrorHand.IfError("failed to fetch", Some("failed to do request: " + query));
      } else if reqResp.None? {
        assert Delivered(io.transport(query)) && io.transport(query).body.NilBytes?;
        return None, ErrorHand.IfError("failed to fetch", Some("failed to do request: empty response"));
      }

      var decoded := io.unmarshal(reqResp.value);
      if decoded.DecodeFailed? {
        return None, ErrorHand.IfError("failed to fetch", Some("failed to unmarshal data: " + decoded.reason));
      }
      var r := FromWire(decoded.wire);
      if dateParse {
        r := r.(nextUpdateDateTime := ParsedOrZero(io.parseRfc1123(r.nextUpdateString)));
        r := r.(lastUpdateDateTime := ParsedOrZero(io.parseRfc1123(r.lastUpdateString)));
      }
      return Some(r), ErrorHand.IfError("failed to fetch", None);
    }

    /**
     * FetchCodes: on success a map, empty for an empty list, keyed by the entries' codes;
     * an entry with fewer than two elements makes the loop panic with an index out of range
     * (reported by `panicked`; the other results are then meaningless nils).
     */
    method FetchCodes(io: Io) returns (result: Option<map<string, Iso4217>>, err: Option<string>, panicked: bool)
      ensures var f := FetchResult(client.basePath, CodesEndpoint, [], io);
              f.1.Some? ==> !panicked && result.None? && err == Some("failed to fetch codes: " + f.1.value)
      ensures var f := FetchResult(client.basePath, CodesEndpoint, [], io);
              f.0.Some? ==> (panicked <==> !WellFormed(f.0.value.supportedCodes))
      ensures var f := FetchResult(client.basePath, CodesEndpoint, [], io);
              f.0.Some? && !panicked ==> err.None? && result == Some(CodesMap(f.0.value.supportedCodes))
    {
      var table: map<string, Iso4217> := map[];
      assert "failed to fetch codes" + ": " == "failed to fetch codes: ";
      var resp, fetchErr := Fetch(CodesEndpoint, [], io);
      if fetchErr.Some? {
        return None, ErrorHand.IfError("failed to fetch codes", fetchErr), false;
      }
      var codes := resp.value.supportedCodes;
      var j := 0;
      while j < |codes|
        invariant 0 <= j <= |codes|
        invariant WellFormed(codes[..j])
        invariant table == CodesMap(codes[..j])
      {
        var v := codes[j];
        if |v| < 2 {
          return None, None, true;
        }
        assert codes[..j + 1][..j] == codes[..j];
        table := table[v[0] := Iso4217(v[1], v[0])];
        j := j + 1;
      }
      assert codes[..j] == codes;
      return Some(table), ErrorHand.IfError("failed to fetch codes", None), false;
    }

    /**
     * FetchPair: the envelope's base code, target code and rate, copied without comparing
     * them with the requested codes; on error nil and the error prefixed "failed to fetch pair: ".
     */
    method FetchPair(first: string, second: string, io: Io) returns (result: Option<Pair>, err: Option<string>)
      ensures var f := FetchResult(client.basePath, PairEndpoint, [first, second], io);
              f.1.Some? ==> result.None? && err == Some("failed to fetch pair: " + f.1.value)
      ensures var f := FetchResult(client.basePath, PairEndpoint, [first, second], io);
              f.0.Some? ==> err.None? && result == Some(Pair(f.0.value.baseCode, f.0.value.targetCode, f.0.value.conversionRateFloat))
    {
      assert "failed to fetch pair" + ": " == "failed to fetch pair: ";
      var resp, fetchErr := Fetch(PairEndpoint, [first, second], io);
      if fetchErr.Some? {
        return None, ErrorHand.IfError("failed to fetch pair", fetchErr);
      }
      result := Some(Pair(resp.value.baseCode, resp.value.targetCode, resp.value.conversionRateFloat));
      return result, ErrorHand.IfError("failed to fetch pair", None);
    }

    /**
     * FetchIndex: the envelope's base code and rate map, copied unchanged; on error nil and
     * the error prefixed "failed to fetch index: ".
     */
    method FetchIndex(code: string, io: Io) returns (result: Option<Index>, err: Option<string>)
      ensures var f := FetchResult(client.basePath, IndexEndpoint, [code], io);
              f.1.Some? ==> result.None? && err == Some("failed to fetch index: " + f.1.value)
      ensures var f := FetchResult(client.basePath, IndexEndpoint, [code], io);
              f.0.Some? ==> err.None? && result == Some(Index(f.0.value.baseCode, f.0.value.conversionRateMap))
    {
      assert "failed to fetch index" + ": " == "failed to fetch index: ";
      var resp, fetchErr := Fetch(IndexEndpoint, [code], io);
      if fetchErr.Some? {
        return None, ErrorHand.IfError("failed to fetch index", fetchErr);
      }
      result := Some(Index(resp.value.baseCode, resp.value.conversionRateMap));
      return result, ErrorHand.IfError("failed to fetch index", None);
    }
  }

  /** The URL pathConstruct builds in Fetch is the one Route names. */
  lemma PathConstructUnfolds(base: string, toFetch: Endpoint, args: seq<string>)
    requires Route(base, toFetch, args).Ok?
    ensures toFetch == CodesEndpoint ==> PathConstruct([base, CodesUrlKey]) == Route(base, toFetch, args).value.url
    ensures toFetch == PairEndpoint ==>
              PathConstruct([base, PairUrlKey, args[0], args[1]]) == Route(base, toFetch, args).value.url
    ensures toFetch == IndexEndpoint ==>
              PathConstruct([base, LatestUrlKey, args[0]]) == Route(base, toFetch, args).value.url
  {
    if toFetch == PairEndpoint {
      PathConstructFour(base, PairUrlKey, args[0], args[1]);
    } else if toFetch == IndexEndpoint {
      PathConstructThree(base, LatestUrlKey, args[0]);
    } else if toFetch == CodesEndpoint {
      PathConstructTwo(base, CodesUrlKey);
    }
  }


  // ---------------------------------------------------------------------------------------
  // SetAPI and path.Join

  const Scheme := "https:"
  const Domain := "v6.exchangerate-api.com"
  const Version := "v6"
  /** The host as path.Join leaves it: "https:/v6.exchangerate-api.com/v6", one slash after the scheme. */
  const CleanedHost := Scheme + "/" + Domain + "/" + Version

  /** The host followed by "/" and a key, split at "/": the scheme, an empty element, the rest. */
  lemma HostParts()
    ensures Host == Scheme + "/" + "/" + Domain + "/" + Version
    ensures '/' !in Scheme && '/' !in Domain && '/' !in Version
  {
    assert "//" == "/" + "/";
  }

  lemma SplitHostKey(key: string)
    requires '/' !in key
    ensures GoStd.Split(Host + "/" + key, '/') == [Scheme, "", Domain, Version, key]
  {
    HostParts();
    HostKeyParts(key);
    SplitFive(Scheme, "", Domain, Version, key);
  }

  lemma SplitFive(a: string, b: string, c: string, d: string, e: string)
    requires '/' !in a && '/' !in b && '/' !in c && '/' !in d && '/' !in e
    ensures GoStd.Split(a + ['/'] + (b + ['/'] + (c + ['/'] + (d + ['/'] + e))), '/') == [a, b, c, d, e]
  {
    SplitTail(d, e);
    SplitTail(c, d + ['/'] + e);
    SplitTail(b, c + ['/'] + (d + ['/'] + e));
    SplitTail(a, b + ['/'] + (c + ['/'] + (d + ['/'] + e)));
    GoStd.SplitWithoutSep(e, '/');
  }

  lemma HostKeyParts(key: string)
    ensures Host + "/" + key == Scheme + ['/'] + ("" + ['/'] + (Domain + ['/'] + (Version + ['/'] + key)))
  {
    HostParts();
  }

  lemma SplitTail(head: string, rest: string)
    requires '/' !in head
    ensures GoStd.Split(head + ['/'] + rest, '/') == [head] + GoStd.Split(rest, '/')
  {
    GoStd.SplitAround(head, '/', rest);
    GoStd.SplitWithoutSep(head, '/');
  }

  /** Cleaning drops the empty element and keeps the others, the key included. */
  lemma ResolveHostKey(key: string)
    requires key != "" && key != "." && key != ".."
    ensures GoStd.Resolve([Scheme, "", Domain, Version, key], false, []) == [Scheme, Domain, Version, key]
  {
    assert [Scheme, "", Domain, Version, key][1..] == ["", Domain, Version, key];
    assert ["", Domain, Version, key][1..] == [Domain, Version, key];
    assert [Domain, Version, key][1..] == [Version, key];
    assert [Version, key][1..] == [key];
    assert [key][1..] == [];
    assert Scheme != "" && Scheme != "." && Scheme != "..";
    assert Domain != "" && Domain != "." && Domain != "..";
    assert Version != "" && Version != "." && Version != "..";
    assert [] + [Scheme] == [Scheme];
    assert [Scheme] + [Domain] == [Scheme, Domain];
    assert [Scheme, Domain] + [Version] == [Scheme, Domain, Version];
    assert [Scheme, Domain, Version] + [key] == [Scheme, Domain, Version, key];
    calc {
      GoStd.Resolve([Scheme, "", Domain, Version, key], false, []);
      GoStd.Resolve(["", Domain, Version, key], false, [Scheme]);
      GoStd.Resolve([Domain, Version, key], false, [Scheme]);
      GoStd.Resolve([Version, key], false, [Scheme, Domain]);
      GoStd.Resolve([key], false, [Scheme, Domain, Version]);
      GoStd.Resolve([], false, [Scheme, Domain, Version, key]);
    }
  }

  lemma JoinCleanedHostKey(key: string)
    ensures GoStd.Join([Scheme, Domain, Version, key], "/") == CleanedHost + "/" + key
  {
    PathConstructFour(Scheme, Domain, Version, key);
  }

  /**
   * For an ordinary key, path.Join cleans the doubled slash after the scheme away, so SetAPI
   * leaves "https:/v6.exchangerate-api.com/v6/" followed by the key.
   */
  lemma SetApiBasePath(key: string)
    requires key != "" && key != "." && key != ".." && '/' !in key
    ensures GoStd.PathJoin([Host, key]) == CleanedHost + "/" + key
  {
    assert GoStd.DropLeadingEmpty([Host, key]) == [Host, key];
    PathConstructTwo(Host, key);
    SplitHostKey(key);
    ResolveHostKey(key);
    JoinCleanedHostKey(key);
    assert Host[0] != '/';
  }

  /**
   * The as-written SetAPI and clientWithApi disagree on the base path for every ordinary key:
   * only clientWithApi keeps the "//" in front of the host name.
   */
  lemma SetApiDiffersFromClientWithApi(key: string)
    requires key != "" && key != "." && key != ".." && '/' !in key
    ensures GoStd.PathJoin([Host, key]) != PathConstruct([Host, key])
    ensures "https://" <= PathConstruct([Host, key])
    ensures !("https://" <= GoStd.PathJoin([Host, key]))
  {
    SetApiBasePath(key);
    PathConstructTwo(Host, key);
    var cleaned := GoStd.PathJoin([Host, key]);
    assert cleaned[7] == 'v';
    assert PathConstruct([Host, key])[7] == '/';
  }
}
