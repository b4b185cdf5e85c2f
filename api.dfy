/** The REST client of the dashboard (lib/api.ts): the records the backend returns,
    the construction of every request (target URL with the access key, headers,
    endpoint paths with their query strings) and the way failures become errors.
    The network itself is not modelled: the server's answer to a request is a
    parameter (`Reply`). */
module Api {
  import opened Collections
  import opened Text

  // ---------------------------------------------------------------------------
  // Records exchanged with the backend. Floating-point fields (sentiment scores,
  // novelty, confidence) are not part of this model.

  datatype ChatQuery = ChatQuery(question: string, context: Option<string>)
  datatype ChatResponse = ChatResponse(answer: string, sources: seq<string>, intent: Option<string>)

  datatype Momentum = Up | Down | Flat
  datatype Support = Support(meetingId: string, ts: string)
  datatype Trend = Trend(name: string, description: string, meetingsCount: int,
                         momentum: Momentum, support: seq<Support>)
  datatype TrendData = TrendData(windowStart: string, windowEnd: string, trends: seq<Trend>)

  datatype ExemplarQuote = ExemplarQuote(quote: string, meetingId: string, ts: string)
  datatype Speaker = Speaker(speakerId: string, displayName: string, department: string,
                             region: string, country: string, mentions: int,
                             exemplarQuotes: seq<ExemplarQuote>)
  /** `results` may be missing from a reply; the pages read it with `?.`. */
  datatype SpeakerData = SpeakerData(results: Option<seq<Speaker>>)

  datatype Utterance = Utterance(utteranceId: string, meetingId: string, speaker: string,
                                 department: string, region: string, country: string,
                                 startTs: string, endTs: string, content: string,
                                 topics: seq<string>, linkToClip: string)
  /** `items` and `total_count` may be missing from a reply; the pages default them. */
  datatype UtteranceData = UtteranceData(items: Option<seq<Utterance>>, totalCount: Option<int>,
                                         searchText: string)

  // ---------------------------------------------------------------------------
  // Query parameters: a `Record<string, string>`, kept in insertion order, which
  // is the order `URLSearchParams` serializes it in.

  type Params = seq<(string, string)>

  function Lookup(p: Params, k: string): Option<string> {
    if p == [] then None else if p[0].0 == k then Some(p[0].1) else Lookup(p[1..], k)
  }

  function Keys(p: Params): set<string> {
    if p == [] then {} else {p[0].0} + Keys(p[1..])
  }

  predicate UniqueKeys(p: Params) {
    p == [] || (p[0].0 !in Keys(p[1..]) && UniqueKeys(p[1..]))
  }

  /** `params[k] = v`: an existing key keeps its place and takes the new value,
      a new key goes last. */
  function Assign(p: Params, k: string, v: string): (r: Params)
    ensures Lookup(r, k) == Some(v)
    ensures forall k' :: k' != k ==> Lookup(r, k') == Lookup(p, k')
    ensures Keys(r) == Keys(p) + {k}
    ensures k !in Keys(p) ==> r == p + [(k, v)]
    ensures UniqueKeys(p) ==> UniqueKeys(r)
  {
    if p == [] then [(k, v)]
    else if p[0].0 == k then
      assert ([(k, v)] + p[1..])[1..] == p[1..];
      [(k, v)] + p[1..]
    else
      var t := Assign(p[1..], k, v);
      assert ([p[0]] + t)[1..] == t;
      [p[0]] + t
  }

  // ---------------------------------------------------------------------------
  // `new URLSearchParams(params).toString()`: the application/x-www-form-urlencoded
  // serializer. Every character is written as its UTF-8 bytes; a byte that is an
  // ASCII letter, digit or one of `*-._` stays as it is, a space becomes `+` and
  // every other byte becomes `%` and two upper-case hexadecimal digits.

  function Utf8(c: char): (bytes: seq<nat>)
    ensures 1 <= |bytes| <= 4
    ensures forall i :: 0 <= i < |bytes| ==> bytes[i] < 256
  {
    var cp := c as int;
    if cp < 0x80 then [cp]
    else if cp < 0x800 then [0xC0 + cp / 64, 0x80 + cp % 64]
    else if cp < 0x10000 then [0xE0 + cp / 4096, 0x80 + (cp / 64) % 64, 0x80 + cp % 64]
    else [0xF0 + cp / 262144, 0x80 + (cp / 4096) % 64, 0x80 + (cp / 64) % 64, 0x80 + cp % 64]
  }

  predicate IsFormSafeByte(b: nat) {
    b == 0x2A || b == 0x2D || b == 0x2E || 0x30 <= b <= 0x39 || 0x41 <= b <= 0x5A
    || b == 0x5F || 0x61 <= b <= 0x7A
  }

  /** The characters an encoded component is made of. */
  predicate IsFormOutputChar(c: char) {
    'a' <= c <= 'z' || 'A' <= c <= 'Z' || '0' <= c <= '9'
    || c == '*' || c == '-' || c == '.' || c == '_' || c == '+' || c == '%'
  }

  function HexUpper(d: nat): (c: char)
    requires d < 16
    ensures IsFormOutputChar(c)
  {
    if d < 10 then DigitChar(d) else ('A' as int + d - 10) as char
  }

  function EncodeByte(b: nat): (r: string)
    requires b < 256
    ensures forall i :: 0 <= i < |r| ==> IsFormOutputChar(r[i])
  {
    if IsFormSafeByte(b) then [b as char]
    else if b == 0x20 then "+"
    else "%" + [HexUpper(b / 16), HexUpper(b % 16)]
  }

  function EncodeBytes(bs: seq<nat>): (r: string)
    requires forall i :: 0 <= i < |bs| ==> bs[i] < 256
    ensures forall i :: 0 <= i < |r| ==> IsFormOutputChar(r[i])
  {
    if bs == [] then [] else EncodeByte(bs[0]) + EncodeBytes(bs[1..])
  }

  /** The encoding of one name or one value. */
  function FormEncode(s: string): (r: string)
    ensures forall i :: 0 <= i < |r| ==> IsFormOutputChar(r[i])
  {
    if s == [] then [] else EncodeBytes(Utf8(s[0])) + FormEncode(s[1..])
  }

  /** Text made only of unreserved ASCII characters is left as it is. */
  lemma {:induction false} FormEncodeKeepsSafeText(s: string)
    requires forall i :: 0 <= i < |s| ==> IsFormSafeByte(s[i] as int)
    ensures FormEncode(s) == s
  {
    if s != [] {
      FormEncodeKeepsSafeText(s[1..]);
      assert Utf8(s[0]) == [s[0] as int];
      assert EncodeBytes([s[0] as int]) == EncodeByte(s[0] as int) + EncodeBytes([]);
      assert s == [s[0]] + s[1..];
    }
  }

  function EncodePair(p: (string, string)): string {
    FormEncode(p.0) + "=" + FormEncode(p.1)
  }

  /** The query string: `name=value` pairs joined by `&`, empty for no parameters. */
  function Serialize(p: Params): (q: string)
    ensures q == [] <==> p == []
  {
    if p == [] then []
    else if |p| == 1 then EncodePair(p[0])
    else EncodePair(p[0]) + "&" + Serialize(p[1..])
  }

  /** An encoded component holds none of the characters that structure a URL's
      query, so the only `&` and `=` of a query string are its separators: one `=`
      per parameter, one `&` between consecutive parameters, and no `?`. */
  lemma {:induction false} SerializeShape(p: Params)
    ensures '?' !in Serialize(p) && '#' !in Serialize(p)
    ensures multiset(Serialize(p))['='] == |p|
    ensures p != [] ==> multiset(Serialize(p))['&'] == |p| - 1
  {
    if p != [] {
      PairShape(p[0]);
      if |p| > 1 {
        SerializeShape(p[1..]);
        var pair, rest := EncodePair(p[0]), Serialize(p[1..]);
        assert Serialize(p) == pair + "&" + rest;
        assert multiset(Serialize(p)) == multiset(pair) + multiset{'&'} + multiset(rest);
      }
    }
  }

  /** One encoded pair holds one `=` and no other structural character. */
  lemma PairShape(x: (string, string))
    ensures var m := multiset(EncodePair(x));
      m['='] == 1 && m['&'] == 0 && m['?'] == 0 && m['#'] == 0
  {
    var a, b := FormEncode(x.0), FormEncode(x.1);
    NoStructuralChars(a);
    NoStructuralChars(b);
    assert multiset(EncodePair(x)) == multiset(a) + multiset{'='} + multiset(b);
  }

  /** Text made of encoded-component characters has no query structure in it. */
  lemma NoStructuralChars(r: string)
    requires forall i :: 0 <= i < |r| ==> IsFormOutputChar(r[i])
    ensures multiset(r)['='] == 0 && multiset(r)['&'] == 0
    ensures multiset(r)['?'] == 0 && multiset(r)['#'] == 0
  {
    assert !IsFormOutputChar('=') && !IsFormOutputChar('&');
    assert !IsFormOutputChar('?') && !IsFormOutputChar('#');
  }

  // ---------------------------------------------------------------------------
  // Endpoints.

  const ChatPath := "/chat/query"
  const TrendsPath := "/insights/trends"
  const SpeakersPath := "/insights/speakers"
  const UtterancesPath := "/insights/utterances"

  /** The endpoint of `getTrends`, `getSpeakers` and `getUtterances`: the bare path
      when there are no parameters, otherwise the path, `?` and the query string. */
  function ResourceEndpoint(path: string, params: Params): (e: string)
    ensures params == [] ==> e == path
    ensures params != [] ==> e == path + "?" + Serialize(params)
  {
    var q := Serialize(params);
    if q == "" then path else path + "?" + q
  }

  /** The body `chatQuery` posts: `JSON.stringify(query)`, where an absent context
      is left out of the object. */
  function ChatQueryJson(q: ChatQuery): string {
    QuestionKey + (JsonQuote(q.question) + ContextJson(q.context))
  }

  /** The text after the question: the context's key and value when there is one,
      then the closing brace. */
  function ContextJson(context: Option<string>): string {
    if context.Some? then ContextKey + (JsonQuote(context.value) + "}") else "}"
  }

  const QuestionKey := "{\"question\":"
  const ContextKey := ",\"context\":"

  /** Reads the JSON string literal t starts with: the string it denotes and the text
      after its closing quote. */
  function ReadJsonString(t: string): Option<(string, string)> {
    if t == [] || t[0] != '"' then None
    else
      var n := StringBodyLength(t[1..]);
      if 1 + n == |t| then None
      else
        var body := JsonUnescape(t[1..1 + n]);
        if body.None? then None else Some((body.value, t[2 + n..]))
  }

  /** Reads back a chat body of the shape `ChatQueryJson` writes: the question, then
      the context when its key follows, then the closing brace. */
  function ParseChatQueryJson(t: string): Option<ChatQuery> {
    if !(QuestionKey <= t) then None
    else match ReadJsonString(t[|QuestionKey|..])
      case None => None
      case Some((question, rest)) =>
        if rest == "}" then Some(ChatQuery(question, None))
        else if !(ContextKey <= rest) then None
        else match ReadJsonString(rest[|ContextKey|..])
          case None => None
          case Some((context, rest')) =>
            if rest' == "}" then Some(ChatQuery(question, Some(context))) else None
  }

  lemma ReadQuoted(s: string, rest: string)
    ensures ReadJsonString(JsonQuote(s) + rest) == Some((s, rest))
  {
    var t := JsonQuote(s) + rest;
    var e := JsonEscape(s);
    assert t[1..] == e + ("\"" + rest);
    BodyLengthOfEscape(s, "\"" + rest);
    assert t[1..1 + |e|] == e;
    JsonEscapeRoundTrip(s);
    assert t[2 + |e|..] == rest;
  }

  /** The chat body reads back as the query it was written from: the question, and
      the context exactly when the query has one. */
  lemma ChatQueryJsonRoundTrip(q: ChatQuery)
    ensures ParseChatQueryJson(ChatQueryJson(q)) == Some(q)
  {
    var t := ChatQueryJson(q);
    var tail := ContextJson(q.context);
    assert t[|QuestionKey|..] == JsonQuote(q.question) + tail;
    ReadQuoted(q.question, tail);
    if q.context.Some? {
      assert tail[|ContextKey|..] == JsonQuote(q.context.value) + "}";
      ReadQuoted(q.context.value, "}");
    }
  }

  // ---------------------------------------------------------------------------
  // Requests and their outcomes.

  /** The `RequestInit` a caller passes to `makeRequest`. */
  datatype RequestInit = RequestInit(verb: Option<string>, body: Option<string>,
                                     headers: Option<map<string, string>>)

  /** What is handed to `fetch`: the target URL and the request's options. */
  datatype HttpRequest = HttpRequest(url: string, verb: Option<string>, body: Option<string>,
                                     headers: map<string, string>, mode: string)

  /** How the server (or the transport) answered a request. */
  datatype Reply<T> =
    | Response(status: int, statusText: string, payload: T)
    | TransportError(message: Option<string>)   // None: the rejection was not an Error

  /** A resolved request or the error it rejects with. */
  datatype Outcome<T> = Ok(value: T) | Failed(message: string)

  const ErrorPrefix := "API request failed: "
  const ContentType := "Content-Type"
  const Authorization := "Authorization"

  /** `response.ok`. */
  predicate IsOkStatus(status: int) {
    200 <= status <= 299
  }

  /** A token that is set and non-empty (truthy). */
  predicate HasToken(token: Option<string>) {
    token.Some? && token.value != ""
  }

  /** The rule for the target URL: base URL and endpoint, and, unless the base URL
      is a localhost address, the access key as a `code` parameter, joined with `&`
      when the endpoint already has a query and with `?` otherwise. */
  predicate UrlRule(baseUrl: string, endpoint: string, key: string, url: string) {
    if Includes(baseUrl, "localhost") then url == baseUrl + endpoint
    else url == baseUrl + endpoint + (if Includes(endpoint, "?") then "&" else "?") + "code=" + key
  }

  /** The rule for the headers: `Content-Type: application/json` unless the caller
      gives its own, every caller header as given, and `Authorization: Bearer <token>`
      above all when a token is set; without a token no `Authorization` is added. */
  predicate HeaderRule(given: Option<map<string, string>>, token: Option<string>,
                       headers: map<string, string>)
  {
    var g := if given.Some? then given.value else map[];
    && headers.Keys == {ContentType} + g.Keys + (if HasToken(token) then {Authorization} else {})
    && (ContentType !in g ==> headers[ContentType] == "application/json")
    && (forall k :: k in g && !(k == Authorization && HasToken(token)) ==> headers[k] == g[k])
    && (HasToken(token) ==> headers[Authorization] == "Bearer " + token.value)
  }

  /** What `makeRequest` resolves to or rejects with, given the server's reply. A
      non-ok status is thrown inside the `try` and caught again by its own `catch`,
      so its message carries the prefix twice. */
  function RequestOutcome<T>(reply: Reply<T>): (r: Outcome<T>)
    ensures r.Ok? <==> reply.Response? && IsOkStatus(reply.status)
    ensures r.Ok? ==> r.value == reply.payload
    ensures r.Failed? ==> ErrorPrefix <= r.message
  {
    match reply
    case Response(status, text, payload) =>
      if IsOkStatus(status) then Ok(payload)
      else Failed(ErrorPrefix + (ErrorPrefix + IntToString(status) + " " + text))
    case TransportError(m) =>
      Failed(ErrorPrefix + (if m.Some? then m.value else "Unknown error"))
  }

  /** The message of an HTTP failure names the status and its text. */
  lemma HttpErrorMessage<T>(status: int, text: string, payload: T)
    requires !IsOkStatus(status)
    ensures RequestOutcome(Response(status, text, payload)).Failed?
    ensures var m := RequestOutcome(Response(status, text, payload)).message;
      m == ErrorPrefix + ErrorPrefix + IntToString(status) + " " + text
    ensures var m := RequestOutcome(Response(status, text, payload)).message;
      Includes(m, IntToString(status) + " " + text)
  {
    var m := RequestOutcome(Response(status, text, payload)).message;
    assert m == (ErrorPrefix + ErrorPrefix) + (IntToString(status) + " " + text) + "";
    IncludesInConcat(ErrorPrefix + ErrorPrefix, IntToString(status) + " " + text, "");
  }

  /** A resource endpoint has a query exactly when there are parameters. */
  lemma EndpointQueryMark(path: string, params: Params)
    requires '?' !in path
    ensures Includes(ResourceEndpoint(path, params), "?") <==> params != []
  {
    var e := ResourceEndpoint(path, params);
    IncludesChar(e, '?');
    if params != [] {
      assert e[|path|] == '?';
    }
  }

  /** The URL of a request for one of the resource endpoints (a path without `?`):
      remotely the access key follows the query string with `&`, or opens the query
      with `?` when there are no parameters. */
  lemma ResourceUrl(baseUrl: string, path: string, params: Params, key: string, url: string)
    requires '?' !in path
    requires UrlRule(baseUrl, ResourceEndpoint(path, params), key, url)
    ensures Includes(baseUrl, "localhost") ==> url == baseUrl + ResourceEndpoint(path, params)
    ensures !Includes(baseUrl, "localhost") ==>
      url == baseUrl + ResourceEndpoint(path, params) + (if params == [] then "?" else "&")
             + "code=" + key
  {
    EndpointQueryMark(path, params);
  }

  /** A remote request URL built from '?'-free parts has exactly one `?`: the query
      string is never opened twice. */
  lemma RemoteUrlHasOneQueryMark(baseUrl: string, path: string, params: Params, key: string,
                                 url: string)
    requires '?' !in baseUrl && '?' !in path && '?' !in key
    requires !Includes(baseUrl, "localhost")
    requires UrlRule(baseUrl, ResourceEndpoint(path, params), key, url)
    ensures multiset(url)['?'] == 1
  {
    ResourceUrl(baseUrl, path, params, key, url);
    KeyedResourceUrlMarks(baseUrl, path, params, key, url);
  }

  lemma KeyedResourceUrlMarks(baseUrl: string, path: string, params: Params, key: string,
                              url: string)
    requires '?' !in baseUrl && '?' !in path && '?' !in key
    requires url == baseUrl + ResourceEndpoint(path, params) + (if params == [] then "?" else "&")
                    + "code=" + key
    ensures multiset(url)['?'] == 1
  {
    var e := ResourceEndpoint(path, params);
    var sep := if params == [] then "?" else "&";
    EndpointMarks(path, params);
    SeparatorMarks(params);
    assert multiset(url)['?'] == multiset(baseUrl)['?'] + multiset(e)['?'] + multiset(sep)['?']
                                 + multiset("code=")['?'] + multiset(key)['?'];
  }

  /** A resource endpoint holds one `?` when it has a query and none otherwise. */
  lemma EndpointMarks(path: string, params: Params)
    requires '?' !in path
    ensures multiset(ResourceEndpoint(path, params))['?'] == (if params == [] then 0 else 1)
  {
    SerializeShape(params);
    if params != [] {
      assert ResourceEndpoint(path, params) == path + "?" + Serialize(params);
    }
  }

  /** The key's separator is the only `?` of what follows the endpoint. */
  lemma SeparatorMarks(params: Params)
    ensures multiset(if params == [] then "?" else "&")['?'] == (if params == [] then 1 else 0)
    ensures multiset("code=")['?'] == 0
  {
    assert "code=" == ['c', 'o', 'd', 'e', '='];
  }

  /** The API client: a base URL fixed at construction, an access token that
      `setAccessToken` replaces, and the function key read from the environment. */
  class ApiClient {
    var baseUrl: string
    var accessToken: Option<string>
    const functionKey: string

    constructor (baseUrl: string, functionKey: string)
      ensures this.baseUrl == baseUrl && this.functionKey == functionKey
      ensures accessToken == None
    {
      this.baseUrl := baseUrl;
      this.functionKey := functionKey;
      accessToken := None;
    }

    method SetAccessToken(token: string)
      modifies this`accessToken
      ensures accessToken == Some(token)
      ensures baseUrl == old(baseUrl)
    {
      accessToken := Some(token);
    }

    /** The target URL of a request to endpoint. */
    method RequestUrl(endpoint: string) returns (url: string)
      ensures UrlRule(baseUrl, endpoint, functionKey, url)
      ensures baseUrl + endpoint <= url
    {
      url := baseUrl + endpoint;
      if !Includes(baseUrl, "localhost") {
        var separator := if Includes(endpoint, "?") then "&" else "?";
        url := url + separator + "code=" + functionKey;
      }
    }

    /** The headers of a request whose caller passed given. */
    method RequestHeaders(given: Option<map<string, string>>) returns (headers: map<string, string>)
      ensures HeaderRule(given, accessToken, headers)
    {
      headers := map[ContentType := "application/json"];
      if given.Some? {
        headers := headers + given.value;
      }
      if HasToken(accessToken) {
        headers := headers[Authorization := "Bearer " + accessToken.value];
      }
    }

    /** `makeRequest(endpoint, options)`, answered by reply. */
    method MakeRequest<T>(endpoint: string, options: RequestInit, reply: Reply<T>)
      returns (request: HttpRequest, outcome: Outcome<T>)
      ensures UrlRule(baseUrl, endpoint, functionKey, request.url)
      ensures HeaderRule(options.headers, accessToken, request.headers)
      ensures request.verb == options.verb && request.body == options.body
      ensures request.mode == "cors"
      ensures outcome == RequestOutcome(reply)
    {
      var url := RequestUrl(endpoint);
      var headers := RequestHeaders(options.headers);
      request := HttpRequest(url, options.verb, options.body, headers, "cors");
      match reply {
        case Response(status, text, payload) =>
          if IsOkStatus(status) {
            outcome := Ok(payload);
          } else {
            var thrown := ErrorPrefix + IntToString(status) + " " + text;
            outcome := Failed(ErrorPrefix + thrown);
          }
        case TransportError(m) =>
          outcome := Failed(ErrorPrefix + (if m.Some? then m.value else "Unknown error"));
      }
    }

    /** `chatQuery(query)`: a POST of the serialized query to the chat endpoint. */
    method PostChatQuery(query: ChatQuery, reply: Reply<ChatResponse>)
      returns (request: HttpRequest, outcome: Outcome<ChatResponse>)
      ensures UrlRule(baseUrl, ChatPath, functionKey, request.url)
      ensures request.verb == Some("POST") && request.body == Some(ChatQueryJson(query))
      ensures HeaderRule(None, accessToken, request.headers)
      ensures outcome == RequestOutcome(reply)
    {
      request, outcome := MakeRequest(ChatPath, RequestInit(Some("POST"), Some(ChatQueryJson(query)), None), reply);
    }

    /** `getTrends(params)`. */
    method GetTrends(params: Params, reply: Reply<TrendData>)
      returns (request: HttpRequest, outcome: Outcome<TrendData>)
      ensures UrlRule(baseUrl, ResourceEndpoint(TrendsPath, params), functionKey, request.url)
      ensures request.verb == None && request.body == None
      ensures HeaderRule(None, accessToken, request.headers)
      ensures outcome == RequestOutcome(reply)
    {
      request, outcome := MakeRequest(ResourceEndpoint(TrendsPath, params), RequestInit(None, None, None), reply);
    }

    /** `getSpeakers(params)`. */
    method GetSpeakers(params: Params, reply: Reply<SpeakerData>)
      returns (request: HttpRequest, outcome: Outcome<SpeakerData>)
      ensures UrlRule(baseUrl, ResourceEndpoint(SpeakersPath, params), functionKey, request.url)
      ensures request.verb == None && request.body == None
      ensures HeaderRule(None, accessToken, request.headers)
      ensures outcome == RequestOutcome(reply)
    {
      request, outcome := MakeRequest(ResourceEndpoint(SpeakersPath, params), RequestInit(None, None, None), reply);
    }

    /** `getUtterances(params)`. */
    method GetUtterances(params: Params, reply: Reply<UtteranceData>)
      returns (request: HttpRequest, outcome: Outcome<UtteranceData>)
      ensures UrlRule(baseUrl, ResourceEndpoint(UtterancesPath, params), functionKey, request.url)
      ensures request.verb == None && request.body == None
      ensures HeaderRule(None, accessToken, request.headers)
      ensures outcome == RequestOutcome(reply)
    {
      request, outcome := MakeRequest(ResourceEndpoint(UtterancesPath, params), RequestInit(None, None, None), reply);
    }
  }
}
