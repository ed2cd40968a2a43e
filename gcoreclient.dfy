/** The gcore API client: the URLs and headers it derives from its fields, the
    token refresh, the retry-on-401 request wrapper and the metadata fetch.

    Each operation that talks to the network or updates the tokens is given twice:
    as a specification function from the client's state and the network's state to
    a `Step` (what is raised or returned, the new client state, the new network
    state), and as a method of `HeatResourceClient` that performs the same steps on
    the object's fields and on a `Transport`, proved equal to that function. */
module GcoreClient {
  import opened Wrappers
  import opened Http
  import opened Settings
  import Decimal

  /** Whether a response reports an expired or invalid access token. */
  function CheckUnauthenticatedResponse(r: Response): (unauthenticated: bool)
    ensures unauthenticated <==> r.status == 401
  {
    if r.status == 401 then true else false
  }

  /** The headers of the refresh POST. */
  const HEADERS: map<string, string> := map["Accept" := "application/json", "Content-Type" := "application/json"]

  /** The fields the base client is built from, and those of the heat resource client. */
  const BASE_FIELDS: seq<FieldName> := [ApiUrl, RegionId, ProjectId, AccessToken, RefreshToken]
  const FIELDS: seq<FieldName> := BASE_FIELDS + [StackId, ResourceName]

  lemma FieldsAreEverySettingOnce()
    ensures FIELDS[..5] == BASE_FIELDS && FIELDS[5..] == [StackId, ResourceName]
    ensures |FIELDS| == 7 && forall f: FieldName :: f in FIELDS
    ensures forall i, j :: 0 <= i < j < |FIELDS| ==> FIELDS[i] != FIELDS[j]
  {
    forall f: FieldName ensures f in FIELDS {
      match f
      case ApiUrl => assert FIELDS[0] == f;
      case RegionId => assert FIELDS[1] == f;
      case ProjectId => assert FIELDS[2] == f;
      case AccessToken => assert FIELDS[3] == f;
      case RefreshToken => assert FIELDS[4] == f;
      case StackId => assert FIELDS[5] == f;
      case ResourceName => assert FIELDS[6] == f;
    }
  }

  /** The seven attributes of a heat resource client. */
  datatype ClientState = ClientState(
    apiUrl: Option<string>,
    regionId: Option<int>,
    projectId: Option<int>,
    accessToken: Option<string>,
    refreshToken: Option<string>,
    stackId: Option<string>,
    resourceName: Option<string>)

  /** `getattr(client, name)`. */
  function Attr(s: ClientState, f: FieldName): Setting {
    match f
    case ApiUrl => Text(s.apiUrl)
    case AccessToken => Text(s.accessToken)
    case RefreshToken => Text(s.refreshToken)
    case ProjectId => Number(s.projectId)
    case RegionId => Number(s.regionId)
    case StackId => Text(s.stackId)
    case ResourceName => Text(s.resourceName)
  }

  /** The state `from_conf` builds: every name in FIELDS read from the configuration
      and passed unchanged to the same-named constructor parameter. */
  function ConfState(conf: Conf): (s: ClientState)
    ensures forall i :: 0 <= i < |FIELDS| ==> Attr(s, FIELDS[i]) == Lookup(conf, FIELDS[i])
  {
    ClientState(conf.apiUrl, conf.regionId, conf.projectId, conf.accessToken,
                conf.refreshToken, conf.stackId, conf.resourceName)
  }

  /** f-string interpolation: an unset attribute is rendered as `None`. */
  function PyStr(o: Option<string>): string {
    match o
    case None => "None"
    case Some(s) => s
  }

  function PyInt(o: Option<int>): (s: string)
    ensures '/' !in s
  {
    match o
    case None => "None"
    case Some(i) => Decimal.IntToString(i)
  }

  const REFRESH_PATH := "/v1/token/refresh"

  function RefreshUrl(apiUrl: Option<string>): string {
    PyStr(apiUrl) + REFRESH_PATH
  }

  /** The base URL a refresh URL was built from, if it is one. */
  function RefreshBase(u: string): Option<string> {
    if |u| >= |REFRESH_PATH| && u[|u| - |REFRESH_PATH|..] == REFRESH_PATH
    then Some(u[..|u| - |REFRESH_PATH|]) else None
  }

  /** The refresh URL is the API URL followed by the token-refresh path, and the API URL
      can be read back from it. */
  lemma RefreshUrlRoundTrip(apiUrl: Option<string>)
    ensures RefreshBase(RefreshUrl(apiUrl)) == Some(PyStr(apiUrl))
    ensures Dispatchable(PyStr(apiUrl)) ==> Dispatchable(RefreshUrl(apiUrl))
  {
    var u := RefreshUrl(apiUrl);
    assert u[|u| - |REFRESH_PATH|..] == REFRESH_PATH;
    assert u[..|u| - |REFRESH_PATH|] == PyStr(apiUrl);
    if Dispatchable(PyStr(apiUrl)) {
      DispatchableExtends(PyStr(apiUrl), REFRESH_PATH);
    }
  }

  function MetadataTail(s: ClientState): string {
    "heat/" + PyStr(s.stackId) + "/resources/" + PyStr(s.resourceName) + "/metadata"
  }

  function MetadataUrl(s: ClientState): string {
    PyStr(s.apiUrl) + "/v1/" + PyInt(s.projectId) + "/" + PyInt(s.regionId) + "/" + MetadataTail(s)
  }

  /** The part of `s` before its first slash and the part after it. */
  function Segment(s: string): (r: Option<(string, string)>)
    ensures r.Some? ==> '/' !in r.value.0 && s == r.value.0 + "/" + r.value.1
  {
    if s == [] then None
    else if s[0] == '/' then Some(("", s[1..]))
    else match Segment(s[1..])
      case None => None
      case Some(p) => Some(([s[0]] + p.0, p.1))
  }

  lemma {:induction false} SegmentOf(x: string, y: string)
    requires '/' !in x
    ensures Segment(x + "/" + y) == Some((x, y))
  {
    if x == [] {
      assert x + "/" + y == "/" + y;
    } else {
      assert (x + "/" + y)[0] == x[0] && (x + "/" + y)[1..] == x[1..] + "/" + y;
      SegmentOf(x[1..], y);
      assert [x[0]] + x[1..] == x;
    }
  }

  /** The two path segments that follow `base + "/v1/"` in a URL. */
  function IdSegments(base: string, url: string): Option<(string, string)> {
    var prefix := base + "/v1/";
    if |url| < |prefix| || url[..|prefix|] != prefix then None
    else match Segment(url[|prefix|..])
      case None => None
      case Some(p) =>
        match Segment(p.1)
        case None => None
        case Some(q) => Some((p.0, q.0))
  }

  /** The project and region ids a metadata URL names. */
  function ParseIds(base: string, url: string): Option<(int, int)> {
    match IdSegments(base, url)
    case None => None
    case Some(p) =>
      match (Decimal.ParseInt(p.0), Decimal.ParseInt(p.1))
      case (Some(project), Some(region)) => Some((project, region))
      case _ => None
  }

  lemma MetadataUrlSegments(s: ClientState)
    ensures IdSegments(PyStr(s.apiUrl), MetadataUrl(s)) == Some((PyInt(s.projectId), PyInt(s.regionId)))
  {
    var prefix := PyStr(s.apiUrl) + "/v1/";
    var rest := PyInt(s.projectId) + "/" + (PyInt(s.regionId) + "/" + MetadataTail(s));
    var u := MetadataUrl(s);
    assert u == prefix + rest;
    assert u[..|prefix|] == prefix;
    assert u[|prefix|..] == rest;
    SegmentOf(PyInt(s.projectId), PyInt(s.regionId) + "/" + MetadataTail(s));
    SegmentOf(PyInt(s.regionId), MetadataTail(s));
  }

  lemma MetadataUrlEnds(s: ClientState)
    ensures var u := MetadataUrl(s); |u| >= 9 && u[|u| - 9..] == "/metadata"
  {
    var u := MetadataUrl(s);
    var t := MetadataTail(s);
    assert t[|t| - 9..] == "/metadata";
    assert u[|u| - 9..] == t[|t| - 9..];
  }

  lemma MetadataUrlDispatchable(s: ClientState)
    requires Dispatchable(PyStr(s.apiUrl))
    ensures Dispatchable(MetadataUrl(s))
  {
    var rest := "/v1/" + PyInt(s.projectId) + "/" + PyInt(s.regionId) + "/" + MetadataTail(s);
    assert MetadataUrl(s) == PyStr(s.apiUrl) + rest;
    DispatchableExtends(PyStr(s.apiUrl), rest);
  }

  /** An id renders to a string no other id, set or unset, renders to. */
  lemma PyIntInjective(o: Option<int>, o': Option<int>)
    requires PyInt(o) == PyInt(o')
    ensures o == o'
  {
    match (o, o')
    case (Some(i), Some(j)) => Decimal.IntToStringInjective(i, j);
    case (Some(i), None) =>
      Decimal.IntRoundTrip(i);
    case (None, Some(j)) =>
      Decimal.IntRoundTrip(j);
    case (None, None) =>
  }

  /** Two clients on the same API URL fetch the same metadata URL only when they have
      the same project and region ids. */
  lemma MetadataUrlDistinguishesIds(s: ClientState, s': ClientState)
    requires s.apiUrl == s'.apiUrl && MetadataUrl(s) == MetadataUrl(s')
    ensures s.projectId == s'.projectId && s.regionId == s'.regionId
  {
    MetadataUrlSegments(s);
    MetadataUrlSegments(s');
    PyIntInjective(s.projectId, s'.projectId);
    PyIntInjective(s.regionId, s'.regionId);
  }

  /** The metadata URL starts with the API URL and `/v1/`, ends with `/metadata`, and
      names the client's project and region ids, in that order, as its next two path
      segments: the ids can be read back from it. */
  lemma MetadataUrlCarriesIds(s: ClientState)
    requires s.projectId.Some? && s.regionId.Some?
    ensures ParseIds(PyStr(s.apiUrl), MetadataUrl(s)) == Some((s.projectId.value, s.regionId.value))
    ensures var u := MetadataUrl(s); |u| >= 9 && u[|u| - 9..] == "/metadata"
    ensures Dispatchable(PyStr(s.apiUrl)) ==> Dispatchable(MetadataUrl(s))
  {
    MetadataUrlSegments(s);
    Decimal.IntRoundTrip(s.projectId.value);
    Decimal.IntRoundTrip(s.regionId.value);
    MetadataUrlEnds(s);
    if Dispatchable(PyStr(s.apiUrl)) {
      MetadataUrlDispatchable(s);
    }
  }

  const BEARER := "Bearer: "

  /** The headers of the metadata GET, built from the current access token. */
  function AuthHeaders(accessToken: Option<string>): (h: map<string, string>)
    ensures h.Keys == {"Authorization", "Accept"} && |h| == 2
    ensures h["Authorization"] == BEARER + PyStr(accessToken)
    ensures h["Accept"] == "application/json"
  {
    map["Authorization" := BEARER + PyStr(accessToken), "Accept" := "application/json"]
  }

  /** The token an Authorization header carries. */
  function BearerOf(h: map<string, string>): Option<string> {
    if "Authorization" in h && |h["Authorization"]| >= |BEARER| && h["Authorization"][..|BEARER|] == BEARER
    then Some(h["Authorization"][|BEARER|..]) else None
  }

  /** The headers carry exactly the token they were built from, so tokens that render
      differently give different headers. */
  lemma AuthHeadersCarryToken(t: Option<string>, t': Option<string>)
    ensures BearerOf(AuthHeaders(t)) == Some(PyStr(t))
    ensures PyStr(t) != PyStr(t') ==> AuthHeaders(t) != AuthHeaders(t')
  {
    var v := AuthHeaders(t)["Authorization"];
    assert v[..|BEARER|] == BEARER && v[|BEARER|..] == PyStr(t);
    var v' := AuthHeaders(t')["Authorization"];
    assert v'[|BEARER|..] == PyStr(t');
  }

  /** The JSON encoding of a token in the refresh body. */
  function TokenJson(t: Option<string>): Json {
    match t
    case None => JNull
    case Some(s) => JStr(s)
  }

  /** The token a decoded JSON value stands for: a string, or null for `None`. */
  function AsToken(j: Json): (t: Option<Option<string>>)
    ensures t.Some? ==> TokenJson(t.value) == j
  {
    match j
    case JNull => Some(None)
    case JStr(s) => Some(Some(s))
    case _ => None
  }

  /** Where process_refresh_token POSTs: the refresh token's own value, as the source
      does, or the refresh endpoint. */
  datatype RefreshTarget = TokenValue | RefreshEndpoint

  function RefreshTargetUrl(target: RefreshTarget, s: ClientState): string {
    match target
    case TokenValue => PyStr(s.refreshToken)
    case RefreshEndpoint => RefreshUrl(s.apiUrl)
  }

  function RefreshRequest(s: ClientState, target: RefreshTarget): Request {
    Request(POST, RefreshTargetUrl(target, s), HEADERS, Some(JDict(map["token" := TokenJson(s.refreshToken)])))
  }

  function MetadataRequest(s: ClientState): Request {
    Request(GET, MetadataUrl(s), AuthHeaders(s.accessToken), None)
  }

  /** One step of the client: what it returns or raises, its state after, and the network's. */
  datatype Step<+T> = Step(outcome: Outcome<T>, client: ClientState, net: Net)

  const ACCESS_KEY := "access_token"
  const REFRESH_KEY := "refresh_token"

  /** The assignments from the decoded refresh body: the access token first, then the
      refresh token, each failing lookup raising after the assignments before it. */
  function ApplyTokens(s: ClientState, tokens: Json, n: Net): (st: Step<()>)
    ensures st.net == n
  {
    if !tokens.JDict? then Step(Raised(TypeError), s, n)
    else
      var m := tokens.fields;
      if ACCESS_KEY !in m then Step(Raised(KeyError(ACCESS_KEY)), s, n)
      else match AsToken(m[ACCESS_KEY])
        case None => Step(Raised(DecodeError), s, n)
        case Some(a) =>
          var s1 := s.(accessToken := a);
          if REFRESH_KEY !in m then Step(Raised(KeyError(REFRESH_KEY)), s1, n)
          else match AsToken(m[REFRESH_KEY])
            case None => Step(Raised(DecodeError), s1, n)
            case Some(r) => Step(Ok(()), s1.(refreshToken := r), n)
  }

  /** process_refresh_token, posting to the given target. */
  function ProcessRefresh(s: ClientState, n: Net, target: RefreshTarget): Step<()> {
    var e := Deliver(n, RefreshRequest(s, target));
    match e.outcome
    case Raised(f) => Step(Raised(f), s, e.net)
    case Ok(response) =>
      if IsErrorStatus(response.status) then Step(Raised(HttpError(response.status)), s, e.net)
      else match response.json
        case None => Step(Raised(DecodeError), s, e.net)
        case Some(tokens) => ApplyTokens(s, tokens, e.net)
  }

  /** Whatever the reply, the refresh sends at most the one POST and changes nothing
      but the two tokens; the refresh token changes only when the refresh returns normally. */
  lemma RefreshFrame(s: ClientState, n: Net, target: RefreshTarget)
    ensures var st := ProcessRefresh(s, n, target);
      && st.client.(accessToken := s.accessToken, refreshToken := s.refreshToken) == s
      && (st.net.sent == n.sent || st.net.sent == n.sent + [RefreshRequest(s, target)])
      && (st.client.refreshToken != s.refreshToken ==> st.outcome.Ok?)
  {
  }

  /** A refresh answered with an error status raises it and touches no token. */
  lemma RefreshErrorStatusKeepsTokens(s: ClientState, n: Net, target: RefreshTarget, r: Response)
    requires Dispatchable(RefreshTargetUrl(target, s))
    requires n.script != [] && n.script[0] == Answered(r) && IsErrorStatus(r.status)
    ensures ProcessRefresh(s, n, target) == Step(Raised(HttpError(r.status)), s, Net(n.script[1..], n.sent + [RefreshRequest(s, target)]))
  {
  }

  /** A refresh answered with a success status and both tokens replaces both, and
      conversely a refresh that returns normally has taken both tokens from such a reply. */
  lemma RefreshSuccessTakesBody(s: ClientState, n: Net, target: RefreshTarget)
    ensures var st := ProcessRefresh(s, n, target);
      st.outcome.Ok? <==>
        && Dispatchable(RefreshTargetUrl(target, s))
        && n.script != [] && n.script[0].Answered?
        && var r := n.script[0].response;
        && !IsErrorStatus(r.status)
        && r.json.Some? && r.json.value.JDict?
        && var m := r.json.value.fields;
        && ACCESS_KEY in m && AsToken(m[ACCESS_KEY]).Some?
        && REFRESH_KEY in m && AsToken(m[REFRESH_KEY]).Some?
        && st.client == s.(accessToken := AsToken(m[ACCESS_KEY]).value, refreshToken := AsToken(m[REFRESH_KEY]).value)
  {
  }

  /** A success body without `access_token` raises KeyError and changes nothing. */
  lemma RefreshMissingAccessKeepsTokens(s: ClientState, n: Net, target: RefreshTarget, status: int, m: map<string, Json>)
    requires Dispatchable(RefreshTargetUrl(target, s)) && !IsErrorStatus(status)
    requires n.script != [] && n.script[0] == Answered(Response(status, Some(JDict(m))))
    requires ACCESS_KEY !in m
    ensures var st := ProcessRefresh(s, n, target);
      st.outcome == Raised(KeyError(ACCESS_KEY)) && st.client == s
  {
  }

  /** A success body with `access_token` but without `refresh_token` raises KeyError
      after the access token has already been overwritten: the update is partial. */
  lemma RefreshMissingRefreshIsPartial(s: ClientState, n: Net, target: RefreshTarget, status: int, m: map<string, Json>, a: string)
    requires Dispatchable(RefreshTargetUrl(target, s)) && !IsErrorStatus(status)
    requires n.script != [] && n.script[0] == Answered(Response(status, Some(JDict(m))))
    requires ACCESS_KEY in m && m[ACCESS_KEY] == JStr(a) && REFRESH_KEY !in m
    ensures var st := ProcessRefresh(s, n, target);
      && st.outcome == Raised(KeyError(REFRESH_KEY))
      && st.client == s.(accessToken := Some(a))
      && AuthHeaders(st.client.accessToken)["Authorization"] == BEARER + a
  {
  }

  /** As written, the refresh POST goes to the refresh token's value. A token without
      an http(s) scheme is refused by the transport: the POST is never sent, nothing
      changes, and the refresh endpoint is never reached. */
  lemma AsWrittenRefreshNeverSent(s: ClientState, n: Net)
    requires !Dispatchable(PyStr(s.refreshToken))
    ensures RefreshRequest(s, TokenValue).url == PyStr(s.refreshToken)
    ensures ProcessRefresh(s, n, TokenValue) == Step(Raised(InvalidUrl(PyStr(s.refreshToken))), s, n)
  {
  }

  /** With the refresh endpoint as the target, the POST carries the refresh token to
      `api_url + "/v1/token/refresh"`, and a success reply with both tokens installs them
      and makes the next Authorization header carry the new access token. */
  lemma CorrectedRefreshUpdatesTokens(s: ClientState, n: Net, status: int, a: string, r: string)
    requires Dispatchable(PyStr(s.apiUrl)) && !IsErrorStatus(status)
    requires n.script != []
    requires n.script[0] == Answered(Response(status, Some(JDict(map[ACCESS_KEY := JStr(a), REFRESH_KEY := JStr(r)]))))
    ensures var st := ProcessRefresh(s, n, RefreshEndpoint);
      && st.outcome == Ok(())
      && st.client == s.(accessToken := Some(a), refreshToken := Some(r))
      && st.net.sent == n.sent + [Request(POST, RefreshUrl(s.apiUrl), HEADERS, Some(JDict(map["token" := TokenJson(s.refreshToken)])))]
      && AuthHeaders(st.client.accessToken)["Authorization"] == BEARER + a
  {
    RefreshUrlRoundTrip(s.apiUrl);
  }

  /** The call `request` wraps: `_get_metadata` as written, which raises for an error
      status itself, or the bare GET, which leaves the status to `request`. */
  datatype Func = CheckedGet | PlainGet

  /** What `request` runs on a 401: line 85 as written calls the string attribute
      `refresh_token`, which raises TypeError; the intent is process_refresh_token. */
  datatype Hook = CallRefreshTokenAttribute | RefreshHook(target: RefreshTarget)

  /** How get_metadata is assembled. */
  datatype Wiring = Wiring(func: Func, hook: Hook)

  const AS_WRITTEN: Wiring := Wiring(CheckedGet, CallRefreshTokenAttribute)
  const CORRECTED: Wiring := Wiring(PlainGet, RefreshHook(RefreshEndpoint))

  function InvokeOutcome(func: Func, s: ClientState, n: Net): (st: Step<Response>)
    ensures st.client == s
  {
    var e := Deliver(n, MetadataRequest(s));
    match func
    case PlainGet => Step(e.outcome, s, e.net)
    case CheckedGet =>
      match e.outcome
      case Raised(f) => Step(Raised(f), s, e.net)
      case Ok(r) => Step(RaiseForStatus(r), s, e.net)
  }

  function HookOutcome(hook: Hook, s: ClientState, n: Net): Step<()> {
    match hook
    case CallRefreshTokenAttribute => Step(Raised(TypeError), s, n)
    case RefreshHook(target) => ProcessRefresh(s, n, target)
  }

  /** `request(func)`: call, and on a 401 run the hook and call once more; then raise
      for an error status of the last response. */
  function RequestOutcome(func: Func, hook: Hook, s: ClientState, n: Net): Step<Response> {
    var first := InvokeOutcome(func, s, n);
    match first.outcome
    case Raised(f) => first
    case Ok(r1) =>
      if CheckUnauthenticatedResponse(r1) then
        var h := HookOutcome(hook, s, first.net);
        match h.outcome
        case Raised(f) => Step(Raised(f), h.client, h.net)
        case Ok(_) =>
          var second := InvokeOutcome(func, h.client, h.net);
          match second.outcome
          case Raised(f) => second
          case Ok(r2) => Step(RaiseForStatus(r2), second.client, second.net)
      else Step(RaiseForStatus(r1), s, first.net)
  }

  /** `get_metadata`: the decoded body of the response `request` returns. */
  function MetadataOutcome(w: Wiring, s: ClientState, n: Net): Step<Json> {
    var st := RequestOutcome(w.func, w.hook, s, n);
    match st.outcome
    case Raised(f) => Step(Raised(f), st.client, st.net)
    case Ok(r) =>
      match r.json
      case None => Step(Raised(DecodeError), st.client, st.net)
      case Some(doc) => Step(Ok(doc), st.client, st.net)
  }

  /** The requests one call sends, after those sent before it. */
  function Added(before: Net, after: Net): seq<Request>
    requires |before.sent| <= |after.sent|
  {
    after.sent[|before.sent|..]
  }

  lemma InvokeSendsOneGet(func: Func, s: ClientState, n: Net)
    ensures var st := InvokeOutcome(func, s, n);
      && (st.net.sent == n.sent || st.net.sent == n.sent + [MetadataRequest(s)])
      && (st.outcome.Ok? ==> st.net.sent == n.sent + [MetadataRequest(s)] && n.script != []
                             && n.script[0].Answered? && st.outcome.value == n.script[0].response)
  {
  }

  lemma HookSendsOnePost(hook: Hook, s: ClientState, n: Net)
    ensures var st := HookOutcome(hook, s, n);
      || (st.outcome.Raised? && st.net.sent == n.sent)
      || (|st.net.sent| == |n.sent| + 1 && st.net.sent[..|n.sent|] == n.sent && st.net.sent[|n.sent|].verb == POST)
  {
    match hook
    case CallRefreshTokenAttribute =>
    case RefreshHook(target) => RefreshFrame(s, n, target);
  }

  /** Which step's network state `request` ends in. */
  lemma RequestEndsAfter(func: Func, hook: Hook, s: ClientState, n: Net)
    ensures var st := RequestOutcome(func, hook, s, n);
      var first := InvokeOutcome(func, s, n);
      var h := HookOutcome(hook, s, first.net);
      && (first.outcome.Raised? ==> st.net == first.net)
      && (first.outcome.Ok? && first.outcome.value.status != 401 ==> st.net == first.net)
      && (first.outcome.Ok? && first.outcome.value.status == 401 && h.outcome.Raised? ==> st.net == h.net)
      && (first.outcome.Ok? && first.outcome.value.status == 401 && h.outcome.Ok? ==>
            st.net == InvokeOutcome(func, h.client, h.net).net)
  {
  }

  /** What `request` returns: the last response it got, raised as `HttpError` when its
      status is an error status, or the fault of the step that raised; a normal return
      never carries an error status. The client changes only through the hook. */
  lemma RequestReturns(func: Func, hook: Hook, s: ClientState, n: Net)
    ensures var st := RequestOutcome(func, hook, s, n);
      var first := InvokeOutcome(func, s, n);
      var h := HookOutcome(hook, s, first.net);
      var second := InvokeOutcome(func, h.client, h.net);
      && (first.outcome.Raised? ==> st.outcome == Raised(first.outcome.fault))
      && (first.outcome.Ok? && first.outcome.value.status != 401 ==> st.outcome == RaiseForStatus(first.outcome.value))
      && (first.outcome.Ok? && first.outcome.value.status == 401 && h.outcome.Raised? ==>
            st.outcome == Raised(h.outcome.fault))
      && (first.outcome.Ok? && first.outcome.value.status == 401 && h.outcome.Ok? && second.outcome.Ok? ==>
            st.outcome == RaiseForStatus(second.outcome.value))
      && (first.outcome.Ok? && first.outcome.value.status == 401 && h.outcome.Ok? && second.outcome.Raised? ==>
            st.outcome == Raised(second.outcome.fault))
      && (st.outcome.Ok? ==> !IsErrorStatus(st.outcome.value.status))
      && (first.outcome.Ok? && first.outcome.value.status == 401 ==> st.client == h.client)
      && (!(first.outcome.Ok? && first.outcome.value.status == 401) ==> st.client == s)
  {
  }

  /** What `get_metadata` returns: the JSON body of a response `request` returned normally,
      which therefore has no error status. */
  lemma MetadataReturns(w: Wiring, s: ClientState, n: Net)
    ensures var st := MetadataOutcome(w, s, n);
      var rq := RequestOutcome(w.func, w.hook, s, n);
      && st.client == rq.client && st.net == rq.net
      && (st.outcome.Ok? <==> rq.outcome.Ok? && rq.outcome.value.json.Some?)
      && (st.outcome.Ok? ==> !IsErrorStatus(rq.outcome.value.status) && rq.outcome.value.json == Some(st.outcome.value))
      && (rq.outcome.Raised? ==> st.outcome == Raised(rq.outcome.fault))
      && (rq.outcome.Ok? && rq.outcome.value.json.None? ==> st.outcome == Raised(DecodeError))
  {
    RequestReturns(w.func, w.hook, s, n);
  }

  /** The intended protocol with a server error on the retry: 401, new tokens, then 500
      raise `HttpError(500)`, with the new tokens kept. */
  lemma CorrectedRetryServerError(s: ClientState, n: Net, a: string, r: string, rest: seq<Reply>)
    requires Dispatchable(PyStr(s.apiUrl))
    requires n.script == [Answered(Response(401, None)),
                          Answered(Response(200, Some(JDict(map[ACCESS_KEY := JStr(a), REFRESH_KEY := JStr(r)])))),
                          Answered(Response(500, None))] + rest
    ensures var st := MetadataOutcome(CORRECTED, s, n);
      && st.outcome == Raised(HttpError(500))
      && st.client == s.(accessToken := Some(a), refreshToken := Some(r))
      && st.net.script == rest
  {
    MetadataUrlDispatchable(s);
    var s' := s.(accessToken := Some(a), refreshToken := Some(r));
    MetadataUrlDispatchable(s');
    var first := InvokeOutcome(PlainGet, s, n);
    CorrectedRefreshUpdatesTokens(s, first.net, 200, a, r);
    var h := HookOutcome(RefreshHook(RefreshEndpoint), s, first.net);
    assert h.client == s';
    assert h.net.script == [Answered(Response(500, None))] + rest;
  }

  /** `request` performs the call at most twice, runs the hook at most once and only
      between the two calls, and makes the second call only when the first response
      was a 401: the requests it sends are none, a GET, a GET and the refresh POST,
      or GET, POST, GET. */
  lemma RequestAtMostTwice(func: Func, hook: Hook, s: ClientState, n: Net)
    ensures var st := RequestOutcome(func, hook, s, n);
      && |n.sent| <= |st.net.sent| && st.net.sent[..|n.sent|] == n.sent
      && Verbs(Added(n, st.net)) in {[], [GET], [GET, POST], [GET, POST, GET]}
      && (|Added(n, st.net)| >= 2 ==> n.script != [] && n.script[0].Answered? && n.script[0].response.status == 401)
  {
    var st := RequestOutcome(func, hook, s, n);
    var first := InvokeOutcome(func, s, n);
    var h := HookOutcome(hook, s, first.net);
    var second := InvokeOutcome(func, h.client, h.net);
    RequestEndsAfter(func, hook, s, n);
    InvokeSendsOneGet(func, s, n);
    var g1 := MetadataRequest(s);
    if first.outcome.Raised? || first.outcome.value.status != 401 {
      assert st.net == first.net;
      if first.net.sent == n.sent {
        assert Added(n, st.net) == [];
      } else {
        assert Added(n, st.net) == [g1];
        assert Verbs(Added(n, st.net)) == [GET];
      }
    } else {
      assert first.net.sent == n.sent + [g1];
      HookSendsOnePost(hook, s, first.net);
      if h.net.sent == first.net.sent {
        assert Added(n, st.net) == [g1];
        assert Verbs(Added(n, st.net)) == [GET];
      } else {
        var p := h.net.sent[|first.net.sent|];
        assert h.net.sent == n.sent + [g1, p];
        if h.outcome.Raised? {
          assert Added(n, st.net) == [g1, p];
          assert Verbs(Added(n, st.net)) == [GET, POST];
        } else {
          InvokeSendsOneGet(func, h.client, h.net);
          if second.net.sent == h.net.sent {
            assert Added(n, st.net) == [g1, p];
            assert Verbs(Added(n, st.net)) == [GET, POST];
          } else {
            assert Added(n, st.net) == [g1, p, MetadataRequest(h.client)];
            assert Verbs(Added(n, st.net)) == [GET, POST, GET];
          }
        }
      }
    }
  }

  /** A 401 answered again with a 401 after a successful refresh is not retried a
      third time: `request` raises HttpError(401) after exactly GET, POST, GET. */
  lemma RequestSecond401Raises(func: Func, hook: Hook, s: ClientState, n: Net)
    requires var first := InvokeOutcome(func, s, n);
      && first.outcome.Ok? && first.outcome.value.status == 401
      && var h := HookOutcome(hook, s, first.net);
      && h.outcome.Ok?
      && var second := InvokeOutcome(func, h.client, h.net);
      && second.outcome.Ok? && second.outcome.value.status == 401
    ensures var st := RequestOutcome(func, hook, s, n);
      && st.outcome == Raised(HttpError(401))
      && Verbs(st.net.sent[|n.sent|..]) == [GET, POST, GET]
  {
    var first := InvokeOutcome(func, s, n);
    var h := HookOutcome(hook, s, first.net);
    InvokeSendsOneGet(func, s, n);
    HookSendsOnePost(hook, s, first.net);
    InvokeSendsOneGet(func, h.client, h.net);
    RequestAtMostTwice(func, hook, s, n);
    assert first.net.sent == n.sent + [MetadataRequest(s)];
    assert h.net.sent != first.net.sent;
  }

  /** As written, `_get_metadata` raises for every error status, 401 included, before
      `request` can look at it: get_metadata never refreshes, never retries, sends at
      most the one GET, and never changes the client. */
  lemma AsWrittenGetMetadataNeverRetries(s: ClientState, n: Net)
    ensures var st := MetadataOutcome(AS_WRITTEN, s, n);
      && st.client == s
      && (st.net.sent == n.sent || st.net.sent == n.sent + [MetadataRequest(s)])
      && (Dispatchable(MetadataUrl(s)) && n.script != [] && n.script[0].Answered?
          && IsErrorStatus(n.script[0].response.status)
          ==> st.outcome == Raised(HttpError(n.script[0].response.status)))
  {
  }

  /** With the 401 reaching `request`, the hook as written raises TypeError: one GET
      is sent, no refresh happens and there is no retry. */
  lemma AsWrittenHookRaises(s: ClientState, n: Net, r: Response)
    requires Dispatchable(MetadataUrl(s)) && n.script != [] && n.script[0] == Answered(r) && r.status == 401
    ensures RequestOutcome(PlainGet, CallRefreshTokenAttribute, s, n)
         == Step(Raised(TypeError), s, Net(n.script[1..], n.sent + [MetadataRequest(s)]))
  {
  }

  /** With the hook calling process_refresh_token against the refresh endpoint, a 401
      on the first GET is followed by the refresh POST, carrying the refresh token to
      `api_url + "/v1/token/refresh"`, before anything else is sent. */
  lemma CorrectedHookRefreshes(s: ClientState, n: Net, r: Response)
    requires Dispatchable(PyStr(s.apiUrl))
    requires n.script != [] && n.script[0] == Answered(r) && r.status == 401
    ensures var st := RequestOutcome(PlainGet, RefreshHook(RefreshEndpoint), s, n);
      && |st.net.sent| >= |n.sent| + 2
      && st.net.sent[|n.sent|] == MetadataRequest(s)
      && st.net.sent[|n.sent| + 1] == RefreshRequest(s, RefreshEndpoint)
      && st.net.sent[|n.sent| + 1].url == RefreshUrl(s.apiUrl)
  {
    MetadataUrlDispatchable(s);
    RefreshUrlRoundTrip(s.apiUrl);
    var first := InvokeOutcome(PlainGet, s, n);
    var h := HookOutcome(RefreshHook(RefreshEndpoint), s, first.net);
    assert h.net.sent == n.sent + [MetadataRequest(s), RefreshRequest(s, RefreshEndpoint)];
    RequestEndsAfter(PlainGet, RefreshHook(RefreshEndpoint), s, n);
    InvokeSendsOneGet(PlainGet, h.client, h.net);
  }

  /** The intended protocol: a first GET answered 401, a refresh answered with new
      tokens, and a retried GET answered with a JSON document, yield that document;
      the client then holds the new tokens and the retry carried the new access token. */
  lemma CorrectedRefreshAndRetry(s: ClientState, n: Net, status: int, a: string, r: string, doc: Json, rest: seq<Reply>)
    requires Dispatchable(PyStr(s.apiUrl))
    requires !IsErrorStatus(status)
    requires n.script == [Answered(Response(401, None)),
                          Answered(Response(200, Some(JDict(map[ACCESS_KEY := JStr(a), REFRESH_KEY := JStr(r)])))),
                          Answered(Response(status, Some(doc)))] + rest
    ensures var st := MetadataOutcome(CORRECTED, s, n);
      var s' := s.(accessToken := Some(a), refreshToken := Some(r));
      && st.outcome == Ok(doc)
      && st.client == s'
      && st.net.script == rest
      && st.net.sent == n.sent + [MetadataRequest(s), RefreshRequest(s, RefreshEndpoint), MetadataRequest(s')]
      && st.net.sent[|n.sent| + 2].headers["Authorization"] == BEARER + a
  {
    MetadataUrlDispatchable(s);
    RefreshUrlRoundTrip(s.apiUrl);
    var s' := s.(accessToken := Some(a), refreshToken := Some(r));
    MetadataUrlDispatchable(s');
    var first := InvokeOutcome(PlainGet, s, n);
    assert first.outcome == Ok(Response(401, None));
    var h := HookOutcome(RefreshHook(RefreshEndpoint), s, first.net);
    CorrectedRefreshUpdatesTokens(s, first.net, 200, a, r);
    assert h.client == s';
    assert h.net.script == [Answered(Response(status, Some(doc)))] + rest;
  }

  /** The intended protocol with a second 401: HttpError(401), after exactly one refresh. */
  lemma CorrectedSecond401Fails(s: ClientState, n: Net, a: string, r: string, rest: seq<Reply>)
    requires Dispatchable(PyStr(s.apiUrl))
    requires n.script == [Answered(Response(401, None)),
                          Answered(Response(200, Some(JDict(map[ACCESS_KEY := JStr(a), REFRESH_KEY := JStr(r)])))),
                          Answered(Response(401, None))] + rest
    ensures var st := MetadataOutcome(CORRECTED, s, n);
      && st.outcome == Raised(HttpError(401))
      && st.net.script == rest
      && Verbs(st.net.sent[|n.sent|..]) == [GET, POST, GET]
  {
    MetadataUrlDispatchable(s);
    var s' := s.(accessToken := Some(a), refreshToken := Some(r));
    MetadataUrlDispatchable(s');
    var first := InvokeOutcome(PlainGet, s, n);
    CorrectedRefreshUpdatesTokens(s, first.net, 200, a, r);
    var h := HookOutcome(RefreshHook(RefreshEndpoint), s, first.net);
    assert h.client == s';
    RequestSecond401Raises(PlainGet, RefreshHook(RefreshEndpoint), s, n);
  }

  /** A heat resource client: its seven attributes, of which the two tokens are
      replaced in place by a refresh. */
  class HeatResourceClient {
    var apiUrl: Option<string>
    var regionId: Option<int>
    var projectId: Option<int>
    var accessToken: Option<string>
    var refreshToken: Option<string>
    var stackId: Option<string>
    var resourceName: Option<string>

    function State(): ClientState
      reads this
    {
      ClientState(apiUrl, regionId, projectId, accessToken, refreshToken, stackId, resourceName)
    }

    constructor (apiUrl: Option<string>, regionId: Option<int>, projectId: Option<int>,
                 stackId: Option<string>, resourceName: Option<string>,
                 accessToken: Option<string>, refreshToken: Option<string>)
      ensures State() == ClientState(apiUrl, regionId, projectId, accessToken, refreshToken, stackId, resourceName)
    {
      this.apiUrl := apiUrl;
      this.regionId := regionId;
      this.projectId := projectId;
      this.accessToken := accessToken;
      this.refreshToken := refreshToken;
      this.stackId := stackId;
      this.resourceName := resourceName;
    }

    static method FromConf(conf: Conf) returns (c: HeatResourceClient)
      ensures fresh(c) && c.State() == ConfState(conf)
    {
      c := new HeatResourceClient(conf.apiUrl, conf.regionId, conf.projectId, conf.stackId,
                                  conf.resourceName, conf.accessToken, conf.refreshToken);
    }

    method ProcessRefreshToken(net: Transport, target: RefreshTarget) returns (o: Outcome<()>)
      modifies this, net
      ensures Step(o, State(), net.Model()) == ProcessRefresh(old(State()), old(net.Model()), target)
    {
      var body := JDict(map["token" := TokenJson(refreshToken)]);
      var sent := net.Send(Http.Request(POST, RefreshTargetUrl(target, State()), HEADERS, Some(body)));
      if sent.Raised? {
        return Raised(sent.fault);
      }
      var response := sent.value;
      if IsErrorStatus(response.status) {
        return Raised(HttpError(response.status));
      }
      if response.json.None? {
        return Raised(DecodeError);
      }
      var tokens := response.json.value;
      if !tokens.JDict? {
        return Raised(TypeError);
      }
      if ACCESS_KEY !in tokens.fields {
        return Raised(KeyError(ACCESS_KEY));
      }
      var a := AsToken(tokens.fields[ACCESS_KEY]);
      if a.None? {
        return Raised(DecodeError);
      }
      accessToken := a.value;
      if REFRESH_KEY !in tokens.fields {
        return Raised(KeyError(REFRESH_KEY));
      }
      var r := AsToken(tokens.fields[REFRESH_KEY]);
      if r.None? {
        return Raised(DecodeError);
      }
      refreshToken := r.value;
      o := Ok(());
    }

    /** `func()`: the metadata GET, with or without its own status check. */
    method Invoke(net: Transport, func: Func) returns (o: Outcome<Response>)
      modifies net
      ensures Step(o, State(), net.Model()) == InvokeOutcome(func, State(), old(net.Model()))
    {
      var response := net.Send(Http.Request(GET, MetadataUrl(State()), AuthHeaders(accessToken), None));
      o := response;
      if func == CheckedGet && response.Ok? {
        o := RaiseForStatus(response.value);
      }
    }

    method RunHook(net: Transport, hook: Hook) returns (o: Outcome<()>)
      modifies this, net
      ensures Step(o, State(), net.Model()) == HookOutcome(hook, old(State()), old(net.Model()))
    {
      match hook
      case CallRefreshTokenAttribute =>
        o := Raised(TypeError);
      case RefreshHook(target) =>
        o := ProcessRefreshToken(net, target);
    }

    method Request(net: Transport, func: Func, hook: Hook) returns (o: Outcome<Response>)
      modifies this, net
      ensures Step(o, State(), net.Model()) == RequestOutcome(func, hook, old(State()), old(net.Model()))
    {
      var response := Invoke(net, func);
      if response.Raised? {
        return response;
      }
      if CheckUnauthenticatedResponse(response.value) {
        var refreshed := RunHook(net, hook);
        if refreshed.Raised? {
          return Raised(refreshed.fault);
        }
        response := Invoke(net, func);
        if response.Raised? {
          return response;
        }
      }
      o := RaiseForStatus(response.value);
    }

    /** get_metadata assembled by the given wiring. */
    method GetMetadataVia(net: Transport, w: Wiring) returns (o: Outcome<Json>)
      modifies this, net
      ensures Step(o, State(), net.Model()) == MetadataOutcome(w, old(State()), old(net.Model()))
    {
      var response := Request(net, w.func, w.hook);
      if response.Raised? {
        return Raised(response.fault);
      }
      if response.value.json.None? {
        return Raised(DecodeError);
      }
      o := Ok(response.value.json.value);
    }

    /** get_metadata as the source wires it. */
    method GetMetadata(net: Transport) returns (o: Outcome<Json>)
      modifies this, net
      ensures Step(o, State(), net.Model()) == MetadataOutcome(AS_WRITTEN, old(State()), old(net.Model()))
      ensures State() == old(State())
    {
      o := GetMetadataVia(net, AS_WRITTEN);
      AsWrittenGetMetadataNeverRetries(old(State()), old(net.Model()));
    }
  }
}
