/** The gcore collector: it checks that the seven settings are present, builds the
    client from them unless one was injected, fetches the metadata and hands it to
    the merger under the collector's name. */
module Gcore {
  import opened Wrappers
  import opened Http
  import opened Settings
  import C = GcoreClient

  const NAME := "gcore"

  /** The order in which `collect` checks the settings. */
  const VALIDATION_ORDER: seq<FieldName> :=
    [ApiUrl, AccessToken, RefreshToken, ProjectId, RegionId, StackId, ResourceName]

  /** The guard chain of `collect`: the first unset setting, if any. */
  function FirstMissing(conf: Conf): Option<FieldName> {
    if conf.apiUrl.None? then Some(ApiUrl)
    else if conf.accessToken.None? then Some(AccessToken)
    else if conf.refreshToken.None? then Some(RefreshToken)
    else if conf.projectId.None? then Some(ProjectId)
    else if conf.regionId.None? then Some(RegionId)
    else if conf.stackId.None? then Some(StackId)
    else if conf.resourceName.None? then Some(ResourceName)
    else None
  }

  /** A reference scan: the first name in `names` whose setting is unset. */
  function FirstAbsent(conf: Conf, names: seq<FieldName>): (f: Option<FieldName>)
    ensures f.Some? ==> f.value in names && !Present(conf, f.value)
  {
    if names == [] then None
    else if !Present(conf, names[0]) then Some(names[0])
    else FirstAbsent(conf, names[1..])
  }

  /** The scan finds nothing exactly when every name is set. */
  lemma {:induction false} FirstAbsentNone(conf: Conf, names: seq<FieldName>)
    ensures FirstAbsent(conf, names).None? <==> forall i :: 0 <= i < |names| ==> Present(conf, names[i])
  {
    if names != [] {
      FirstAbsentNone(conf, names[1..]);
      if Present(conf, names[0]) {
        assert forall i :: 1 <= i < |names| ==> names[i] == names[1..][i - 1];
      }
    }
  }

  /** An unset name preceded only by set names is the one the scan reports. */
  lemma {:induction false} FirstAbsentIsFirst(conf: Conf, names: seq<FieldName>, i: nat)
    requires i < |names| && !Present(conf, names[i])
    requires forall j :: 0 <= j < i ==> Present(conf, names[j])
    ensures FirstAbsent(conf, names) == Some(names[i])
  {
    if i > 0 {
      assert Present(conf, names[0]);
      assert forall j :: 0 <= j < i - 1 ==> names[1..][j] == names[j + 1];
      FirstAbsentIsFirst(conf, names[1..], i - 1);
    }
  }

  /** The guard chain of `collect` is the scan of VALIDATION_ORDER. */
  lemma FirstMissingScansInOrder(conf: Conf)
    ensures FirstMissing(conf) == FirstAbsent(conf, VALIDATION_ORDER)
  {
    var o := VALIDATION_ORDER;
    assert o[7..] == [];
    ScanStep(conf, o, 6);
    ScanStep(conf, o, 5);
    ScanStep(conf, o, 4);
    ScanStep(conf, o, 3);
    ScanStep(conf, o, 2);
    ScanStep(conf, o, 1);
    ScanStep(conf, o, 0);
  }

  lemma ScanStep(conf: Conf, names: seq<FieldName>, i: nat)
    requires i < |names|
    ensures FirstAbsent(conf, names[i..])
         == if !Present(conf, names[i]) then Some(names[i]) else FirstAbsent(conf, names[i + 1..])
  {
    assert names[i..][1..] == names[i + 1..];
  }

  /** `collect` reports the first unset setting in the fixed order, and reports none
      exactly when all seven are set. */
  lemma FirstMissingIsFirstUnset(conf: Conf)
    ensures FirstMissing(conf).None? <==> forall i :: 0 <= i < |VALIDATION_ORDER| ==> Present(conf, VALIDATION_ORDER[i])
    ensures forall i :: 0 <= i < |VALIDATION_ORDER| && !Present(conf, VALIDATION_ORDER[i])
                        && (forall j :: 0 <= j < i ==> Present(conf, VALIDATION_ORDER[j]))
                        ==> FirstMissing(conf) == Some(VALIDATION_ORDER[i])
    ensures FirstMissing(conf).Some? ==> !Present(conf, FirstMissing(conf).value)
  {
    FirstMissingScansInOrder(conf);
    FirstAbsentNone(conf, VALIDATION_ORDER);
    forall i | 0 <= i < |VALIDATION_ORDER| && !Present(conf, VALIDATION_ORDER[i])
               && (forall j :: 0 <= j < i ==> Present(conf, VALIDATION_ORDER[j]))
      ensures FirstMissing(conf) == Some(VALIDATION_ORDER[i])
    {
      FirstAbsentIsFirst(conf, VALIDATION_ORDER, i);
    }
  }

  /** The settings `collect` checks are exactly those `from_conf` reads: once the
      checks pass, every attribute of the client built from the configuration is set. */
  lemma ValidatedFieldsAreClientFields(conf: Conf)
    ensures forall f :: f in VALIDATION_ORDER <==> f in C.FIELDS
    ensures FirstMissing(conf).None? ==>
      forall i :: 0 <= i < |C.FIELDS| ==> C.Attr(C.ConfState(conf), C.FIELDS[i]).IsSet()
  {
    C.FieldsAreEverySettingOnce();
    forall f: FieldName ensures f in VALIDATION_ORDER {
      match f
      case ApiUrl => assert VALIDATION_ORDER[0] == f;
      case AccessToken => assert VALIDATION_ORDER[1] == f;
      case RefreshToken => assert VALIDATION_ORDER[2] == f;
      case ProjectId => assert VALIDATION_ORDER[3] == f;
      case RegionId => assert VALIDATION_ORDER[4] == f;
      case StackId => assert VALIDATION_ORDER[5] == f;
      case ResourceName => assert VALIDATION_ORDER[6] == f;
    }
  }

  /** One entry of the merged list: a source name and its content. */
  type Entry = (string, Json)

  /** `merger.merged_list_from_content(content, deployment_key, collector_name)`;
      `None` stands for the merger raising. */
  type Merger = (Json, string, string) -> Option<seq<Entry>>

  /** What `collect` raises or returns: NotConfigured naming the first unset setting
      (the name the log message carries), NotAvailable, or the merged list. */
  datatype CollectResult = NotConfigured(field: string) | NotAvailable | Merged(list: seq<Entry>)

  datatype CollectStep = CollectStep(result: CollectResult, client: Option<C.ClientState>, net: Net)

  /** One `collect`, with get_metadata assembled by `w`: `client` is the collector's
      client attribute (None until one is built or injected). */
  function CollectOutcome(w: C.Wiring, conf: Conf, client: Option<C.ClientState>, n: Net,
                          merge: Merger, deploymentKey: string): CollectStep
  {
    match FirstMissing(conf)
    case Some(f) => CollectStep(NotConfigured(Key(f)), client, n)
    case None =>
      var s := if client.Some? then client.value else C.ConfState(conf);
      var got := C.MetadataOutcome(w, s, n);
      var result :=
        match got.outcome
        case Raised(_) => NotAvailable
        case Ok(doc) =>
          (match merge(doc, deploymentKey, NAME)
           case None => NotAvailable
           case Some(list) => Merged(list));
      CollectStep(result, Some(got.client), got.net)
  }

  /** A missing setting is reported before anything else happens: NotConfigured with the
      first unset name, no client built, nothing sent. */
  lemma NotConfiguredStopsEarly(w: C.Wiring, conf: Conf, client: Option<C.ClientState>, n: Net, merge: Merger, key: string)
    requires FirstMissing(conf).Some?
    ensures CollectOutcome(w, conf, client, n, merge, key)
         == CollectStep(NotConfigured(Key(FirstMissing(conf).value)), client, n)
  {
  }

  /** NotConfigured is raised exactly when a setting is missing, so no network or merger
      failure is ever reported as NotConfigured and a missing setting is never turned
      into NotAvailable. */
  lemma TwoErrorKindsStayApart(w: C.Wiring, conf: Conf, client: Option<C.ClientState>, n: Net, merge: Merger, key: string)
    ensures var r := CollectOutcome(w, conf, client, n, merge, key).result;
      && (r.NotConfigured? <==> FirstMissing(conf).Some?)
      && (r.NotAvailable? || r.Merged? ==> forall f :: f in VALIDATION_ORDER ==> Present(conf, f))
  {
    FirstMissingIsFirstUnset(conf);
  }

  /** Once configured, an injected client is used as it is and a missing one is built
      from the configuration; either way the collector keeps it. Any failure of the
      fetch or of the merger is NotAvailable, and a success is exactly the merger's
      output for the document, the deployment key and "gcore". */
  lemma ConfiguredCollect(w: C.Wiring, conf: Conf, client: Option<C.ClientState>, n: Net, merge: Merger, key: string)
    requires FirstMissing(conf).None?
    ensures var used := if client.Some? then client.value else C.ConfState(conf);
      var got := C.MetadataOutcome(w, used, n);
      var st := CollectOutcome(w, conf, client, n, merge, key);
      && st.client == Some(got.client) && st.net == got.net
      && (got.outcome.Raised? ==> st.result == NotAvailable)
      && (got.outcome.Ok? && merge(got.outcome.value, key, NAME).None? ==> st.result == NotAvailable)
      && (got.outcome.Ok? && merge(got.outcome.value, key, NAME).Some? ==>
            st.result == Merged(merge(got.outcome.value, key, NAME).value))
  {
  }

  /** A merged list comes only from a configured collect whose fetch succeeded, and is what
      the merger made of the fetched document under the name "gcore". */
  lemma MergedIsMergerOutput(w: C.Wiring, conf: Conf, client: Option<C.ClientState>, n: Net, merge: Merger, key: string)
    requires CollectOutcome(w, conf, client, n, merge, key).result.Merged?
    ensures FirstMissing(conf).None?
    ensures var used := if client.Some? then client.value else C.ConfState(conf);
      var got := C.MetadataOutcome(w, used, n);
      && got.outcome.Ok?
      && merge(got.outcome.value, key, NAME) == Some(CollectOutcome(w, conf, client, n, merge, key).result.list)
  {
  }

  /** As the source wires get_metadata, one collect keeps the log it was given and adds
      at most the one metadata GET, and it returns an injected client unchanged. */
  lemma AsWrittenCollectIsOneShot(conf: Conf, client: Option<C.ClientState>, n: Net, merge: Merger, key: string)
    ensures var used := if client.Some? then client.value else C.ConfState(conf);
      var st := CollectOutcome(C.AS_WRITTEN, conf, client, n, merge, key);
      && (st.net.sent == n.sent || st.net.sent == n.sent + [C.MetadataRequest(used)])
      && (client.Some? ==> st.client == client)
  {
    if FirstMissing(conf).None? {
      var used := if client.Some? then client.value else C.ConfState(conf);
      C.AsWrittenGetMetadataNeverRetries(used, n);
    }
  }

  /** Two collects in a row against a server answering the same successful JSON response
      twice return the same result; each adds at most the one metadata GET to the log,
      and exactly that GET when the metadata URL can be dispatched. */
  lemma CollectTwiceSameResult(conf: Conf, client: Option<C.ClientState>, n: Net, merge: Merger, key: string,
                               r: Response, rest: seq<Reply>)
    requires FirstMissing(conf).None? && !IsErrorStatus(r.status) && r.json.Some?
    requires n.script == [Answered(r), Answered(r)] + rest
    ensures var used := if client.Some? then client.value else C.ConfState(conf);
      var first := CollectOutcome(C.AS_WRITTEN, conf, client, n, merge, key);
      var second := CollectOutcome(C.AS_WRITTEN, conf, first.client, first.net, merge, key);
      && first.result == second.result
      && first.client == second.client
      && (first.net.sent == n.sent || first.net.sent == n.sent + [C.MetadataRequest(used)])
      && (second.net.sent == first.net.sent || second.net.sent == first.net.sent + [C.MetadataRequest(used)])
    ensures var used := if client.Some? then client.value else C.ConfState(conf);
      var first := CollectOutcome(C.AS_WRITTEN, conf, client, n, merge, key);
      var second := CollectOutcome(C.AS_WRITTEN, conf, first.client, first.net, merge, key);
      Dispatchable(C.MetadataUrl(used)) ==>
        && first.net.sent == n.sent + [C.MetadataRequest(used)]
        && second.net.sent == first.net.sent + [C.MetadataRequest(used)]
  {
    var used := if client.Some? then client.value else C.ConfState(conf);
    var first := CollectOutcome(C.AS_WRITTEN, conf, client, n, merge, key);
    C.AsWrittenGetMetadataNeverRetries(used, n);
    C.InvokeSendsOneGet(C.CheckedGet, used, n);
    if Dispatchable(C.MetadataUrl(used)) {
      assert first.net.script == [Answered(r)] + rest;
    } else {
      assert first.net == n;
    }
    C.AsWrittenGetMetadataNeverRetries(used, first.net);
  }

  /** The configuration of the repository's tests. */
  const TEST_CONF := Conf(Some("http://192.0.2.1:5000"), Some("0123456789ABCDEF"), Some("FEDCBA9876543210"),
                          Some(1), Some(1), Some("a/c482680f-7238-403d-8f76-36acf0c8e0aa"), Some("server"))

  /** The configuration with one setting unset. */
  function Unset(conf: Conf, f: FieldName): (c: Conf)
    ensures !Present(c, f)
    ensures forall g :: g != f ==> Lookup(c, g) == Lookup(conf, g)
  {
    match f
    case ApiUrl => conf.(apiUrl := None)
    case AccessToken => conf.(accessToken := None)
    case RefreshToken => conf.(refreshToken := None)
    case ProjectId => conf.(projectId := None)
    case RegionId => conf.(regionId := None)
    case StackId => conf.(stackId := None)
    case ResourceName => conf.(resourceName := None)
  }

  /** Unsetting any one setting of the test configuration makes collect raise NotConfigured
      naming that setting, whatever client is injected, with nothing sent. */
  lemma TestConfMissingSetting(f: FieldName, client: Option<C.ClientState>, n: Net, merge: Merger, key: string)
    ensures CollectOutcome(C.AS_WRITTEN, Unset(TEST_CONF, f), client, n, merge, key)
         == CollectStep(NotConfigured(Key(f)), client, n)
  {
  }

  lemma TestUrlsDispatchable()
    ensures Dispatchable("http://192.0.2.1:5000")
    ensures !Dispatchable("FEDCBA9876543210")
  {
    assert "http://192.0.2.1:5000"[..7] == "http://";
    assert "FEDCBA9876543210"[0] == 'F';
  }

  /** With the test configuration the refresh endpoint is the expected one and can be
      dispatched, but, as written, the refresh POST goes to the refresh token's value,
      which the transport refuses: the refresh endpoint is never reached. */
  lemma TestConfRefreshNeverSent(n: Net)
    ensures C.RefreshUrl(TEST_CONF.apiUrl) == "http://192.0.2.1:5000/v1/token/refresh"
    ensures Dispatchable(C.RefreshUrl(TEST_CONF.apiUrl))
    ensures C.ProcessRefresh(C.ConfState(TEST_CONF), n, C.TokenValue)
         == C.Step(Raised(InvalidUrl("FEDCBA9876543210")), C.ConfState(TEST_CONF), n)
  {
    TestUrlsDispatchable();
    C.RefreshUrlRoundTrip(TEST_CONF.apiUrl);
    C.AsWrittenRefreshNeverSent(C.ConfState(TEST_CONF), n);
  }

  /** The collector: its client attribute, built lazily on the first configured collect. */
  class Collector {
    var client: C.HeatResourceClient?

    constructor (client: C.HeatResourceClient?)
      ensures this.client == client
    {
      this.client := client;
    }

    function ClientModel(): Option<C.ClientState>
      reads this, client
    {
      if client == null then None else Some(client.State())
    }

    /** `collect`, reading the configuration `conf` and the deployment key. */
    method Collect(conf: Conf, deploymentKey: string, merge: Merger, net: Transport) returns (r: CollectResult)
      modifies this, client, net
      ensures var st := CollectOutcome(C.AS_WRITTEN, conf, old(ClientModel()), old(net.Model()), merge, deploymentKey);
        r == st.result && ClientModel() == st.client && net.Model() == st.net
      ensures old(client) != null ==> client == old(client)
      ensures old(client) == null ==> if r.NotConfigured? then client == null else fresh(client)
    {
      if conf.apiUrl.None? {
        return NotConfigured(Key(ApiUrl));
      }
      if conf.accessToken.None? {
        return NotConfigured(Key(AccessToken));
      }
      if conf.refreshToken.None? {
        return NotConfigured(Key(RefreshToken));
      }
      if conf.projectId.None? {
        return NotConfigured(Key(ProjectId));
      }
      if conf.regionId.None? {
        return NotConfigured(Key(RegionId));
      }
      if conf.stackId.None? {
        return NotConfigured(Key(StackId));
      }
      if conf.resourceName.None? {
        return NotConfigured(Key(ResourceName));
      }
      if client == null {
        client := C.HeatResourceClient.FromConf(conf);
      }
      var response := client.GetMetadata(net);
      if response.Raised? {
        return NotAvailable;
      }
      var merged := merge(response.value, deploymentKey, NAME);
      if merged.None? {
        return NotAvailable;
      }
      r := Merged(merged.value);
    }
  }
}
