/** `DatasetGatewayManager`: decides whether a deployed dataset is to be
    bound to an on-premises data gateway, lists the gateways the service
    suggests for it, and binds it. A manager is created once per deployment
    from the dataset's gateway options; `enabled` is fixed at that moment. */
module DatasetGatewayManager {
  import opened Wrappers
  import opened Guids
  import opened PowerBI
  import opened Deployments
  import opened DatasourceResolution

  /** The dataset's gateway options. `gatewayId` is an expression that may
      contain parameter and environment placeholders; `dataSources` holds
      datasource ids or names. */
  datatype GatewayOptions = GatewayOptions(gatewayId: Option<string>, discoverGateways: bool, dataSources: Option<seq<string>>)

  /** Deployment parameters by name, the input of placeholder expansion. */
  type Parameters = map<string, string>

  datatype Manager = Manager(options: Option<GatewayOptions>, client: Client, enabled: bool, whatIf: bool)
  {
    /** What construction guarantees and the operations rely on: an enabled
        manager has options. */
    predicate Valid()
    {
      enabled ==> options.Some?
    }
  }

  /** What a bind call did when it did not fail. */
  datatype BindOutcome = Disabled | WhatIfSkipped | NoGatewayId | Bound(request: BindRequest)

  /** The constructor: a missing client is rejected; the manager is enabled
      exactly when options are given and ask for a gateway id or for
      discovery. */
  function New(options: Option<GatewayOptions>, client: Option<Client>): (r: Result<Manager, DeployError>)
    ensures r.Failure? <==> client.None?
    ensures r.Failure? ==> r.error == ArgumentNull("powerBIClient")
    ensures r.Success? ==> r.value.Valid() && r.value.options == options && r.value.client == client.value && !r.value.whatIf
    ensures r.Success? ==>
      (r.value.enabled <==> options.Some? && (options.value.gatewayId.Some? || options.value.discoverGateways))
  {
    match client
    case None => Failure(ArgumentNull("powerBIClient"))
    case Some(c) =>
      var enabled := options.Some? && (options.value.gatewayId.Some? || options.value.discoverGateways);
      Success(Manager(options, c, enabled, false))
  }

  /** The `WhatIf` setter; `enabled` is never recomputed. */
  function SetWhatIf(m: Manager, whatIf: bool): (r: Manager)
    ensures r.whatIf == whatIf
    ensures r.enabled == m.enabled && r.options == m.options && r.client == m.client
    ensures m.Valid() ==> r.Valid()
  {
    m.(whatIf := whatIf)
  }

  /** Lists the gateways the service suggests for the dataset, when
      discovery is enabled and requested and a dataset id is given. */
  function DiscoverGateways(m: Manager, workspaceId: Guid, datasetId: Option<string>): (r: Run<Option<seq<Gateway>>>)
    requires m.Valid()
    ensures r.calls == [] <==> !(m.enabled && m.options.value.discoverGateways && datasetId.Some?)
    ensures r.calls == [] ==> r.outcome == Success(None)
    ensures r.calls != [] ==>
      && r.calls == [DiscoverGatewaysInGroup(workspaceId, datasetId.value)]
      && match m.client.discoverGateways(workspaceId, datasetId.value)
         case Success(gateways) => r.outcome == Success(Some(gateways))
         case Failure(e) => r.outcome == Failure(Remote(e))
  {
    if !m.enabled || !m.options.value.discoverGateways || datasetId.None? then Run(Success(None), [])
    else
      var call := DiscoverGatewaysInGroup(workspaceId, datasetId.value);
      match m.client.discoverGateways(workspaceId, datasetId.value)
      case Failure(e) => Run(Failure(Remote(e)), [call])
      case Success(gateways) => Run(Success(Some(gateways)), [call])
  }

  /** Binds the dataset to the gateway the options name: expands and parses
      the gateway id, resolves the datasources, then sends one request.
      Whatever happens, it makes at most two calls: at most one fetch of the
      gateway's datasources, first, and at most one bind request, last; it
      never calls discovery. */
  function BindToGateway(m: Manager, workspaceId: Guid, datasetId: Option<string>,
                         parameters: Parameters, expand: (string, Parameters) -> string): (r: Run<BindOutcome>)
    requires m.Valid()
    ensures |r.calls| <= 2
    ensures forall i :: 0 <= i < |r.calls| ==> !r.calls[i].DiscoverGatewaysInGroup?
    ensures forall i :: 0 <= i < |r.calls| && r.calls[i].GetDatasources? ==>
      i == 0 && Some(r.calls[i].gatewayId) == TargetGateway(m, parameters, expand)
    ensures forall i :: 0 <= i < |r.calls| && r.calls[i].BindToGatewayInGroup? ==> i == |r.calls| - 1
    ensures r.outcome.Success? && r.outcome.value.Bound? ==>
      r.calls != [] && r.calls[|r.calls| - 1] == BindToGatewayInGroup(workspaceId, datasetId, r.outcome.value.request)
  {
    if !m.enabled then Run(Success(Disabled), [])
    else if m.whatIf then Run(Success(WhatIfSkipped), [])
    else if m.options.value.gatewayId.None? then Run(Success(NoGatewayId), [])
    else
      var expression := m.options.value.gatewayId.value;
      match TryParse(expand(expression, parameters))
      case None => Run(Failure(InvalidGatewayId(expression)), [])
      case Some(gatewayId) =>
        var resolved := ResolveDatasetSources(gatewayId, m.options.value.dataSources, m.client);
        match resolved.outcome
        case Failure(e) => Run(Failure(e), resolved.calls)
        case Success(ids) =>
          var request := BindRequest(gatewayId, ids);
          var call := BindToGatewayInGroup(workspaceId, datasetId, request);
          match m.client.bindToGateway(workspaceId, datasetId, request)
          case Failure(e) => Run(Failure(Remote(e)), resolved.calls + [call])
          case Success(_) => Run(Success(Bound(request)), resolved.calls + [call])
  }

  // ----- Properties -----

  /** The gateway id the options name, once expanded and parsed. */
  function TargetGateway(m: Manager, parameters: Parameters, expand: (string, Parameters) -> string): (r: Option<Guid>)
    requires m.Valid()
  {
    if m.enabled && m.options.value.gatewayId.Some? then TryParse(expand(m.options.value.gatewayId.value, parameters))
    else None
  }

  ghost predicate HasBindCall(calls: seq<RemoteCall>)
  {
    exists i :: 0 <= i < |calls| && calls[i].BindToGatewayInGroup?
  }

  /** Discovery never depends on the gateway id: on a freshly built manager
      it calls the service exactly when the options request discovery and a
      dataset id is given. */
  lemma DiscoverOnlyWhenRequested(options: Option<GatewayOptions>, client: Client, whatIf: bool,
                                  workspaceId: Guid, datasetId: Option<string>)
    ensures New(options, Some(client)).Success?
    ensures var m := SetWhatIf(New(options, Some(client)).value, whatIf);
      var r := DiscoverGateways(m, workspaceId, datasetId);
      r.calls != [] <==> options.Some? && options.value.discoverGateways && datasetId.Some?
  {
  }

  /** Bind makes no call and raises no error when the manager is disabled,
      in what-if mode, or enabled for discovery only. */
  lemma BindNoOps(m: Manager, workspaceId: Guid, datasetId: Option<string>,
                  parameters: Parameters, expand: (string, Parameters) -> string)
    requires m.Valid()
    requires !m.enabled || m.whatIf || m.options.value.gatewayId.None?
    ensures var r := BindToGateway(m, workspaceId, datasetId, parameters, expand);
      r.calls == [] && r.outcome.Success? && !r.outcome.value.Bound?
  {
  }

  /** A gateway id expression that does not expand to a GUID fails the bind
      before any call, naming the expression. */
  lemma BindRejectsInvalidGatewayId(m: Manager, workspaceId: Guid, datasetId: Option<string>,
                                    parameters: Parameters, expand: (string, Parameters) -> string)
    requires m.Valid() && m.enabled && !m.whatIf && m.options.value.gatewayId.Some?
    requires TargetGateway(m, parameters, expand).None?
    ensures BindToGateway(m, workspaceId, datasetId, parameters, expand)
      == Run(Failure(InvalidGatewayId(m.options.value.gatewayId.value)), [])
  {
  }

  /** A bind request is sent exactly when the gateway id parses and every
      datasource resolves; it then carries that gateway and those ids, to
      the given dataset, and is the last call. */
  lemma BindRequestIff(m: Manager, workspaceId: Guid, datasetId: Option<string>,
                       parameters: Parameters, expand: (string, Parameters) -> string)
    requires m.Valid()
    ensures var r := BindToGateway(m, workspaceId, datasetId, parameters, expand);
      var target := TargetGateway(m, parameters, expand);
      && (HasBindCall(r.calls) <==>
            && !m.whatIf && target.Some?
            && ResolveDatasetSources(target.value, m.options.value.dataSources, m.client).outcome.Success?)
      && (HasBindCall(r.calls) ==>
            var request := BindRequest(target.value,
                                       ResolveDatasetSources(target.value, m.options.value.dataSources, m.client).outcome.value);
            && r.calls[|r.calls| - 1] == BindToGatewayInGroup(workspaceId, datasetId, request)
            && (r.outcome.Success? <==> m.client.bindToGateway(workspaceId, datasetId, request).Success?)
            && (r.outcome.Success? ==> r.outcome.value == Bound(request)))
  {
    var r := BindToGateway(m, workspaceId, datasetId, parameters, expand);
    var target := TargetGateway(m, parameters, expand);
    if m.enabled && !m.whatIf && target.Some? {
      var resolved := ResolveDatasetSources(target.value, m.options.value.dataSources, m.client);
      if resolved.outcome.Success? {
        assert r.calls[|r.calls| - 1].BindToGatewayInGroup?;
      } else {
        assert r.calls == resolved.calls;
      }
    }
  }

  /** Once the gateway id parses, the bind's calls are the resolution's
      calls, followed by the request when resolution succeeds; a failed
      resolution (a failed fetch or an unknown name) and a rejected request
      fail the bind with their own error, unchanged. A name among the
      datasources makes the fetch the bind's first call, and it happens once;
      without a name there is no fetch. */
  lemma BindPassesFailuresOn(m: Manager, workspaceId: Guid, datasetId: Option<string>,
                             parameters: Parameters, expand: (string, Parameters) -> string)
    requires m.Valid() && !m.whatIf && TargetGateway(m, parameters, expand).Some?
    ensures var r := BindToGateway(m, workspaceId, datasetId, parameters, expand);
      var gatewayId := TargetGateway(m, parameters, expand).value;
      var sources := m.options.value.dataSources;
      var res := ResolveDatasetSources(gatewayId, sources, m.client);
      && (res.outcome.Failure? ==> r == Run(Failure(res.outcome.error), res.calls))
      && (res.outcome.Success? ==>
            var request := BindRequest(gatewayId, res.outcome.value);
            && r.calls == res.calls + [BindToGatewayInGroup(workspaceId, datasetId, request)]
            && match m.client.bindToGateway(workspaceId, datasetId, request)
               case Failure(e) => r.outcome == Failure(Remote(e))
               case Success(_) => r.outcome == Success(Bound(request)))
      && (sources.Some? && !AllLiteral(sources.value) ==>
            r.calls != [] && r.calls[0] == GetDatasources(gatewayId)
            && forall i :: 0 < i < |r.calls| ==> r.calls[i] != GetDatasources(gatewayId))
      && (sources.None? || AllLiteral(sources.value) ==>
            forall i :: 0 <= i < |r.calls| ==> !r.calls[i].GetDatasources?)
  {
  }

  /** The request a successful bind sends lines up with the configured
      datasources: one id per entry, in order, each entry's denotation. */
  lemma BoundRequestMatchesOptions(m: Manager, workspaceId: Guid, datasetId: Option<string>,
                                   parameters: Parameters, expand: (string, Parameters) -> string)
    requires m.Valid()
    requires BindToGateway(m, workspaceId, datasetId, parameters, expand).outcome.Success?
    requires BindToGateway(m, workspaceId, datasetId, parameters, expand).outcome.value.Bound?
    ensures var request := BindToGateway(m, workspaceId, datasetId, parameters, expand).outcome.value.request;
      var sources := m.options.value.dataSources;
      && TargetGateway(m, parameters, expand) == Some(request.gatewayObjectId)
      && (request.datasourceObjectIds.None? <==> sources.None? || sources.value == [])
      && (request.datasourceObjectIds.Some? ==>
            var ids := request.datasourceObjectIds.value;
            && |ids| == |sources.value|
            && forall i :: 0 <= i < |ids| ==>
                 Some(ids[i]) == Denotation(ListedSources(request.gatewayObjectId, m.client), sources.value[i]))
  {
    var target := TargetGateway(m, parameters, expand).value;
    var sources := m.options.value.dataSources;
    if sources.Some? {
      ResolvePositional(target, sources.value, m.client);
    }
  }

  /** A name that no datasource of the gateway carries fails the bind with
      the first such name, after the single fetch and before any request. */
  lemma UnresolvedNameBlocksBind(m: Manager, workspaceId: Guid, datasetId: Option<string>,
                                 parameters: Parameters, expand: (string, Parameters) -> string,
                                 sources: seq<GatewayDatasource>)
    requires m.Valid() && !m.whatIf
    requires TargetGateway(m, parameters, expand).Some?
    requires m.client.getDatasources(TargetGateway(m, parameters, expand).value) == Success(sources)
    requires m.options.value.dataSources.Some? && !AllDenote(sources, m.options.value.dataSources.value)
    ensures var r := BindToGateway(m, workspaceId, datasetId, parameters, expand);
      var gatewayId := TargetGateway(m, parameters, expand).value;
      var values := m.options.value.dataSources.value;
      && r.calls == [GetDatasources(gatewayId)]
      && !HasBindCall(r.calls)
      && exists k :: FirstUndenoted(sources, values, k) && r.outcome == Failure(DatasourceNotFound(values[k], gatewayId))
  {
    var gatewayId := TargetGateway(m, parameters, expand).value;
    var values := m.options.value.dataSources.value;
    assert !AllLiteral(values) by {
      var k :| 0 <= k < |values| && Denotation(sources, values[k]).None?;
      assert TryParse(values[k]).None?;
    }
    ResolveNames(gatewayId, values, m.client);
  }

  /** Options that ask neither for a gateway id nor for discovery give a
      disabled manager, and both operations then do nothing at all. */
  lemma DisabledManagerIsInert(options: Option<GatewayOptions>, client: Client, whatIf: bool,
                               workspaceId: Guid, datasetId: Option<string>,
                               parameters: Parameters, expand: (string, Parameters) -> string)
    requires options.None? || (options.value.gatewayId.None? && !options.value.discoverGateways)
    ensures New(options, Some(client)).Success?
    ensures var m := SetWhatIf(New(options, Some(client)).value, whatIf);
      && !m.enabled
      && DiscoverGateways(m, workspaceId, datasetId) == Run(Success(None), [])
      && BindToGateway(m, workspaceId, datasetId, parameters, expand) == Run(Success(Disabled), [])
  {
  }
}
