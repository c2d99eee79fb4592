/** `DatasetGatewayManager.ResolveDatasetSources`: turns the configured
    datasource references into datasource ids, position by position. An
    entry that parses as a GUID is taken as it is; any other entry is a
    datasource name, looked up ignoring case in the gateway's datasource
    list. That list is fetched lazily: the first name entry fetches it, and
    every later name entry reuses it. */
module DatasourceResolution {
  import opened Wrappers
  import opened Guids
  import opened CaseFold
  import opened PowerBI
  import opened Deployments

  /** The compute-once cell standing in for `Lazy<IList<GatewayDatasource>>`. */
  datatype Cell = Unfetched | Fetched(sources: seq<GatewayDatasource>)

  /** The accumulator of the fold: the ids resolved so far and the cell. */
  datatype Accumulator = Accumulator(ids: seq<Guid>, cell: Cell)

  /** Index of the first datasource named `name`, ignoring case
      (`FirstOrDefault` over the list). */
  function FindByName(sources: seq<GatewayDatasource>, name: string): (r: Option<nat>)
    ensures r.Some? ==>
      && r.value < |sources|
      && EqualsIgnoreCase(sources[r.value].datasourceName, name)
      && forall j :: 0 <= j < r.value ==> !EqualsIgnoreCase(sources[j].datasourceName, name)
    ensures r.None? ==> forall j :: 0 <= j < |sources| ==> !EqualsIgnoreCase(sources[j].datasourceName, name)
    decreases |sources|
  {
    if sources == [] then None
    else if EqualsIgnoreCase(sources[0].datasourceName, name) then Some(0)
    else match FindByName(sources[1..], name)
      case None => None
      case Some(k) => Some(k + 1)
  }

  /** The datasources a cell holds; none while it is unfetched. */
  function Contents(cell: Cell): (r: seq<GatewayDatasource>)
  {
    match cell
    case Fetched(sources) => sources
    case Unfetched => []
  }

  /** Reads the cell, fetching the gateway's datasource list when it is still
      unfetched. A filled cell is never fetched again, and the value read is
      either what the cell holds or the service's list. */
  function Force(gatewayId: Guid, client: Client, cell: Cell): (r: Run<seq<GatewayDatasource>>)
    ensures r.calls == [] <==> cell.Fetched?
    ensures r.calls == [] || r.calls == [GetDatasources(gatewayId)]
    ensures cell.Fetched? ==> r.outcome == Success(cell.sources)
    ensures cell.Unfetched? ==>
      (r.outcome.Success? <==> client.getDatasources(gatewayId).Success?)
      && (r.outcome.Success? ==> r.outcome.value == client.getDatasources(gatewayId).value)
      && (r.outcome.Failure? ==> r.outcome.error == Remote(client.getDatasources(gatewayId).error))
  {
    match cell
    case Fetched(sources) => Run(Success(sources), [])
    case Unfetched => Run(Lift(client.getDatasources(gatewayId)), [GetDatasources(gatewayId)])
  }

  /** One step of the fold: resolves `value` and appends its id, which is
      what `value` denotes against the list the cell then holds. The step
      fetches only from an unfetched cell, and a filled cell keeps its list. */
  function Step(gatewayId: Guid, client: Client, acc: Accumulator, value: string): (r: Run<Accumulator>)
    ensures r.calls == [] || (r.calls == [GetDatasources(gatewayId)] && acc.cell.Unfetched?)
    ensures r.outcome.Success? ==>
      && |r.outcome.value.ids| == |acc.ids| + 1
      && r.outcome.value.ids[..|acc.ids|] == acc.ids
      && Some(r.outcome.value.ids[|acc.ids|]) == Denotation(Contents(r.outcome.value.cell), value)
      && (acc.cell.Fetched? ==> r.outcome.value.cell == acc.cell)
    ensures r.outcome.Failure? && r.calls == [] ==> r.outcome.error == DatasourceNotFound(value, gatewayId)
  {
    match TryParse(value)
    case Some(id) => Run(Success(acc.(ids := acc.ids + [id])), [])
    case None =>
      var fetched := Force(gatewayId, client, acc.cell);
      match fetched.outcome
      case Failure(e) => Run(Failure(e), fetched.calls)
      case Success(sources) =>
        match FindByName(sources, value)
        case None => Run(Failure(DatasourceNotFound(value, gatewayId)), fetched.calls)
        case Some(k) => Run(Success(Accumulator(acc.ids + [sources[k].id], Fetched(sources))), fetched.calls)
  }

  /** The left fold (`Aggregate`) of `Step` over `values`; `calls` are the
      calls made before it, and the first failure stops it. The fold only
      appends: one id per entry, and one call at most; none once the cell is
      filled. */
  function Aggregate(gatewayId: Guid, client: Client, values: seq<string>, acc: Accumulator, calls: seq<RemoteCall>): (r: Run<Accumulator>)
    ensures r.calls == calls || r.calls == calls + [GetDatasources(gatewayId)]
    ensures acc.cell.Fetched? ==> r.calls == calls
    ensures r.outcome.Success? ==>
      |r.outcome.value.ids| == |acc.ids| + |values| && r.outcome.value.ids[..|acc.ids|] == acc.ids
    decreases |values|
  {
    if values == [] then Run(Success(acc), calls)
    else
      var step := Step(gatewayId, client, acc, values[0]);
      match step.outcome
      case Failure(e) => Run(Failure(e), calls + step.calls)
      case Success(next) =>
        var r := Aggregate(gatewayId, client, values[1..], next, calls + step.calls);
        assert r.outcome.Success? ==> r.outcome.value.ids[..|acc.ids|] == next.ids[..|acc.ids|];
        r
  }

  /** Absent or empty input yields "absent" (the service applies its own
      defaults) with no call; otherwise the fold's ids, one per entry. The
      gateway's datasource list is fetched at most once, and not at all when
      every entry is a GUID literal. */
  function ResolveDatasetSources(gatewayId: Guid, datasources: Option<seq<string>>, client: Client): (r: Run<Option<seq<Guid>>>)
    ensures (datasources.None? || datasources.value == []) <==> r.outcome == Success(None)
    ensures r.outcome.Success? && r.outcome.value.Some? ==>
      datasources.Some? && |r.outcome.value.value| == |datasources.value| > 0
    ensures r.calls == [] || r.calls == [GetDatasources(gatewayId)]
    ensures r.calls == [] <==> datasources.None? || AllLiteral(datasources.value)
  {
    if datasources.None? || |datasources.value| == 0 then Run(Success(None), [])
    else
      var r := Aggregate(gatewayId, client, datasources.value, Accumulator([], Unfetched), []);
      AggregateUnfetched(gatewayId, client, datasources.value, [], []);
      match r.outcome
      case Failure(e) => Run(Failure(e), r.calls)
      case Success(acc) => Run(Success(Some(acc.ids)), r.calls)
  }

  // ----- Reference semantics -----

  /** What one entry denotes once the gateway's datasource list is known to
      be `sources`: its own GUID, or the id of the first datasource carrying
      its name, or nothing. */
  function Denotation(sources: seq<GatewayDatasource>, value: string): (r: Option<Guid>)
    ensures TryParse(value).Some? ==> r == TryParse(value)
    ensures TryParse(value).None? ==> (r.Some? <==> FindByName(sources, value).Some?)
  {
    match TryParse(value)
    case Some(id) => Some(id)
    case None =>
      match FindByName(sources, value)
      case Some(k) => Some(sources[k].id)
      case None => None
  }

  ghost predicate AllLiteral(values: seq<string>)
  {
    forall i :: 0 <= i < |values| ==> TryParse(values[i]).Some?
  }

  function Literals(values: seq<string>): (ids: seq<Guid>)
    requires AllLiteral(values)
  {
    seq(|values|, i requires 0 <= i < |values| => TryParse(values[i]).value)
  }

  ghost predicate AllDenote(sources: seq<GatewayDatasource>, values: seq<string>)
  {
    forall i :: 0 <= i < |values| ==> Denotation(sources, values[i]).Some?
  }

  function Denotations(sources: seq<GatewayDatasource>, values: seq<string>): (ids: seq<Guid>)
    requires AllDenote(sources, values)
  {
    seq(|values|, i requires 0 <= i < |values| => Denotation(sources, values[i]).value)
  }

  /** `k` is the first entry that denotes nothing. */
  ghost predicate FirstUndenoted(sources: seq<GatewayDatasource>, values: seq<string>, k: int)
  {
    && 0 <= k < |values|
    && Denotation(sources, values[k]).None?
    && forall j :: 0 <= j < k ==> Denotation(sources, values[j]).Some?
  }

  /** The outcome `r` is what resolving `values` against `sources` must give,
      after the ids `ids0` already collected. */
  ghost predicate ResolvedAgainst(r: Result<Accumulator, DeployError>, gatewayId: Guid,
                                  sources: seq<GatewayDatasource>, values: seq<string>, ids0: seq<Guid>)
  {
    && (r.Success? <==> AllDenote(sources, values))
    && (r.Success? ==> r.value.ids == ids0 + Denotations(sources, values))
    && (r.Failure? ==> exists k :: FirstUndenoted(sources, values, k) && r.error == DatasourceNotFound(values[k], gatewayId))
  }

  // ----- Proofs -----

  /** Extending a resolution by one leading entry that denotes `id`. */
  lemma ResolvedAgainstCons(r: Result<Accumulator, DeployError>, gatewayId: Guid,
                            sources: seq<GatewayDatasource>, values: seq<string>, ids0: seq<Guid>, id: Guid)
    requires |values| > 0 && Denotation(sources, values[0]) == Some(id)
    requires ResolvedAgainst(r, gatewayId, sources, values[1..], ids0 + [id])
    ensures ResolvedAgainst(r, gatewayId, sources, values, ids0)
  {
    var rest := values[1..];
    assert forall j :: 0 < j < |values| ==> values[j] == rest[j - 1];
    assert AllDenote(sources, values) <==> AllDenote(sources, rest) by {
      if AllDenote(sources, rest) {
        forall j | 0 <= j < |values| ensures Denotation(sources, values[j]).Some? {
          if j > 0 {
            assert Denotation(sources, rest[j - 1]).Some?;
          }
        }
      }
    }
    if r.Success? {
      assert Denotations(sources, values) == [id] + Denotations(sources, rest);
    } else {
      var k :| FirstUndenoted(sources, rest, k) && r.error == DatasourceNotFound(rest[k], gatewayId);
      assert FirstUndenoted(sources, values, k + 1) by {
        forall j | 0 <= j < k + 1 ensures Denotation(sources, values[j]).Some? {
          if j > 0 {
            assert Denotation(sources, rest[j - 1]).Some?;
          }
        }
      }
    }
  }

  /** Once the cell is filled, the fold makes no more calls and resolves
      every entry against the fetched list. */
  lemma {:induction false} AggregateFetched(gatewayId: Guid, client: Client, values: seq<string>,
                                            ids0: seq<Guid>, sources: seq<GatewayDatasource>, calls: seq<RemoteCall>)
    ensures var r := Aggregate(gatewayId, client, values, Accumulator(ids0, Fetched(sources)), calls);
      && r.calls == calls
      && ResolvedAgainst(r.outcome, gatewayId, sources, values, ids0)
      && (r.outcome.Success? ==> r.outcome.value.cell == Fetched(sources))
    decreases |values|
  {
    var r := Aggregate(gatewayId, client, values, Accumulator(ids0, Fetched(sources)), calls);
    if values == [] {
      assert Denotations(sources, values) == [];
    } else {
      var v := values[0];
      var d := Denotation(sources, v);
      var step := Step(gatewayId, client, Accumulator(ids0, Fetched(sources)), v);
      assert step.calls == [] && calls + [] == calls;
      if d.None? {
        assert step.outcome == Failure(DatasourceNotFound(v, gatewayId));
        assert FirstUndenoted(sources, values, 0);
      } else {
        assert step.outcome == Success(Accumulator(ids0 + [d.value], Fetched(sources)));
        assert r == Aggregate(gatewayId, client, values[1..], Accumulator(ids0 + [d.value], Fetched(sources)), calls);
        AggregateFetched(gatewayId, client, values[1..], ids0 + [d.value], sources, calls);
        ResolvedAgainstCons(r.outcome, gatewayId, sources, values, ids0, d.value);
      }
    }
  }

  /** Before the cell is filled: a run of literal entries makes no call; the
      first name entry makes the single fetch, and from there the fold
      behaves as `AggregateFetched` says. */
  lemma {:induction false} AggregateUnfetched(gatewayId: Guid, client: Client, values: seq<string>,
                                              ids0: seq<Guid>, calls: seq<RemoteCall>)
    ensures var r := Aggregate(gatewayId, client, values, Accumulator(ids0, Unfetched), calls);
      && (AllLiteral(values) ==> r == Run(Success(Accumulator(ids0 + Literals(values), Unfetched)), calls))
      && (!AllLiteral(values) ==>
            && r.calls == calls + [GetDatasources(gatewayId)]
            && match client.getDatasources(gatewayId)
               case Failure(e) => r.outcome == Failure(Remote(e))
               case Success(sources) => ResolvedAgainst(r.outcome, gatewayId, sources, values, ids0))
    decreases |values|
  {
    var r := Aggregate(gatewayId, client, values, Accumulator(ids0, Unfetched), calls);
    if values == [] {
      assert ids0 + Literals(values) == ids0;
    } else {
      var v := values[0];
      var rest := values[1..];
      assert forall j :: 0 < j < |values| ==> values[j] == rest[j - 1];
      match TryParse(v)
      case Some(id) =>
        assert calls + [] == calls;
        assert r == Aggregate(gatewayId, client, rest, Accumulator(ids0 + [id], Unfetched), calls);
        AggregateUnfetched(gatewayId, client, rest, ids0 + [id], calls);
        if AllLiteral(values) {
          assert AllLiteral(rest) by {
            forall j | 0 <= j < |rest| ensures TryParse(rest[j]).Some? {
              assert rest[j] == values[j + 1];
            }
          }
          assert Literals(values) == [id] + Literals(rest);
          assert ids0 + [id] + Literals(rest) == ids0 + Literals(values);
        } else {
          var j :| 0 <= j < |values| && TryParse(values[j]).None?;
          assert TryParse(rest[j - 1]).None?;
          match client.getDatasources(gatewayId)
          case Failure(e) =>
          case Success(sources) =>
            ResolvedAgainstCons(r.outcome, gatewayId, sources, values, ids0, id);
        }
      case None =>
        assert !AllLiteral(values);
        match client.getDatasources(gatewayId)
        case Failure(e) =>
        case Success(sources) =>
          match FindByName(sources, v)
          case None =>
            assert FirstUndenoted(sources, values, 0);
          case Some(k) =>
            var id := sources[k].id;
            assert r == Aggregate(gatewayId, client, rest, Accumulator(ids0 + [id], Fetched(sources)), calls + [GetDatasources(gatewayId)]);
            AggregateFetched(gatewayId, client, rest, ids0 + [id], sources, calls + [GetDatasources(gatewayId)]);
            ResolvedAgainstCons(r.outcome, gatewayId, sources, values, ids0, id);
    }
  }

  // ----- Properties of ResolveDatasetSources -----

  /** The gateway's datasource list as the service reports it; empty when
      the fetch fails. */
  function ListedSources(gatewayId: Guid, client: Client): (r: seq<GatewayDatasource>)
  {
    match client.getDatasources(gatewayId)
    case Success(sources) => sources
    case Failure(_) => []
  }

  /** A list of GUID literals resolves to those GUIDs, in order, without
      fetching the gateway's datasources. */
  lemma ResolveLiterals(gatewayId: Guid, values: seq<string>, client: Client)
    requires |values| > 0 && AllLiteral(values)
    ensures ResolveDatasetSources(gatewayId, Some(values), client) == Run(Success(Some(Literals(values))), [])
  {
    AggregateUnfetched(gatewayId, client, values, [], []);
    assert [] + Literals(values) == Literals(values);
  }

  /** A list with at least one name fetches the gateway's datasources exactly
      once; a failed fetch is the answer; otherwise the answer is every
      entry's denotation in order, or the first entry that denotes nothing. */
  lemma ResolveNames(gatewayId: Guid, values: seq<string>, client: Client)
    requires !AllLiteral(values)
    ensures var r := ResolveDatasetSources(gatewayId, Some(values), client);
      && r.calls == [GetDatasources(gatewayId)]
      && match client.getDatasources(gatewayId)
         case Failure(e) => r.outcome == Failure(Remote(e))
         case Success(sources) =>
           && (r.outcome.Success? <==> AllDenote(sources, values))
           && (r.outcome.Success? ==> r.outcome.value == Some(Denotations(sources, values)))
           && (r.outcome.Failure? ==>
                 exists k :: FirstUndenoted(sources, values, k) && r.outcome.error == DatasourceNotFound(values[k], gatewayId))
  {
    AggregateUnfetched(gatewayId, client, values, [], []);
    match client.getDatasources(gatewayId)
    case Failure(e) =>
    case Success(sources) =>
      if AllDenote(sources, values) {
        assert [] + Denotations(sources, values) == Denotations(sources, values);
      }
  }

  /** The answer lines up with the input: entry `i` of the answer is what
      entry `i` of the input denotes, a GUID literal standing for itself. */
  lemma ResolvePositional(gatewayId: Guid, values: seq<string>, client: Client)
    requires ResolveDatasetSources(gatewayId, Some(values), client).outcome.Success?
    ensures var r := ResolveDatasetSources(gatewayId, Some(values), client).outcome.value;
      && (values == [] <==> r.None?)
      && (r.Some? ==>
            && |r.value| == |values|
            && (forall i :: 0 <= i < |values| ==> Some(r.value[i]) == Denotation(ListedSources(gatewayId, client), values[i]))
            && (forall i :: 0 <= i < |values| && TryParse(values[i]).Some? ==> r.value[i] == TryParse(values[i]).value))
  {
    if values != [] {
      if AllLiteral(values) {
        ResolveLiterals(gatewayId, values, client);
      } else {
        ResolveNames(gatewayId, values, client);
      }
    }
  }

  /** Names are looked up ignoring case: two entries equal up to case resolve
      to the same id, or both fail. */
  lemma DenotationIgnoresCase(sources: seq<GatewayDatasource>, v: string, w: string)
    requires EqualsIgnoreCase(v, w)
    ensures Denotation(sources, v) == Denotation(sources, w)
  {
    TryParseIgnoresCase(v);
    TryParseIgnoresCase(w);
    var a, b := FindByName(sources, v), FindByName(sources, w);
    if a.Some? {
      EqualsIgnoreCaseIsEquivalence(sources[a.value].datasourceName, v, w);
    }
    if b.Some? {
      EqualsIgnoreCaseIsEquivalence(sources[b.value].datasourceName, w, v);
    }
  }
}
