/** A worked deployment: the gateway id names gateway 1111…; the dataset's
    datasources are the name "Sales DB" and the literal id 2222…; the
    gateway knows one datasource, "sales db", with id 3333…. */
module Scenarios {
  import opened Wrappers
  import opened Guids
  import opened CaseFold
  import opened PowerBI
  import opened Deployments
  import opened DatasourceResolution
  import opened DatasetGatewayManager

  function Repeated(n: Nibble): (g: Guid)
  {
    seq(32, _ => n)
  }

  const Ones: string := "11111111-1111-1111-1111-111111111111"
  const Twos: string := "22222222-2222-2222-2222-222222222222"

  /** The text of a GUID whose digits are all `n`. */
  lemma FormatRepeated(n: Nibble, s: string)
    requires |s| == 36
    requires forall i :: 0 <= i < 36 ==> s[i] == if IsHyphenPosition(i) then '-' else HexChar(n)
    ensures TryParse(s) == Some(Repeated(n))
  {
    forall i | 0 <= i < 36 ensures Format(Repeated(n))[i] == s[i] {
      FormatAt(Repeated(n), i);
    }
    assert Format(Repeated(n)) == s;
    TryParseFormat(Repeated(n));
  }

  const Known: seq<GatewayDatasource> := [GatewayDatasource(Repeated(3), "sales db")]

  const Options: GatewayOptions := GatewayOptions(Some(Ones), false, Some(["Sales DB", Twos]))

  /** A fake service: it knows the datasources of gateway 1111… only, and
      accepts every bind request. */
  function FakeClient(): (c: Client)
  {
    Client(
      (w, d) => Success([]),
      g => if g == Repeated(1) then Success(Known) else Failure(RemoteError("unknown gateway")),
      (w, d, request) => Success(()))
  }

  /** The names "sales db", "SALES DB" and "Sales DB" all denote datasource
      3333… on this gateway. */
  lemma SalesDbMatchesIgnoringCase()
    ensures Denotation(Known, "Sales DB") == Some(Repeated(3))
    ensures Denotation(Known, "SALES DB") == Some(Repeated(3))
    ensures Denotation(Known, "sales db") == Some(Repeated(3))
  {
    assert Fold("Sales DB") == "sales db";
    assert Fold("SALES DB") == "sales db";
    assert Fold("sales db") == "sales db";
    assert FindByName(Known, "Sales DB") == Some(0);
    DenotationIgnoresCase(Known, "Sales DB", "SALES DB");
    DenotationIgnoresCase(Known, "Sales DB", "sales db");
  }

  lemma ParseOnes()
    ensures TryParse(Ones) == Some(Repeated(1))
  {
    FormatRepeated(1, Ones);
  }

  lemma ParseTwos()
    ensures TryParse(Twos) == Some(Repeated(2))
  {
    FormatRepeated(2, Twos);
  }

  /** Resolution fetches the gateway's datasources once and maps the name and
      the literal to 3333… and 2222…, in that order. */
  lemma SalesDbResolution()
    ensures ResolveDatasetSources(Repeated(1), Some(["Sales DB", Twos]), FakeClient())
      == Run(Success(Some([Repeated(3), Repeated(2)])), [GetDatasources(Repeated(1))])
  {
    ParseTwos();
    SalesDbMatchesIgnoringCase();
    var values := ["Sales DB", Twos];
    assert TryParse(values[0]).None?;
    assert !AllLiteral(values);
    assert AllDenote(Known, values);
    assert Denotations(Known, values) == [Repeated(3), Repeated(2)];
    ResolveNames(Repeated(1), values, FakeClient());
  }

  /** The deployment fetches gateway 1111…'s datasources once and sends one
      bind request with the ids 3333… and 2222…, in that order. */
  lemma SalesDbDeployment(workspaceId: Guid, datasetId: Option<string>, parameters: Parameters)
    ensures New(Some(Options), Some(FakeClient())).Success?
    ensures var m := New(Some(Options), Some(FakeClient())).value;
      var request := BindRequest(Repeated(1), Some([Repeated(3), Repeated(2)]));
      BindToGateway(m, workspaceId, datasetId, parameters, (e, p) => e)
        == Run(Success(Bound(request)),
               [GetDatasources(Repeated(1)), BindToGatewayInGroup(workspaceId, datasetId, request)])
  {
    ParseOnes();
    SalesDbResolution();
  }
}
