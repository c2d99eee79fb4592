# Dataset gateway binding

A Dafny model of `DatasetGatewayManager` from pbi-tools, the part of a
dataset deployment that decides whether the deployed Power BI dataset must
be attached to an on-premises data gateway, and does it:

- **Enablement** — computed once, when the manager is built from the
  dataset's gateway options (`DatasetGatewayManager.New`).
- **Discovery** — asks the service which gateways suit the dataset, only
  when discovery is enabled and requested and a dataset id is given.
- **Bind** — skipped when disabled, in what-if mode, or when only discovery
  was asked for; otherwise the `GatewayId` expression is expanded and
  parsed as a GUID (failure is a deployment error), the datasources are
  resolved, and exactly one bind request is sent.
- **Datasource resolution** — each configured entry is either a GUID
  literal, used as it is, or a datasource name, looked up ignoring case in
  the gateway's datasource list. The list is fetched lazily, at most once
  per resolution; the lazy value is an explicit cell
  (`Unfetched | Fetched(list)`) threaded through the fold.

The Power BI client is a value of three total functions giving canned
replies (`PowerBI.Client`). Every operation returns a `Run`: its outcome
(`Success` or a `DeployError`) together with the list of remote calls it
made, in order. "No call on this path", "fetched at most once" and "no
bind request after a failed lookup" are statements about that list.

Files: `wrappers.dfy` (Option, Result), `guids.dfy` (GUID text forms and
parsing), `case_fold.dfy` (comparison ignoring case), `power_bi.dfy` (client
replies and the call trace), `deployments.dfy` (errors, `Run`),
`datasource_resolution.dfy` (`ResolveDatasetSources` and its proofs),
`dataset_gateway_manager.dfy` (the manager), `scenarios.dfy` (a worked
deployment).

Behaviour of the code worth noting (all in
`src/PBI-Tools/Deployments/DatasetGatewayManager.cs`):

- A gateway id is absent only when it is null (line 29); an empty
  `GatewayId` string enables the manager and then fails to parse as a GUID
  (line 76).
- Discovery is skipped only for a null dataset id (line 41); an empty
  string is sent to the service.
- The error for an unparsable gateway id carries the expression as
  configured, not its expanded value (line 77).
- A name resolves to the first datasource matching it (line 111); several
  matches are not an error.
- The resolved list never holds null entries, although its type allows
  them (lines 91, 102-124): every entry either resolves or the resolution
  fails.

## Model

| member | source | states |
|---|---|---|
| `DatasetGatewayManager.New` | src/PBI-Tools/Deployments/DatasetGatewayManager.cs:24-30 | a missing client fails with `ArgumentNull("powerBIClient")`, any other call succeeds and the manager keeps the options and the client it was given; the manager is enabled exactly when options are present and give a gateway id or request discovery; what-if starts off |
| `DatasetGatewayManager.SetWhatIf` | src/PBI-Tools/Deployments/DatasetGatewayManager.cs:32-34 | setting what-if mode changes only that flag: `enabled` stays as computed at construction, and the options and the client are kept |
| `DatasetGatewayManager.DiscoverGateways` | src/PBI-Tools/Deployments/DatasetGatewayManager.cs:39-43 | discovery calls the service once, with the workspace and dataset id, exactly when enabled, requested and a dataset id is given, and then reports the service's reply or its failure; otherwise no call and no error |
| `DatasetGatewayManager.DiscoverOnlyWhenRequested` | src/PBI-Tools/Deployments/DatasetGatewayManager.cs:29-43 | on a freshly built manager, in either what-if setting, discovery calls the service exactly when the options request discovery and a dataset id is given; the gateway id plays no part |
| `DatasetGatewayManager.BindToGateway` | src/PBI-Tools/Deployments/DatasetGatewayManager.cs:66-89 | the bind operation makes at most two calls: at most one fetch of the datasources, first and for the parsed gateway id, and at most one bind request, last; never a discovery call; a successful bind's last call is the request it reports (its other properties: `BindNoOps`, `BindRejectsInvalidGatewayId`, `BindRequestIff`, `BindPassesFailuresOn`, `BoundRequestMatchesOptions`, `UnresolvedNameBlocksBind`) |
| `DatasetGatewayManager.BindNoOps` | src/PBI-Tools/Deployments/DatasetGatewayManager.cs:68-74 | a disabled manager, what-if mode, or a manager enabled for discovery only binds nothing: no call, no error |
| `DatasetGatewayManager.BindRejectsInvalidGatewayId` | src/PBI-Tools/Deployments/DatasetGatewayManager.cs:76-77 | an expanded gateway id that is not a GUID fails with `InvalidGatewayId` naming the configured expression, before any remote call |
| `DatasetGatewayManager.BindRequestIff` | src/PBI-Tools/Deployments/DatasetGatewayManager.cs:74-88 | a bind request is sent if and only if the manager is enabled, not in what-if mode, the gateway id parses and resolution succeeds; it carries that gateway and the resolved ids, is the last call, and the bind succeeds exactly when the service accepts it |
| `DatasetGatewayManager.BindPassesFailuresOn` | src/PBI-Tools/Deployments/DatasetGatewayManager.cs:76-98 | once the gateway id parses, the bind's calls are the resolution's calls followed by the request when resolution succeeds; a failed fetch or unknown name fails the bind with that error unchanged, and a rejected request fails it with the service's error as `Remote`; with a name among the datasources the fetch is the first call and happens once, without one there is no fetch |
| `DatasetGatewayManager.BoundRequestMatchesOptions` | src/PBI-Tools/Deployments/DatasetGatewayManager.cs:81-85 | a successful bind's request names the parsed gateway; its id list is absent exactly when no datasources are configured, and otherwise has one id per entry, in order, each the entry's denotation |
| `DatasetGatewayManager.UnresolvedNameBlocksBind` | src/PBI-Tools/Deployments/DatasetGatewayManager.cs:81-117 | when some configured name matches no datasource of the gateway, the bind fails with the first such name and the gateway id, after exactly one fetch and with no bind request |
| `DatasetGatewayManager.DisabledManagerIsInert` | src/PBI-Tools/Deployments/DatasetGatewayManager.cs:29-68 | options that give no gateway id and do not request discovery yield a disabled manager on which discovery and bind both succeed without any call |
| `DatasourceResolution.ResolveDatasetSources` | src/PBI-Tools/Deployments/DatasetGatewayManager.cs:91-127 | resolution answers "absent" exactly for a null or empty list; a present answer has one id per entry; it calls the service at most once, to fetch that gateway's datasources, and not at all exactly when the list is null or every entry is a GUID literal (contents of the answer: `ResolveLiterals`, `ResolveNames`, `ResolvePositional`) |
| `DatasourceResolution.Force` | src/PBI-Tools/Deployments/DatasetGatewayManager.cs:95-100 | reading the lazy datasource list calls the service exactly when it is still unfetched, and only to fetch that gateway's datasources; the value read is the held list or the service's reply, and a failed fetch is passed on |
| `DatasourceResolution.Step` | src/PBI-Tools/Deployments/DatasetGatewayManager.cs:104-123 | one entry appends exactly one id, the entry's denotation against the list the cell then holds; it fetches only from an unfetched cell and a filled cell keeps its list; failing without a call means the name was not found |
| `DatasourceResolution.Aggregate` | src/PBI-Tools/Deployments/DatasetGatewayManager.cs:102-124 | the fold keeps the ids already collected and appends one id per entry, and makes at most one call, a fetch of that gateway's datasources, and none once the cell is filled |
| `DatasourceResolution.Denotation` | src/PBI-Tools/Deployments/DatasetGatewayManager.cs:105-117 | an entry that parses as a GUID denotes that GUID; any other entry denotes an id exactly when some datasource of the list carries its name, ignoring case |
| `DatasourceResolution.FindByName` | src/PBI-Tools/Deployments/DatasetGatewayManager.cs:111-113 | the lookup returns the first datasource whose name equals the entry ignoring case, or nothing when no name matches |
| `DatasourceResolution.AggregateFetched` | src/PBI-Tools/Deployments/DatasetGatewayManager.cs:102-124 | once the lazy list is fetched, the rest of the fold makes no call and yields every entry's denotation in order, or fails at the first entry that denotes nothing |
| `DatasourceResolution.AggregateUnfetched` | src/PBI-Tools/Deployments/DatasetGatewayManager.cs:95-124 | before the fetch, literal entries make no call; an input of literals only yields their GUIDs with no call; otherwise exactly one fetch happens, a failed fetch is the outcome, and a successful one gives the denotations or the first undenoted entry |
| `DatasourceResolution.ResolveLiterals` | src/PBI-Tools/Deployments/DatasetGatewayManager.cs:102-108 | a non-empty list of GUID literals resolves to those GUIDs in order with no call |
| `DatasourceResolution.ResolveNames` | src/PBI-Tools/Deployments/DatasetGatewayManager.cs:95-124 | a list with a name fetches the gateway's datasources exactly once; a failed fetch is passed on; otherwise it succeeds if and only if every entry denotes a datasource id, giving them in order, and fails with the first entry that denotes nothing |
| `DatasourceResolution.ResolvePositional` | src/PBI-Tools/Deployments/DatasetGatewayManager.cs:102-126 | a successful resolution lines up with its input: same length, entry i is entry i's denotation, and a GUID literal stands for itself |
| `DatasourceResolution.DenotationIgnoresCase` | src/PBI-Tools/Deployments/DatasetGatewayManager.cs:105-113 | two entries equal up to the case of letters denote the same id, or neither denotes one |
| `CaseFold.EqualsIgnoreCase` | src/PBI-Tools/Deployments/DatasetGatewayManager.cs:112 | two names are equal ignoring case exactly when they have the same length and each pair of characters is equal or the upper- and lower-case forms of one ASCII letter |
| `CaseFold.EqualsIgnoreCaseIsEquivalence` | src/PBI-Tools/Deployments/DatasetGatewayManager.cs:112 | equality ignoring case is reflexive, symmetric and transitive |
| `Guids.TryParse` | src/PBI-Tools/Deployments/DatasetGatewayManager.cs:76 | only strings of 32, 36 or 38 characters parse; a 32-character string parses exactly when every character is a hexadecimal digit, to those digits (its full characterization: `TryParseFormat`, `TryParseOnlyFormats`, `TryParseIgnoresCase`) |
| `Guids.TryParseFormat` | src/PBI-Tools/Deployments/DatasetGatewayManager.cs:105 | every GUID parses back from its text |
| `Guids.TryParseOnlyFormats` | src/PBI-Tools/Deployments/DatasetGatewayManager.cs:105 | a string parses as a GUID exactly when, ignoring case, it is that GUID's 32 digits, its hyphenated form, or that form in braces or parentheses |
| `Guids.TryParseIgnoresCase` | src/PBI-Tools/Deployments/DatasetGatewayManager.cs:76 | parsing a GUID does not depend on the case of its letters |
| `Scenarios.SalesDbMatchesIgnoringCase` | src/PBI-Tools/Deployments/DatasetGatewayManager.cs:111-113 | "Sales DB", "SALES DB" and "sales db" all resolve to the id of the gateway datasource named "sales db" |
| `Scenarios.SalesDbResolution` | src/PBI-Tools/Deployments/DatasetGatewayManager.cs:91-127 | the entries "Sales DB" and the literal 2222… resolve, with one fetch, to 3333… and 2222… in that order |
| `Scenarios.SalesDbDeployment` | src/PBI-Tools/Deployments/DatasetGatewayManager.cs:66-88 | binding with gateway 1111… fetches that gateway's datasources once and sends one bind request carrying 3333… and 2222…, and succeeds |

## Left out

- Asynchrony: each `Task` is a sequential step; cancellation and concurrent use of one manager are not modelled.
- The Power BI HTTP client: replaced by canned replies; a failure is passed on unchanged as `Remote`.
- `ExpandParamsAndEnv`: a function parameter of `BindToGateway`, since its result depends on environment variables.
- Rendering of the discovered gateways as a console table, the `Environment.UserInteractive` width choice and all logging: presentation only. Discovery returns the gateways it would list.
- The what-if branch of bind is a stub in the code and is modelled as one.
- `Guids.TryParse`: only the `D`, `N`, `B` and `P` forms; surrounding white space, the `X` form and the lenient sign and `0x` prefixes `Guid.TryParse` tolerates inside groups are not modelled.
- `CaseFold.EqualsIgnoreCase`: folds ASCII letters only; culture-invariant comparison of other characters is not modelled.
- Null entries in the configured datasource array and null datasource names (both would throw in the code) are not modelled: entries and names are strings.
- The options are an immutable value; mutating them after the manager is built is not modelled.
- Error messages are reduced to the values they carry.
- src/PBI-Tools/Cli/ExtractPbiDesktop.cs (extracting a desktop installer) is not part of this model: it only moves files and runs an external tool.
