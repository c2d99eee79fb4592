/** The part of the Power BI REST client the gateway binding logic talks to,
    reduced to canned replies. A `Client` answers each of the three remote
    operations with either a value or a `RemoteError`; every operation of the
    model returns the list of remote calls it made, in order, so that "no
    call on this path" and "fetched at most once" can be stated directly. */
module PowerBI {
  import opened Wrappers
  import opened Guids

  /** A row of the "discover gateways" reply. */
  datatype Gateway = Gateway(id: Guid, name: string, gatewayType: string)

  /** A row of the gateway's datasource list. */
  datatype GatewayDatasource = GatewayDatasource(id: Guid, datasourceName: string)

  /** `BindToGatewayRequest`: the gateway, and the datasource ids in the
      order of the dataset's data sources, or nothing to let the service
      choose. */
  datatype BindRequest = BindRequest(gatewayObjectId: Guid, datasourceObjectIds: Option<seq<Guid>>)

  /** Any failure the HTTP client raises; it is passed through untouched. */
  datatype RemoteError = RemoteError(message: string)

  datatype Client = Client(
    discoverGateways: (Guid, string) -> Result<seq<Gateway>, RemoteError>,
    getDatasources: Guid -> Result<seq<GatewayDatasource>, RemoteError>,
    bindToGateway: (Guid, Option<string>, BindRequest) -> Result<(), RemoteError>)

  /** One recorded remote call with its arguments. */
  datatype RemoteCall =
    | DiscoverGatewaysInGroup(workspaceId: Guid, datasetId: string)
    | GetDatasources(gatewayId: Guid)
    | BindToGatewayInGroup(workspaceId: Guid, boundDatasetId: Option<string>, request: BindRequest)
}
