/** Errors of a dataset deployment step, and the shape every operation of the
    model returns: its outcome together with the remote calls it made. */
module Deployments {
  import opened Wrappers
  import opened Guids
  import opened PowerBI

  datatype DeployError =
    /** `ArgumentNullException` for a missing collaborator. */
    | ArgumentNull(paramName: string)
    /** The gateway id expression did not expand to a GUID; carries the
        expression as configured. */
    | InvalidGatewayId(expression: string)
    /** No datasource of the gateway carries this name. */
    | DatasourceNotFound(name: string, gatewayId: Guid)
    /** A remote call failed. */
    | Remote(cause: RemoteError)

  datatype Run<+T> = Run(outcome: Result<T, DeployError>, calls: seq<RemoteCall>)

  /** The outcome of one remote call, as the model sees it. */
  function Lift<T>(reply: Result<T, RemoteError>): (r: Result<T, DeployError>)
    ensures r.Success? <==> reply.Success?
    ensures r.Success? ==> r.value == reply.value
    ensures r.Failure? ==> r.error == Remote(reply.error)
  {
    match reply
    case Success(v) => Success(v)
    case Failure(e) => Failure(Remote(e))
  }
}
