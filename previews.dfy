/**
 * The deployment catalog: the records the directory service returns and the
 * fetch that turns the service's reply (or the transport error thrown instead)
 * into either the list of deployments or one error message.
 *
 * The HTTP call itself is not modelled: `FetchDeployments` receives the
 * outcome of the one request it issues as a parameter, and reports that
 * request in its result so that callers can see what was asked for.
 */
module Previews {
  import opened JsValues

  /** Metadata of the package currently published on a deployment. */
  datatype DeploymentPackage = DeploymentPackage(
    description: string,
    isDisabled: bool,
    isMandatory: bool,
    appVersion: string,
    size: nat,
    uploadTime: string,
    releaseLabel: string,
    releasedBy: string,
    packageHash: string)

  /** One update channel; `package` is absent when nothing is published yet. */
  datatype Deployment = Deployment(
    id: string,
    key: string,
    name: string,
    package: Option<DeploymentPackage>,
    createdTime: Option<string>)

  /**
   * The JSON envelope of `/deployments/list`. `error` is a message the server
   * may add to an unsuccessful envelope; the declared response type does not
   * list it and the fetch never reads it.
   */
  datatype DeploymentResponse = DeploymentResponse(success: bool, app: string, data: seq<Deployment>, error: Option<string>)

  datatype Platform = IOS | Android

  /** The request the fetch issues: a POST of `{platform}` to `path`. */
  datatype ApiRequest = Post(path: string, platform: Platform)

  /**
   * What the HTTP client produced for the request: a response envelope, or
   * a thrown error with its `message` and the value of
   * `err.response?.data?.error` (`None` when any link of that chain is absent).
   */
  datatype Reply =
    | Responded(response: DeploymentResponse)
    | Threw(message: string, responseDataError: Option<string>)

  /** What a fetch did: the requests it issued and what it resolved to. */
  datatype Fetched = Fetched(requests: seq<ApiRequest>, result: Result<seq<Deployment>>)

  const DeploymentsListPath := "/deployments/list"
  const FetchFailedMessage := "Failed to fetch deployments"

  /** The message built in the catch block: server error, else `err.message`, else the fallback. */
  function CaughtErrorMessage(message: string, responseDataError: Option<string>): (m: string)
    ensures m != ""
    ensures Truthy(responseDataError) ==> m == responseDataError.value
    ensures !Truthy(responseDataError) && message != "" ==> m == message
    ensures !Truthy(responseDataError) && message == "" ==> m == FetchFailedMessage
  {
    Or(responseDataError, Or(Some(message), FetchFailedMessage))
  }

  /**
   * `fetchDeployments(platform)`. A reply with `success: false` makes the try
   * block throw `new Error(FetchFailedMessage)`, an error without a `response`,
   * which the catch block then turns into its message like any other error.
   */
  function FetchDeployments(platform: Platform, reply: Reply): (f: Fetched)
    ensures f.requests == [Post(DeploymentsListPath, platform)]
    ensures reply.Responded? && reply.response.success ==> f.result == Ok(reply.response.data)
    ensures reply.Responded? && !reply.response.success ==> f.result == Err(FetchFailedMessage)
    ensures reply.Threw? && Truthy(reply.responseDataError) ==>
              f.result == Err(reply.responseDataError.value)
    ensures reply.Threw? && !Truthy(reply.responseDataError) && reply.message != "" ==>
              f.result == Err(reply.message)
    ensures reply.Threw? && !Truthy(reply.responseDataError) && reply.message == "" ==>
              f.result == Err(FetchFailedMessage)
    ensures f.result.Err? ==> f.result.error != ""
  {
    var request := Post(DeploymentsListPath, platform);
    var result :=
      match reply
      case Responded(response) =>
        if response.success then Ok(response.data)
        else Err(CaughtErrorMessage(FetchFailedMessage, None))
      case Threw(message, responseDataError) =>
        Err(CaughtErrorMessage(message, responseDataError));
    Fetched([request], result)
  }

  /**
   * An unsuccessful envelope fails with the fixed message whatever else it
   * holds: the error the try block throws carries no `response`, so the
   * server's own `error` field is never consulted.
   */
  lemma UnsuccessfulEnvelopeIgnoresServerError(platform: Platform, r1: DeploymentResponse, r2: DeploymentResponse)
    requires !r1.success && !r2.success
    ensures FetchDeployments(platform, Responded(r1)).result == Err(FetchFailedMessage)
    ensures FetchDeployments(platform, Responded(r1)) == FetchDeployments(platform, Responded(r2))
  {
  }
}
