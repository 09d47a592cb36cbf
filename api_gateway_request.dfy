/**
 * The request value sent through the generic API Gateway client: an immutable
 * record of HTTP method, resource path, body and headers. Its constructor
 * accepts any of them being null.
 */
module ApiGatewayRequest {
  import opened Wrappers

  /** The HTTP methods of the AWS SDK's HttpMethodName. */
  datatype HttpMethodName = GET | POST | PUT | DELETE | HEAD | PATCH | OPTIONS

  /** An InputStream, identified by reference; its content is never read here. */
  datatype InputStream = InputStream(ref: nat)

  type Headers = map<string, string>

  /** GenericApiGatewayRequest: four final fields set once by the constructor, which validates nothing. */
  datatype GenericApiGatewayRequest = GenericApiGatewayRequest(
    httpMethod: Option<HttpMethodName>,
    resourcePath: Option<string>,
    body: Option<InputStream>,
    headers: Option<Headers>)
  {
    function GetHttpMethod(): Option<HttpMethodName> { httpMethod }

    function GetResourcePath(): Option<string> { resourcePath }

    function GetBody(): Option<InputStream> { body }

    function GetHeaders(): Option<Headers> { headers }
  }

  /**
   * Each getter returns what was passed to the constructor, for any
   * arguments, nulls included.
   */
  lemma GettersReturnConstructorArguments(httpMethod: Option<HttpMethodName>, resourcePath: Option<string>,
                                          body: Option<InputStream>, headers: Option<Headers>)
    ensures var request := GenericApiGatewayRequest(httpMethod, resourcePath, body, headers);
      && request.GetHttpMethod() == httpMethod
      && request.GetResourcePath() == resourcePath
      && request.GetBody() == body
      && request.GetHeaders() == headers
  {
  }

  /** Two requests are equal exactly when their four getters agree. */
  lemma RequestDeterminedByGetters(a: GenericApiGatewayRequest, b: GenericApiGatewayRequest)
    ensures a == b <==>
      && a.GetHttpMethod() == b.GetHttpMethod()
      && a.GetResourcePath() == b.GetResourcePath()
      && a.GetBody() == b.GetBody()
      && a.GetHeaders() == b.GetHeaders()
  {
  }
}
