/**
 * The fluent builder of GenericApiGatewayRequest: four nullable fields that
 * the with-methods overwrite one at a time, and a build step that checks the
 * method and the resource path before making the request.
 */
module ApiGatewayRequestBuilder {
  import opened Wrappers
  import opened ApiGatewayRequest

  /**
   * A failed check of the client's Validate helper, naming the field it was
   * given ("HTTP method", "Resource path").
   */
  datatype ValidationError = ValidationError(fieldName: string)

  const HTTP_METHOD_FIELD: string := "HTTP method"
  const RESOURCE_PATH_FIELD: string := "Resource path"

  /** Validate.notEmpty: the path is neither null nor empty. */
  predicate NotEmpty(s: Option<string>) {
    s.Some? && |s.value| > 0
  }

  class GenericApiGatewayRequestBuilder {
    var httpMethod: Option<HttpMethodName>
    var resourcePath: Option<string>
    var body: Option<InputStream>
    var headers: Option<Headers>

    /** A new builder: every field null. */
    constructor ()
      ensures httpMethod.None? && resourcePath.None? && body.None? && headers.None?
    {
      httpMethod := None;
      resourcePath := None;
      body := None;
      headers := None;
    }

    method WithHttpMethod(name: Option<HttpMethodName>) returns (self: GenericApiGatewayRequestBuilder)
      modifies this
      ensures self == this
      ensures httpMethod == name
      ensures resourcePath == old(resourcePath) && body == old(body) && headers == old(headers)
    {
      httpMethod := name;
      return this;
    }

    method WithResourcePath(path: Option<string>) returns (self: GenericApiGatewayRequestBuilder)
      modifies this
      ensures self == this
      ensures resourcePath == path
      ensures httpMethod == old(httpMethod) && body == old(body) && headers == old(headers)
    {
      resourcePath := path;
      return this;
    }

    method WithBody(content: Option<InputStream>) returns (self: GenericApiGatewayRequestBuilder)
      modifies this
      ensures self == this
      ensures body == content
      ensures httpMethod == old(httpMethod) && resourcePath == old(resourcePath) && headers == old(headers)
    {
      this.body := content;
      return this;
    }

    method WithHeaders(headers: Option<Headers>) returns (self: GenericApiGatewayRequestBuilder)
      modifies this
      ensures self == this
      ensures this.headers == headers
      ensures httpMethod == old(httpMethod) && resourcePath == old(resourcePath) && body == old(body)
    {
      this.headers := headers;
      return this;
    }

    /**
     * build(): fails on a null method, then on a null or empty resource path;
     * otherwise returns a request holding the builder's four fields. The
     * builder itself is not changed.
     */
    method Build() returns (r: Result<GenericApiGatewayRequest, ValidationError>)
      ensures httpMethod.None? ==> r == Failure(ValidationError(HTTP_METHOD_FIELD))
      ensures httpMethod.Some? && !NotEmpty(resourcePath) ==> r == Failure(ValidationError(RESOURCE_PATH_FIELD))
      ensures r.Success? <==> httpMethod.Some? && NotEmpty(resourcePath)
      ensures r.Success? ==>
        && r.value.GetHttpMethod() == httpMethod
        && r.value.GetResourcePath() == resourcePath
        && r.value.GetBody() == body
        && r.value.GetHeaders() == headers
    {
      if httpMethod.None? {
        return Failure(ValidationError(HTTP_METHOD_FIELD));
      }
      if resourcePath.None? || |resourcePath.value| == 0 {
        return Failure(ValidationError(RESOURCE_PATH_FIELD));
      }
      return Success(GenericApiGatewayRequest(httpMethod, resourcePath, body, headers));
    }
  }

  /** Building twice from the same builder yields equal outcomes. */
  method BuildTwice(builder: GenericApiGatewayRequestBuilder)
    returns (first: Result<GenericApiGatewayRequest, ValidationError>, second: Result<GenericApiGatewayRequest, ValidationError>)
    ensures first == second
    ensures first.Success? <==> builder.httpMethod.Some? && NotEmpty(builder.resourcePath)
  {
    first := builder.Build();
    second := builder.Build();
  }

  /**
   * The setters are last-write-wins: a builder given two methods and two paths
   * builds a request with the second of each, and a builder whose path was
   * overwritten by an empty one fails.
   */
  method LastWriteWins(m1: HttpMethodName, m2: HttpMethodName, p1: string, p2: string)
    returns (r: Result<GenericApiGatewayRequest, ValidationError>)
    ensures |p2| > 0 ==> r == Success(GenericApiGatewayRequest(Some(m2), Some(p2), None, None))
    ensures |p2| == 0 ==> r == Failure(ValidationError(RESOURCE_PATH_FIELD))
  {
    var builder := new GenericApiGatewayRequestBuilder();
    var b := builder.WithHttpMethod(Some(m1));
    b := b.WithResourcePath(Some(p1));
    b := b.WithHttpMethod(Some(m2));
    b := b.WithResourcePath(Some(p2));
    r := b.Build();
  }
}
