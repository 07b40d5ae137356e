/** The incoming HTTP request, reduced to what the resolver and the form
    factory consult. Body reads are counted so that the model can say which
    of them happen. */
module Requests {
  import opened Values
  import opened MultiDicts

  /** The request's attributes as plain values. */
  datatype RequestView = RequestView(
    httpMethod: string,          // request.method
    contentType: string,         // request.content_type[0], the media type
    query: Items,                // request.query_params
    json: Result<Value, Error>,  // what request.json() yields, or the decode error it raises
    form: Result<Items, Error>)  // what request.form() yields, or the error it raises

  class Request {
    const httpMethod: string
    const contentType: string
    const queryParams: MultiDict
    const jsonBody: Result<Value, Error>
    const formBody: Result<MultiDict, Error>
    /** How many times the body has been read as JSON, and as a form. */
    var jsonReads: nat
    var formReads: nat
    /** How many times get_formdata has resolved this request's data. This
        counter instruments the model; the framework has no such attribute. */
    var resolutions: nat

    /** The framework's guarantee: query parameters come as a MultiDict,
        a parsed form body as a FormMultiDict (so they are two objects). */
    predicate Valid()
    {
      queryParams.kind == MultiDictKind && (formBody.Ok? ==> formBody.value.kind == FormMultiDictKind)
    }

    constructor (httpMethod: string, contentType: string, queryParams: MultiDict,
                 jsonBody: Result<Value, Error>, formBody: Result<MultiDict, Error>)
      requires queryParams.kind == MultiDictKind && (formBody.Ok? ==> formBody.value.kind == FormMultiDictKind)
      ensures Valid()
      ensures this.httpMethod == httpMethod && this.contentType == contentType
      ensures this.queryParams == queryParams && this.jsonBody == jsonBody
      ensures this.formBody == formBody
      ensures jsonReads == 0 && formReads == 0 && resolutions == 0
    {
      this.httpMethod := httpMethod;
      this.contentType := contentType;
      this.queryParams := queryParams;
      this.jsonBody := jsonBody;
      this.formBody := formBody;
      jsonReads, formReads, resolutions := 0, 0, 0;
    }

    function View(): RequestView
    {
      RequestView(httpMethod, contentType, queryParams.items, jsonBody,
                  if formBody.Ok? then Ok(formBody.value.items) else Err(formBody.error))
    }

    /** `await request.json()`: one read of the body. */
    method Json() returns (r: Result<Value, Error>)
      modifies this
      ensures r == jsonBody
      ensures jsonReads == old(jsonReads) + 1 && formReads == old(formReads)
      ensures resolutions == old(resolutions)
    {
      r := jsonBody;
      jsonReads := jsonReads + 1;
    }

    /** `await request.form()`: one read of the body, which yields the
        parsed FormMultiDict or raises. */
    method Form() returns (fd: Result<MultiDict, Error>)
      modifies this
      ensures fd == formBody
      ensures formReads == old(formReads) + 1 && jsonReads == old(jsonReads)
      ensures resolutions == old(resolutions)
    {
      fd := formBody;
      formReads := formReads + 1;
    }
  }
}
