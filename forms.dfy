/** StarliteForm: the form class that remembers its request, and its
    asynchronous factory `create`, which decides from the request method
    whether request data is read and from the content type whether it is
    handed to the form as structured `data` or as raw `formdata`. */
module Forms {
  import opened Values
  import opened MultiDicts
  import opened Requests
  import opened Resolver

  /** The HTTP methods that submit a form. */
  const SubmitMethods: set<string> := {"POST", "PUT", "PATCH", "DELETE"}

  /** `request.method in SUBMIT_METHODS`: exactly POST, PUT, PATCH and
      DELETE, compared as written. */
  function IsSubmission(httpMethod: string): (b: bool)
    ensures b <==> httpMethod == "POST" || httpMethod == "PUT" || httpMethod == "PATCH" || httpMethod == "DELETE"
    ensures httpMethod == "GET" || httpMethod == "HEAD" ==> !b
  {
    httpMethod in SubmitMethods
  }

  /** An argument handed to the form constructor: the data the factory
      resolved, or a value the caller supplied (such as `obj`). */
  datatype Arg = ResolvedData(formdata: FormData) | CallerValue(value: Value)

  /** The keyword under which the factory passes the resolved data:
      `data` for a JSON request, `formdata` for any other. */
  function DataKeyword(contentType: string): (k: string)
    ensures k == "data" <==> contentType == JsonMediaType
    ensures k == "data" || k == "formdata"
  {
    if contentType == JsonMediaType then "data" else "formdata"
  }

  /** Python's binding of caller keywords to a function whose named
      parameters are `params`, all of them already bound positionally: a
      keyword that names one of them is rejected with a TypeError naming a
      clashing parameter, and any other keywords go to `**kwargs`
      unchanged. */
  function BindKeywords(params: seq<string>, kwargs: map<string, Arg>): (r: Result<map<string, Arg>, Error>)
    ensures r.Err? <==> exists i :: 0 <= i < |params| && params[i] in kwargs
    ensures r.Err? ==> exists i :: 0 <= i < |params| && params[i] in kwargs && r.error == DuplicateKeyword(params[i])
    ensures r.Ok? ==> r.value == kwargs
  {
    if params == [] then Ok(kwargs)
    else if params[0] in kwargs then Err(DuplicateKeyword(params[0]))
    else
      var rest := BindKeywords(params[1..], kwargs);
      assert forall i :: 1 <= i < |params| ==> params[i] == params[1..][i - 1];
      rest
  }

  /** `create(cls, request, **kwargs)`: a caller keyword named `cls` or
      `request` is rejected before the body runs. */
  function BindCreate(kwargs: map<string, Arg>): (r: Result<map<string, Arg>, Error>)
    ensures r.Err? <==> "cls" in kwargs || "request" in kwargs
    ensures r.Err? ==> r.error.DuplicateKeyword? && r.error.name in {"cls", "request"} && r.error.name in kwargs
    ensures r.Ok? ==> r.value == kwargs
  {
    var params := ["cls", "request"];
    assert params[0] == "cls" && params[1] == "request";
    BindKeywords(params, kwargs)
  }

  /** `__init__(self, request, *args, **kwargs)` called as `cls(request, ...)`:
      a keyword named `self` or `request` is rejected, every other keyword
      goes on to the form library unchanged. */
  function BindInit(kwargs: map<string, Arg>): (r: Result<map<string, Arg>, Error>)
    ensures r.Err? <==> "self" in kwargs || "request" in kwargs
    ensures r.Err? ==> r.error.DuplicateKeyword? && r.error.name in {"self", "request"} && r.error.name in kwargs
    ensures r.Ok? ==> r.value == kwargs
  {
    var params := ["self", "request"];
    assert params[0] == "self" && params[1] == "request";
    BindKeywords(params, kwargs)
  }

  /** The keyword arguments of `cls(request, <keyword>=formdata, **kwargs)`.
      Python rejects the call when the caller already passed `keyword`, and
      `__init__` rejects a caller keyword named `self` or `request`;
      otherwise every caller argument is forwarded unchanged, and the
      resolved data is added under `keyword`. */
  function ConstructorKwargs(keyword: string, formdata: FormData, kwargs: map<string, Arg>): (r: Result<map<string, Arg>, Error>)
    requires keyword == "data" || keyword == "formdata"
    ensures r.Err? <==> keyword in kwargs || "self" in kwargs || "request" in kwargs
    ensures keyword in kwargs ==> r == Err(DuplicateKeyword(keyword))
    ensures keyword !in kwargs ==> (r.Err? <==> BindInit(kwargs).Err?)
    ensures keyword !in kwargs && r.Err? ==> r.error == BindInit(kwargs).error
    ensures r.Ok? ==> r.value.Keys == kwargs.Keys + {keyword}
    ensures r.Ok? ==> forall k :: k in kwargs ==> r.value[k] == kwargs[k]
    ensures r.Ok? ==> r.value[keyword] == ResolvedData(formdata)
  {
    if keyword in kwargs then Err(DuplicateKeyword(keyword))
    else BindInit(kwargs[keyword := ResolvedData(formdata)])
  }

  /** The factory's two tests of the content type agree with the resolver's:
      the resolved data goes under `data` exactly when it came from the JSON
      body, and then it is a re-decoded MultiDict or a JSON document; under
      `formdata` it is the query parameters or the form body. */
  lemma KeywordMatchesSource(view: RequestView, loads: string -> Option<Value>)
    ensures DataKeyword(view.contentType) == "data" <==> SourceFor(Some(view)) == JsonBody
    ensures DataKeyword(view.contentType) == "formdata" <==> SourceFor(Some(view)) in {QueryParams, FormBody}
    ensures DataKeyword(view.contentType) == "data" && Resolve(Some(view), None, loads).Ok? ==>
              Resolve(Some(view), None, loads).value.NewMultiDict? || Resolve(Some(view), None, loads).value.JsonAsIs?
    ensures DataKeyword(view.contentType) == "formdata" ==>
              || Resolve(Some(view), None, loads) in {Ok(RequestQueryParams), Ok(RequestForm)}
              || (view.form.Err? && Resolve(Some(view), None, loads) == Err(view.form.error))
  {
  }

  /** A form instance. `request` is the request it was built for; `args`
      and `kwargs` record what was delegated to the form library's own
      constructor, which is not part of this model. */
  class StarliteForm {
    const request: Requests.Request
    const args: seq<Arg>
    const kwargs: map<string, Arg>

    /** `__init__(self, request, *args, **kwargs)`: store the request, then
        delegate the remaining arguments unchanged. */
    constructor (request: Requests.Request, args: seq<Arg>, kwargs: map<string, Arg>)
      ensures this.request == request && this.args == args && this.kwargs == kwargs
    {
      this.request := request;
      this.args := args;
      this.kwargs := kwargs;
    }
  }

  /** What a successful submission hands the constructor: the caller's
      arguments plus the resolved data under the content type's keyword,
      that data being what the resolver describes. */
  ghost predicate SubmittedWith(form: StarliteForm, request: Requests.Request, kwargs: map<string, Arg>,
                                res: Result<Resolved, Error>, lib: Library)
    reads form, if DataKeyword(request.contentType) in form.kwargs && form.kwargs[DataKeyword(request.contentType)].ResolvedData?
                then Footprint(form.kwargs[DataKeyword(request.contentType)].formdata) else {}
  {
    var keyword := DataKeyword(request.contentType);
    && keyword in form.kwargs
    && form.kwargs[keyword].ResolvedData?
    && ConstructorKwargs(keyword, form.kwargs[keyword].formdata, kwargs) == Ok(form.kwargs)
    && Realizes(Ok(form.kwargs[keyword].formdata), res, request, lib)
  }

  /** StarliteForm.create. A call whose keywords clash with create's own
      parameters fails before anything happens. A non-submission builds the
      form from the caller's arguments alone and leaves the request
      untouched. A submission resolves the request's data exactly once and
      then builds the form with it. */
  method Create(request: Requests.Request, kwargs: map<string, Arg>, loads: string -> Option<Value>, lib: Library)
    returns (r: Result<StarliteForm, Error>)
    requires request.Valid()
    modifies RequestFootprint(request)
    ensures request.resolutions ==
              old(request.resolutions) + (if BindCreate(kwargs).Ok? && IsSubmission(request.httpMethod) then 1 else 0)
    ensures r.Ok? ==> fresh(r.value) && r.value.request == request && r.value.args == []
    ensures BindCreate(kwargs).Err? ==>
              r == Err(BindCreate(kwargs).error) && unchanged(RequestFootprint(request))
    ensures BindCreate(kwargs).Ok? && !IsSubmission(request.httpMethod) ==>
              && unchanged(RequestFootprint(request))
              && (BindInit(kwargs).Err? ==> r == Err(BindInit(kwargs).error))
              && (BindInit(kwargs).Ok? ==> r.Ok? && r.value.kwargs == kwargs)
    ensures BindCreate(kwargs).Ok? && IsSubmission(request.httpMethod) ==> ResolutionEffects(request)
    ensures BindCreate(kwargs).Ok? && IsSubmission(request.httpMethod) ==>
              var res := Resolve(Some(request.View()), None, loads);
              var keyword := DataKeyword(request.contentType);
              && (res.Err? ==> r == Err(res.error))
              && (res.Ok? && keyword in kwargs ==> r == Err(DuplicateKeyword(keyword)))
              && (res.Ok? && keyword !in kwargs && BindInit(kwargs).Err? ==> r == Err(BindInit(kwargs).error))
              && (res.Ok? && keyword !in kwargs && BindInit(kwargs).Ok? ==> r.Ok?)
              && (r.Ok? ==> SubmittedWith(r.value, request, kwargs, res, lib))
  {
    var bound := BindCreate(kwargs);
    if bound.Err? {
      return Err(bound.error);
    }
    if IsSubmission(request.httpMethod) {
      var formdata := GetFormdata(request, None, loads, lib);
      if formdata.Err? {
        return Err(formdata.error);
      }
      var keyword := DataKeyword(request.contentType);
      var initKwargs := ConstructorKwargs(keyword, formdata.value, kwargs);
      if initKwargs.Err? {
        return Err(initKwargs.error);
      }
      var form := new StarliteForm(request, [], initKwargs.value);
      return Ok(form);
    }
    var initKwargs := BindInit(kwargs);
    if initKwargs.Err? {
      return Err(initKwargs.error);
    }
    var form := new StarliteForm(request, [], initKwargs.value);
    return Ok(form);
  }
}
