/** get_formdata: turn either a caller's mapping or a request into one
    key/multi-value container, with the fixed precedence
    caller data (no request) > JSON body > query parameters > form body. */
module Resolver {
  import opened Values
  import opened MultiDicts
  import opened Requests

  const JsonMediaType := "application/json"

  /** The place the form data comes from. */
  datatype Source = LiteralData | JsonBody | QueryParams | FormBody

  /** The source get_formdata consults, given the request (None when there
      is none and the caller supplied data instead). */
  function SourceFor(view: Option<RequestView>): (s: Source)
    ensures s == LiteralData <==> view.None?
    ensures s == JsonBody <==> view.Some? && view.value.contentType == JsonMediaType
    ensures s == QueryParams <==> view.Some? && view.value.contentType != JsonMediaType && view.value.query != []
    ensures s == FormBody <==> view.Some? && view.value.contentType != JsonMediaType && view.value.query == []
  {
    if view.None? then LiteralData
    else if view.value.contentType == JsonMediaType then JsonBody
    else if |view.value.query| > 0 then QueryParams
    else FormBody
  }

  /** What get_formdata hands back, as a value: a new FormMultiDict or
      MultiDict with the given pairs, a JSON document returned as it is, or
      one of the request's own objects. */
  datatype Resolved =
    | NewFormMultiDict(items: Items)
    | NewMultiDict(items: Items)
    | JsonAsIs(value: Value)
    | RequestQueryParams
    | RequestForm

  /** The JSON branch. A decoded body that is a string is a double-encoded
      document: it is decoded once more with `loads` (None when the string
      is not valid JSON) and wrapped as a MultiDict. Any other decoded body
      is returned as it is. */
  function DecodeJsonBody(body: Result<Value, Error>, loads: string -> Option<Value>): (r: Result<Resolved, Error>)
    ensures body.Err? ==> r == Err(body.error)
    ensures body.Ok? && !body.value.Str? ==> r == Ok(JsonAsIs(body.value))
    ensures body.Ok? && body.value.Str? && loads(body.value.s).None? ==> r == Err(JsonDecodeError)
    ensures body.Ok? && body.value.Str? && loads(body.value.s).Some? ==>
              r == (match MultiDictItems(loads(body.value.s).value)
                    case Ok(items) => Ok(NewMultiDict(items))
                    case Err(e) => Err(e))
    ensures r.Ok? ==> r.value.NewMultiDict? || r.value.JsonAsIs?
    ensures r.Ok? && r.value.JsonAsIs? ==> !r.value.value.Str?
    ensures r.Ok? && r.value.NewMultiDict? ==>
              body.Ok? && body.value.Str? && loads(body.value.s).Some? &&
              MultiDictItems(loads(body.value.s).value) == Ok(r.value.items)
  {
    match body
    case Err(e) => Err(e)
    case Ok(Str(s)) =>
      (match loads(s)
       case None => Err(JsonDecodeError)
       case Some(v) =>
         (match MultiDictItems(v)
          case Err(e) => Err(e)
          case Ok(items) => Ok(NewMultiDict(items))))
    case Ok(v) => Ok(JsonAsIs(v))
  }

  /** get_formdata(request, data) as a value. `loads` stands for json.loads:
      None means it raised its decode error. */
  function Resolve(view: Option<RequestView>, data: Option<Items>, loads: string -> Option<Value>): (r: Result<Resolved, Error>)
    requires view.Some? || data.Some?
    ensures view.None? ==> r == Ok(NewFormMultiDict(data.value))
    ensures view.Some? && view.value.contentType == JsonMediaType ==> r == DecodeJsonBody(view.value.json, loads)
    ensures view.Some? && view.value.contentType != JsonMediaType && view.value.query != [] ==> r == Ok(RequestQueryParams)
    ensures view.Some? && view.value.contentType != JsonMediaType && view.value.query == [] ==>
              r == (if view.value.form.Ok? then Ok(RequestForm) else Err(view.value.form.error))
    ensures r.Err? ==> view.Some? && (view.value.contentType == JsonMediaType || view.value.form.Err?)
  {
    match SourceFor(view)
    case LiteralData => Ok(NewFormMultiDict(data.value))
    case JsonBody => DecodeJsonBody(view.value.json, loads)
    case QueryParams => Ok(RequestQueryParams)
    case FormBody =>
      (match view.value.form
       case Ok(_) => Ok(RequestForm)
       case Err(e) => Err(e))
  }

  /** Once a request is given, the caller's `data` plays no part. */
  lemma ResolveIgnoresData(view: RequestView, d1: Option<Items>, d2: Option<Items>, loads: string -> Option<Value>)
    ensures Resolve(Some(view), d1, loads) == Resolve(Some(view), d2, loads)
  {
  }

  /** A JSON request is decided by its JSON body alone: its query parameters
      and its form body play no part. */
  lemma JsonBodyDecidesAlone(v1: RequestView, v2: RequestView, loads: string -> Option<Value>)
    requires v1.contentType == JsonMediaType && v2.contentType == JsonMediaType
    requires v1.json == v2.json
    ensures Resolve(Some(v1), None, loads) == Resolve(Some(v2), None, loads)
  {
  }

  /** A JSON body that decodes to a string holding an encoded object (a
      client that encoded its document twice) yields that object's pairs,
      and `getlist` then finds each field's value. */
  lemma DoubleEncodedJsonBody(view: RequestView, s: string, loads: string -> Option<Value>)
    requires view.contentType == JsonMediaType && view.json == Ok(Str(s))
    requires loads(s) == Some(Dict([("firstname", Str("jsons")), ("lastname", Str("dumps")), ("active", Bool(true))]))
    ensures Resolve(Some(view), None, loads).Ok?
    ensures var items := Resolve(Some(view), None, loads).value.items;
            && Getlist(items, "firstname") == [Str("jsons")]
            && Getlist(items, "lastname") == [Str("dumps")]
            && Getlist(items, "active") == [Bool(true)]
  {
  }

  /** A form-encoded request with a query string is answered from the query
      parameters, whatever its bodies hold; a field not in the query string
      has no values. */
  lemma QueryStringRequest(view: RequestView, loads: string -> Option<Value>)
    requires view.contentType != JsonMediaType && view.query == [("firstname", Str("args"))]
    ensures Resolve(Some(view), None, loads) == Ok(RequestQueryParams)
    ensures Getlist(view.query, "firstname") == [Str("args")]
    ensures Getlist(view.query, "lastname") == []
  {
  }

  /** The request as get_formdata sees it. */
  function ViewOf(request: Requests.Request?): (v: Option<RequestView>)
    ensures v.Some? <==> request != null
  {
    if request == null then None else Some(request.View())
  }

  /** The request's parsed form object, when its form body parses. */
  function FormObjects(request: Requests.Request): set<object>
  {
    if request.formBody.Ok? then {request.formBody.value} else {}
  }

  /** The objects get_formdata may change: the request (body reads) and the
      request's multi-dicts (the patch). */
  function RequestFootprint(request: Requests.Request?): set<object>
  {
    if request == null then {} else {request, request.queryParams} + FormObjects(request)
  }

  /** The object result `r` is the value `res` describes; a new multi-dict
      carries its class's initial `getlist` attribute in `lib`, patched. */
  ghost predicate Realizes(r: Result<FormData, Error>, res: Result<Resolved, Error>, request: Requests.Request?, lib: Library)
    reads if r.Ok? then Footprint(r.value) else {}
  {
    match res
    case Err(e) => r == Err(e)
    case Ok(NewFormMultiDict(items)) =>
      r.Ok? && r.value.Multi? && r.value.md.kind == FormMultiDictKind &&
      r.value.md.items == items && r.value.md.getlist == PatchedAttr(lib.formMultiDictGetlist)
    case Ok(NewMultiDict(items)) =>
      r.Ok? && r.value.Multi? && r.value.md.kind == MultiDictKind &&
      r.value.md.items == items && r.value.md.getlist == PatchedAttr(lib.multiDictGetlist)
    case Ok(JsonAsIs(v)) => r == Ok(Plain(v))
    case Ok(RequestQueryParams) => request != null && r == Ok(Multi(request.queryParams))
    case Ok(RequestForm) => request != null && request.formBody.Ok? && r == Ok(Multi(request.formBody.value))
  }

  /** What resolving from `request` does to it: the JSON body is read once
      on the JSON path, the form body once on the form path, and nothing is
      read otherwise; the query-parameter object is patched in place on the
      query path and the form object on the form path; and the request's data
      has been resolved once more. */
  twostate predicate ResolutionEffects(request: Requests.Request)
    reads RequestFootprint(request)
  {
    var source := SourceFor(Some(request.View()));
    && request.resolutions == old(request.resolutions) + 1
    && request.jsonReads == old(request.jsonReads) + (if source == JsonBody then 1 else 0)
    && request.formReads == old(request.formReads) + (if source == FormBody then 1 else 0)
    && request.queryParams.getlist ==
         (if source == QueryParams then PatchedAttr(old(request.queryParams.getlist)) else old(request.queryParams.getlist))
    && (request.formBody.Ok? ==>
          request.formBody.value.getlist ==
            (if source == FormBody then PatchedAttr(old(request.formBody.value.getlist))
             else old(request.formBody.value.getlist)))
  }

  /** get_formdata. With no request, the caller's mapping becomes a new
      FormMultiDict and no request attribute is consulted. With a request,
      `data` is ignored and the request's content type and query parameters
      choose the source. Every result passes through the patch. */
  method GetFormdata(request: Requests.Request?, data: Option<Items>, loads: string -> Option<Value>, lib: Library)
    returns (r: Result<FormData, Error>)
    requires request != null || data.Some?
    requires request != null ==> request.Valid()
    modifies RequestFootprint(request)
    ensures Realizes(r, Resolve(ViewOf(request), data, loads), request, lib)
    ensures r.Ok? && r.value.Multi? && request == null ==> fresh(r.value.md)
    ensures r.Ok? && r.value.Multi? && request != null && SourceFor(ViewOf(request)) == JsonBody ==> fresh(r.value.md)
    ensures request != null ==> ResolutionEffects(request)
  {
    if request == null {
      var md := new MultiDict(FormMultiDictKind, data.value, lib.formMultiDictGetlist);
      var patched := PatchFormMultiDict(Multi(md));
      return Ok(patched);
    }
    request.resolutions := request.resolutions + 1;
    if request.contentType == JsonMediaType {
      var body := request.Json();
      if body.Err? {
        return Err(body.error);
      }
      var jsonData := body.value;
      if jsonData.Str? {
        var parsed := loads(jsonData.s);
        if parsed.None? {
          return Err(JsonDecodeError);
        }
        var items := MultiDictItems(parsed.value);
        if items.Err? {
          return Err(items.error);
        }
        var md := new MultiDict(MultiDictKind, items.value, lib.multiDictGetlist);
        var patched := PatchFormMultiDict(Multi(md));
        return Ok(patched);
      }
      var patched := PatchFormMultiDict(Plain(jsonData));
      return Ok(patched);
    } else if |request.queryParams.items| > 0 {
      var patched := PatchFormMultiDict(Multi(request.queryParams));
      return Ok(patched);
    } else {
      var formdata := request.Form();
      if formdata.Err? {
        return Err(formdata.error);
      }
      var patched := PatchFormMultiDict(Multi(formdata.value));
      return Ok(patched);
    }
  }
}
