# starlite-wtf: form-data resolution and the form factory

This project models the logic that starlite-wtf adds between the Starlite
web framework and the WTForms form library, and proves properties of it in
Dafny.

- **Data-source resolver** (`get_formdata`, `getlist`, `patch_FormMultiDict`
  in `src/util.py`). It turns a caller's mapping, or a request, into one
  key/multi-value container. The precedence is fixed: the caller's data when
  there is no request, then the JSON body, then non-empty query parameters,
  then the form or multipart body. A JSON body that decodes to a string is
  decoded a second time and wrapped as a MultiDict. Every result goes through
  the patch. The patch replaces the `getlist` attribute of a FormMultiDict or
  MultiDict with `getall(key, [])` and returns the same object.
- **Form factory** (`SUBMIT_METHODS`, `StarliteForm.__init__` and
  `StarliteForm.create` in `src/form.py`). Only POST, PUT, PATCH and DELETE
  read request data. JSON requests pass the resolved data as `data=`. Every
  other request passes it as `formdata=`. The caller's keyword arguments are
  forwarded in every branch.

Modules, leaf first:

- `Values` (values.dfy): Python values, pairs, errors, `Option` and `Result`.
- `MultiDicts` (multidicts.dfy): lookup by key, `getlist`, the `getlist`
  attribute state, the in-place patch, and the pairs `MultiDict(x)` is built from.
- `Requests` (requests.dfy): the request as constant attributes, plus
  counters of JSON-body and form-body reads.
- `Resolver` (resolver.dfy): the resolver as a pure function `Resolve`, and
  as the method `GetFormdata`, which reads the body and patches objects.
  `GetFormdata` is proved against `Resolve`.
- `Forms` (forms.dfy): the submission test, the keyword choice, keyword
  merging, the `StarliteForm` class, and `Create`, which is proved against
  `Resolve` and the keyword functions.

Inputs the model cannot see become parameters. `json.loads` is the function
parameter `loads`. What `request.json()` and `request.form()` produce are
constant fields of the request object.

## Model

| member | source | states |
|---|---|---|
| `MultiDicts.ValuesOf` | src/util.py:12 | the values found under a key are at most as many as the pairs, and each one is stored under that key |
| `MultiDicts.ValuesOfEmptyIffAbsent` | src/util.py:11-12 | a key has no values exactly when it occurs in no pair |
| `MultiDicts.ValuesOfComplete` | src/util.py:11-12 | a value is found under a key exactly when that key/value pair is stored |
| `MultiDicts.ValuesOfAppend` | src/util.py:11-12 | lookup keeps insertion order: the values of a concatenation are the first part's values followed by the second's |
| `MultiDicts.Getlist` | src/util.py:11-12 | `getlist(k)` never fails; it is empty exactly when `k` is absent, and it holds exactly the values stored under `k`, in order |
| `MultiDicts.GetlistAfterAdd` | src/util.py:11-12 | adding a pair under `k` appends its value to `getlist(k)` and leaves every other key's answer unchanged |
| `MultiDicts.PatchedAttr` | src/util.py:18-21 | after the patch, a multi-dict has the replacement `getlist` exactly when it had a `getlist` attribute before; an absent attribute stays absent |
| `MultiDicts.PatchFormMultiDict` | src/util.py:15-22 | returns the very object it was given; overwrites `getlist` on a multi-dict that has one; changes nothing for any other value |
| `MultiDicts.PairsOf` | src/util.py:34 | a list becomes pairs exactly when every element is a two-element list with a string key; the pairs are those elements, in order |
| `MultiDicts.MultiDictItems` | src/util.py:34 | `MultiDict(x)` keeps a mapping's entries and a pair list's pairs; it raises a TypeError exactly when `x` is neither |
| `Requests.Request.Json` | src/util.py:32 | `await request.json()` yields the decoded body (or raises) and counts one JSON read, with no form read |
| `Requests.Request.Form` | src/util.py:39 | `await request.form()` yields the request's FormMultiDict or raises the request's form error, and counts one form read, with no JSON read |
| `Resolver.SourceFor` | src/util.py:26-40 | the fixed precedence: no request means caller data; a JSON content type means the JSON body; otherwise non-empty query parameters; otherwise the form body (all four as if-and-only-if) |
| `Resolver.DecodeJsonBody` | src/util.py:29-35 | an error of `request.json()` propagates; a string that `json.loads` rejects gives the JSON decode error; a non-string document is returned as is; a string is decoded again, and the result is a new MultiDict of exactly the pairs `MultiDict(...)` takes from the decoded value, or its TypeError; a bare string is never returned |
| `Resolver.Resolve` | src/util.py:25-40 | with no request, the caller's mapping becomes a new FormMultiDict; a JSON request is decided by its JSON body alone; any other request gives its query parameters when they are non-empty, else its form body, or the error the form read raises; a result is an error only on the JSON path or a failed form read |
| `Resolver.ResolveIgnoresData` | src/util.py:26-29 | once a request is given, the caller's `data` does not affect the result |
| `Resolver.JsonBodyDecidesAlone` | src/util.py:29-35 | two JSON requests with the same JSON body resolve alike, whatever their query parameters and form bodies |
| `Resolver.DoubleEncodedJsonBody` | src/util.py:32-34 | a body encoded twice yields the inner object's pairs, and `getlist` finds each field's value |
| `Resolver.QueryStringRequest` | src/util.py:36-37 | a non-JSON request with a query string is answered from its query parameters; a field missing from the query string has no values |
| `Resolver.GetFormdata` | src/util.py:25-40 | the result object is what `Resolve` describes; new multi-dicts are fresh, and carry their class's initial `getlist` attribute (a parameter of the installed library), patched; the JSON body is read once on the JSON path only; the form body is read once on the form path only, and its error propagates; nothing is read on the query path; the request's query-parameter or form object is patched in place on its own path; every call with a request counts one resolution on it |
| `Forms.IsSubmission` | src/form.py:7 | the submission methods are exactly POST, PUT, PATCH and DELETE; GET and HEAD are not |
| `Forms.DataKeyword` | src/form.py:19-22 | the resolved data is passed as `data` exactly for the JSON content type, and as `formdata` otherwise |
| `Forms.BindKeywords` | src/form.py:11-16 | Python's binding of caller keywords to already-bound named parameters: a TypeError exactly when some keyword names one of them, naming one of the clashing parameters; otherwise the keywords are passed on unchanged |
| `Forms.BindCreate` | src/form.py:16 | calling `create` with a keyword named `cls` or `request` raises a TypeError, and the name it gives is one of those the caller passed; any other keywords are accepted unchanged |
| `Forms.BindInit` | src/form.py:11 | `cls(request, ...)` with a keyword named `self` or `request` raises a TypeError, and the name it gives is one of those the caller passed; any other keywords reach the form library unchanged |
| `Forms.ConstructorKwargs` | src/form.py:11-22 | raises a duplicate-keyword TypeError exactly when the caller already passed the data keyword, or a keyword named `self` or `request`; otherwise it forwards every caller argument unchanged and adds only the resolved data under the keyword |
| `Forms.KeywordMatchesSource` | src/form.py:19 | the factory and the resolver test the same content type, so `data=` always receives the JSON-derived value and `formdata=` the query parameters or the form body (unless the form read fails) |
| `Forms.StarliteForm.constructor` | src/form.py:11-13 | the instance keeps its request, and the remaining arguments are delegated unchanged |
| `Forms.Create` | src/form.py:15-24 | keywords clashing with `create`'s parameters fail before anything happens; the request's data is resolved once for a submission and never otherwise; a non-submission builds the form from the caller's arguments alone and leaves the request untouched; a submission passes the resolved data under the content type's keyword, forwards the caller's arguments, and propagates resolver errors and the duplicate-keyword errors of the data keyword, `self` and `request` |

## Left out

- `is_submitted`, `validate` and `validate_on_submit`: the tests call these, but `src/form.py` does not define them.
- The WTForms field machinery (`process`, `populate_obj`, `data`/`errors`, validators, the precedence between `data`, `formdata` and `obj`, checkbox defaults): foreign library. The model records the arguments handed to the library's constructor.
- Starlite's request internals: body parsing, content-type parsing, caching of the parsed body, and the multi-dict implementations. Their results are constant fields of the request.
- `Requests.Request.Valid`: the framework guarantees that query parameters are a MultiDict and a parsed form is a FormMultiDict. The model assumes this as a precondition.
- `json.loads` is an arbitrary function parameter `loads` returning `Option`: `None` stands for its decode error, its only exception here. JSON numbers are integers only; floating point is not modelled.
- `Requests.Request.jsonBody` and `formBody` may hold any error: reading the body can fail in ways the framework owns (a decode error, a consumed stream, a client disconnect, a malformed multipart body), and the model only propagates them.
- `Forms.BindKeywords`: the order of the caller's keywords is not modelled, because keyword arguments are a `map`. Python reports the first clashing keyword in the caller's order. The contract promises only that the reported name is one of the clashing parameters; the function itself picks by parameter order.
- `MultiDicts.MultiDictItems`: models the foreign `MultiDict(x)` constructor as accepting a mapping or a list of `[key, value]` lists. Other iterables, tuples, and falsy arguments that the library may map to an empty dict are not modelled. They are reported as a TypeError.
- Whether a new FormMultiDict or MultiDict has a `getlist` attribute depends on the installed framework version (the comment at src/util.py:16-17 says only that FormMultiDict's is deprecated). The model takes the initial attribute of each class as the parameter `lib`. The behaviour of the library's own `getlist` is not modelled, only the replacement's.
- `Requests.Request.resolutions` counts resolutions so that contracts can say how often `get_formdata` runs. The framework has no such attribute.
- `types.MethodType` binding is modelled as a change of the object's `getlist` attribute state, not as Python method binding.
- File uploads: an upload is only its file name. Stream reads are I/O through foreign types.
- `async`/`await`: the awaits are modelled as ordinary sequential calls, since no concurrency is involved.
- Calling `get_formdata` with neither a request nor data fails with an attribute error in the source (src/util.py:29). The model makes "request or data given" a precondition.
- Positional arguments: `create` passes none, so only `StarliteForm.constructor` takes them.
