/**
  The front end's API client: the URL builder, the error object `fetchJson`
  throws for a non-ok response, and `deleteApplication`, which always
  throws. The response is given as its status, status text and parsed body
  (`null` when the body is not JSON); the network call itself is not part of
  the model.
*/
module ApiClient {
  import opened JsValue

  /* ---------- the URL builder ---------- */

  /** `base.replace(/\/$/, '')`: one trailing '/' removed, if there is one. */
  function TrimTrailingSlash(base: string): (r: string)
    ensures r == base || (r + "/" == base)
    ensures |base| > 0 && base[|base| - 1] == '/' ==> r + "/" == base
    ensures !(|base| > 0 && base[|base| - 1] == '/') ==> r == base
  {
    if |base| > 0 && base[|base| - 1] == '/' then base[..|base| - 1] else base
  }

  /** `p` with a leading '/' added unless it has one. */
  function Rooted(p: string): (r: string)
    ensures |r| > 0 && r[0] == '/'
    ensures r == p || r == "/" + p
    ensures r == p <==> |p| > 0 && p[0] == '/'
  {
    if |p| > 0 && p[0] == '/' then p else "/" + p
  }

  /** `API(p)`: the base without one trailing '/', then `/api`, then the path
      with exactly one '/' in front of it when it has none. */
  function Api(base: string, p: string): (url: string)
    ensures url == TrimTrailingSlash(base) + "/api" + Rooted(p)
    ensures |url| == |TrimTrailingSlash(base)| + 4 + |Rooted(p)|
  {
    TrimTrailingSlash(base) + "/api" + Rooted(p)
  }

  /** The URL starts with the base minus at most its last '/': nothing of
      the base is lost. */
  lemma ApiStartsWithBase(base: string, p: string)
    ensures var url := Api(base, p);
      url[..|base|] == base || url[..|base| - 1] + "/" == base
  {
    var t := TrimTrailingSlash(base);
    var url := Api(base, p);
    assert url == t + ("/api" + Rooted(p));
    assert url[..|t|] == t;
  }

  /** The URL ends with the path as given. */
  lemma ApiEndsWithPath(base: string, p: string)
    ensures var url := Api(base, p);
      url[|url| - |p|..] == p
  {
    var r := Rooted(p);
    var url := Api(base, p);
    assert url == (TrimTrailingSlash(base) + "/api") + r;
    assert url[|url| - |r|..] == r;
    assert r[|r| - |p|..] == p;
  }

  /** A path with or without its leading '/' gives the same URL. */
  lemma ApiLeadingSlashOptional(base: string, p: string)
    requires |p| == 0 || p[0] != '/'
    ensures Api(base, "/" + p) == Api(base, p)
  {
    assert ("/" + p)[0] == '/';
  }

  /** A base with or without a trailing '/' gives the same URL. */
  lemma ApiTrailingSlashOptional(base: string, p: string)
    requires |base| == 0 || base[|base| - 1] != '/'
    ensures Api(base + "/", p) == Api(base, p)
  {
    assert (base + "/")[..|base|] == base;
  }

  /** Only one trailing '/' is removed: a base ending in "//" keeps one. */
  lemma ApiKeepsSecondSlash(base: string, p: string)
    ensures Api(base + "//", p) == base + "/" + "/api" + Rooted(p)
  {
    assert (base + "//")[..|base| + 1] == base + "/";
  }

  /* ---------- fetchJson ---------- */

  /** The parts of a `fetch` response `fetchJson` reads. */
  datatype Response = Response(status: int, statusText: string)
  {
    /** `res.ok`. */
    predicate Ok() {
      200 <= status <= 299
    }
  }

  /** An async call's outcome: the value it resolves to or the value it throws. */
  datatype Outcome = Returned(value: Value) | Threw(error: Value)

  /** The `message` of the error `fetchJson` throws. For a truthy object
      body (`typeof body === 'object'`, arrays included): `body.error`, else
      `body.message`, else the serialised body. Otherwise the status text,
      else "HTTP " and the status. */
  function ErrorMessage(res: Response, body: Value, stringify: Value -> string): (m: Value)
    ensures Truthy(body) && IsObjectType(body) && Truthy(Get(body, "error")) ==> m == Get(body, "error")
    ensures Truthy(body) && IsObjectType(body) && !Truthy(Get(body, "error")) && Truthy(Get(body, "message"))
            ==> m == Get(body, "message")
    ensures Truthy(body) && IsObjectType(body) && !Truthy(Get(body, "error")) && !Truthy(Get(body, "message"))
            ==> m == Str(stringify(body))
    ensures !(Truthy(body) && IsObjectType(body)) ==>
            m == Str(if res.statusText != "" then res.statusText else "HTTP " + IntToDecimal(res.status))
  {
    if Truthy(body) && IsObjectType(body) then
      Or(Or(Get(body, "error"), Get(body, "message")), Str(stringify(body)))
    else
      Or(Str(res.statusText), Str("HTTP " + IntToDecimal(res.status)))
  }

  /** The error object: `status`, `message` and `body`, nothing else. */
  function ErrorObject(res: Response, body: Value, stringify: Value -> string): Value {
    Obj(map["status" := Num(Int(res.status)), "message" := ErrorMessage(res, body, stringify), "body" := body])
  }

  /** `fetchJson` once the response and its parsed body are known. */
  function FetchJson(res: Response, body: Value, stringify: Value -> string): (r: Outcome)
    ensures res.Ok() ==> r == Returned(body)
    ensures !res.Ok() ==> r.Threw? && r.error.Obj?
    ensures !res.Ok() ==> r.error.fields.Keys == {"status", "message", "body"}
    ensures !res.Ok() ==> r.error.fields["status"] == Num(Int(res.status)) && r.error.fields["body"] == body
    ensures !res.Ok() ==> r.error.fields["message"] == ErrorMessage(res, body, stringify)
  {
    if res.Ok() then Returned(body) else Threw(ErrorObject(res, body, stringify))
  }

  /** `JSON.stringify` never gives the empty string for an object or array. */
  predicate SerializesNonEmpty(stringify: Value -> string, v: Value) {
    (v.Obj? || v.Arr?) ==> stringify(v) != ""
  }

  /** The thrown message is never falsy (for a serialiser that writes at
      least the brackets of an object or array). */
  lemma ErrorMessageTruthy(res: Response, body: Value, stringify: Value -> string)
    requires SerializesNonEmpty(stringify, body)
    ensures Truthy(ErrorMessage(res, body, stringify))
  {
    var h := "HTTP " + IntToDecimal(res.status);
    assert h[0] == 'H';
  }

  /** The message of an error with an empty status text and a non-object body
      names the status. */
  lemma ErrorMessageNamesStatus(status: int, body: Value, stringify: Value -> string)
    requires !(status >= 200 && status <= 299) && !(Truthy(body) && IsObjectType(body))
    ensures FetchJson(Response(status, ""), body, stringify) ==
            Threw(Obj(map["status" := Num(Int(status)), "message" := Str("HTTP " + IntToDecimal(status)), "body" := body]))
  {
  }

  /* ---------- deleteApplication ---------- */

  /** `throw new Error(message)`: an object whose `message` is the text. */
  function ErrorWith(message: string): (e: Value)
    ensures e.Obj? && e.fields.Keys == {"message"} && e.fields["message"] == Str(message)
  {
    Obj(map["message" := Str(message)])
  }

  /** `deleteApplication`: the back end has no such call, so it always throws. */
  function DeleteApplication(applicationID: int): (r: Outcome)
    ensures r.Threw? && r.error == ErrorWith("deleteApplication not implemented on backend")
  {
    Threw(ErrorWith("deleteApplication not implemented on backend"))
  }
}
