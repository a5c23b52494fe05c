/**
  The sign-in screen's `showErrorFrom`: the text it displays for whatever an
  API call threw.
*/
module Auth {
  import opened JsValue
  import opened ApiClient

  const DefaultError := "An error occurred"

  /** `showErrorFrom(err)`: the default for a falsy value, a string itself,
      else a truthy `message`, else a truthy `error`, else, for an object
      `body`, its `error`, `message` or serialised form, else the default. */
  function ShowErrorFrom(err: Value, stringify: Value -> string): (r: Value)
    ensures !Truthy(err) ==> r == Str(DefaultError)
    ensures Truthy(err) && err.Str? ==> r == err
    ensures Truthy(err) && !err.Str? && Truthy(Get(err, "message")) ==> r == Get(err, "message")
    ensures Truthy(err) && !err.Str? && !Truthy(Get(err, "message")) && Truthy(Get(err, "error"))
            ==> r == Get(err, "error")
    ensures Truthy(err) && !err.Str? && !Truthy(Get(err, "message")) && !Truthy(Get(err, "error"))
            && !(Truthy(Get(err, "body")) && IsObjectType(Get(err, "body")))
            ==> r == Str(DefaultError)
  {
    if !Truthy(err) then Str(DefaultError)
    else if err.Str? then err
    else if Truthy(Get(err, "message")) then Get(err, "message")
    else if Truthy(Get(err, "error")) then Get(err, "error")
    else
      var body := Get(err, "body");
      if Truthy(body) && IsObjectType(body) then
        Or(Or(Get(body, "error"), Get(body, "message")), Str(stringify(body)))
      else Str(DefaultError)
  }

  /** With an object `body` and no usable `message` or `error` of its own, the
      error is read from the body: its `error`, else its `message`, else its
      serialised form. */
  lemma ShowErrorFromBody(err: Value, stringify: Value -> string)
    requires err.Obj? && !Truthy(Get(err, "message")) && !Truthy(Get(err, "error"))
    requires Truthy(Get(err, "body")) && IsObjectType(Get(err, "body"))
    ensures var b := Get(err, "body");
      ShowErrorFrom(err, stringify) == Or(Or(Get(b, "error"), Get(b, "message")), Str(stringify(b)))
  {
  }

  /** Whatever `fetchJson` throws for a non-ok response is shown as exactly its
      `message`, since that message is never falsy. */
  lemma ShowsFetchJsonMessage(res: Response, body: Value, stringify: Value -> string)
    requires !res.Ok() && SerializesNonEmpty(stringify, body)
    ensures var e := FetchJson(res, body, stringify).error;
      ShowErrorFrom(e, stringify) == ErrorMessage(res, body, stringify)
  {
    ErrorMessageTruthy(res, body, stringify);
  }

  /** The failure of `deleteApplication` is shown as its message. */
  lemma ShowsDeleteApplicationError(applicationID: int, stringify: Value -> string)
    ensures ShowErrorFrom(DeleteApplication(applicationID).error, stringify)
            == Str("deleteApplication not implemented on backend")
  {
  }

  /** The displayed value is never falsy (for a serialiser that writes at
      least the brackets of an object or array). */
  lemma ShowErrorFromTruthy(err: Value, stringify: Value -> string)
    requires Truthy(err) && !err.Str? ==> SerializesNonEmpty(stringify, Get(err, "body"))
    ensures Truthy(ShowErrorFrom(err, stringify))
  {
  }
}
