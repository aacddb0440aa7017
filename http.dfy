/**
 * What a `z.request` call gives back and what the integration throws.
 * A response carries its status, its raw body and its parsed JSON body;
 * the parsed body is an endpoint-specific payload together with the error
 * fields that the error paths of every endpoint look at.
 */
module Http {
  import opened Wrappers

  /** The error-describing fields a JSON body may carry. */
  datatype ErrorFields = ErrorFields(
    error: Option<string>,
    error_description: Option<string>,
    message: Option<string>,
    errorCode: Option<string>,
    reason: Option<string>)

  const NoErrorFields := ErrorFields(None, None, None, None, None)

  /** A JSON value; numbers are modelled as integers. */
  datatype Json =
    | JNull
    | JBool(b: bool)
    | JNumber(n: int)
    | JString(s: string)
    | JArray(items: seq<Json>)
    | JObject(members: map<string, Json>)

  /** The members of a JSON object, every key of it. */
  type JsonObject = map<string, Json>

  /** A parsed JSON body: the endpoint's payload and the error fields. */
  datatype Body<+P> = Body(payload: P, fields: ErrorFields)

  /** `HttpResponse`: `json` is None when the body is absent or not JSON. */
  datatype Response<+P> = Response(status: int, content: string, json: Option<Body<P>>)

  /** The JavaScript class of a thrown error. */
  datatype ErrorKind = PlainError | RefreshAuthError | TypeError

  /** A thrown error; `json` is the parsed body some platform errors carry. */
  datatype Error = Error(kind: ErrorKind, message: string, json: Option<ErrorFields>)

  /** What an `async` operation settles to: its value, or the error it throws. */
  type Outcome<T> = Result<T, Error>

  /** `new Error(message)`. */
  function NewError(message: string): Error {
    Error(PlainError, message, None)
  }

  /** The TypeError the runtime throws for `undefined.property`. */
  function ReadOfUndefined(property: string): Error {
    Error(TypeError, "Cannot read properties of undefined (reading '" + property + "')", None)
  }

  /** `bundle.authData`: the credentials the host stores for the connection. */
  datatype AuthData = AuthData(access_token: Option<string>, refresh_token: Option<string>)
}
