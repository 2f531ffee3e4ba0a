/**
  The gateway's error class (`HttpError`, an `Error` that carries an HTTP
  status and optional details) and the values a handler can throw.
 */
module Errors {
  import opened Js

  /** An `HttpError` instance. */
  datatype HttpError = HttpError(name: string, message: string, statusCode: int, details: Value)

  /** `new HttpError(message, statusCode, details)`. An omitted status is
      None here; an omitted `details` argument is `Undefined`. */
  function NewHttpError(message: string, statusCode: Option<int>, details: Value): (e: HttpError)
    ensures e.name == "HttpError"
    ensures e.message == message
    ensures statusCode.None? ==> e.statusCode == 500
    ensures statusCode.Some? ==> e.statusCode == statusCode.value
    ensures details.Undefined? ==> e.details == Null
    ensures !details.Undefined? ==> e.details == details
  {
    var status := match statusCode case Some(code) => code case None => 500;
    HttpError("HttpError", message, status, if details.Undefined? then Null else details)
  }

  /** A value a handler can throw: an `HttpError`, another `Error` (with its
      message and its other own properties), or a value that is not an
      `Error` at all. */
  datatype Thrown =
    | HttpErr(e: HttpError)
    | ErrorObj(message: string, props: map<string, Value>)
    | NonError(value: Value)
  {
    /** `x instanceof Error` */
    predicate IsError() {
      !NonError?
    }

    /** `x.message` for an `Error` */
    function Message(): string
      requires IsError()
    {
      if HttpErr? then e.message else message
    }
  }

  /** What `toISOString` throws for a date outside the representable range. */
  const InvalidTimeValue: Thrown := ErrorObj("Invalid time value", map[])
}
