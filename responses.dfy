/** What a handler hands back: a REST response together with the names of the
    configurations the cluster must reload, or the exception it raised instead. */
module Responses {
  import opened Common

  datatype RestStatus =
    | OK
    | CREATED
    | BAD_REQUEST
    | FORBIDDEN
    | NOT_FOUND
    | INTERNAL_SERVER_ERROR
    | NOT_IMPLEMENTED
    | UNPROCESSABLE_ENTITY
  {
    function Code(): nat
    {
      match this
      case OK => 200
      case CREATED => 201
      case BAD_REQUEST => 400
      case FORBIDDEN => 403
      case NOT_FOUND => 404
      case INTERNAL_SERVER_ERROR => 500
      case NOT_IMPLEMENTED => 501
      case UNPROCESSABLE_ENTITY => 422
    }

    function Name(): string
    {
      match this
      case OK => "OK"
      case CREATED => "CREATED"
      case BAD_REQUEST => "BAD_REQUEST"
      case FORBIDDEN => "FORBIDDEN"
      case NOT_FOUND => "NOT_FOUND"
      case INTERNAL_SERVER_ERROR => "INTERNAL_SERVER_ERROR"
      case NOT_IMPLEMENTED => "NOT_IMPLEMENTED"
      case UNPROCESSABLE_ENTITY => "UNPROCESSABLE_ENTITY"
    }
  }

  /** A validator's error document: the status and reason fields, one `{"keys": ...}` entry per
      non-empty key list, and one message per field of the wrong datatype. */
  datatype ErrorReport = ErrorReport(
    status: string,
    reason: string,
    keyLists: map<string, set<string>>,
    fieldMessages: map<string, string>)

  datatype Content =
    | StatusMessage(status: string, message: string)   // {"status": ..., "message": ...}
    | SettingsJson(entries: map<string, string>)        // a settings document rendered as JSON
    | Errors(report: Option<ErrorReport>)               // a validator's error document, or none
    | Text(text: string)                                // a plain-text body
    | Empty                                             // no body at all

  datatype RestResponse = RestResponse(status: RestStatus, content: Content)

  /** The pair a handler returns (configurations to reload, response), or the message of the
      exception it throws. */
  datatype Outcome =
    | Returned(configs: seq<string>, response: RestResponse)
    | Thrown(message: string)

  function Respond(status: RestStatus, message: string, configs: seq<string>): Outcome
  {
    Returned(configs, RestResponse(status, StatusMessage(status.Name(), message)))
  }

  function SuccessResponse(message: string, configs: seq<string>): Outcome
  {
    Respond(OK, message, configs)
  }

  function CreatedResponse(message: string, configs: seq<string>): Outcome
  {
    Respond(CREATED, message, configs)
  }

  function BadRequestResponse(message: string): Outcome
  {
    Respond(BAD_REQUEST, message, [])
  }

  function ForbiddenResponse(message: string): Outcome
  {
    Respond(FORBIDDEN, message, [])
  }

  function NotFound(message: string): Outcome
  {
    Respond(NOT_FOUND, message, [])
  }

  function InternalErrorResponse(message: string): Outcome
  {
    Respond(INTERNAL_SERVER_ERROR, message, [])
  }

  function Unprocessable(message: string): Outcome
  {
    Respond(UNPROCESSABLE_ENTITY, message, [])
  }

  function NotImplemented(m: Method): Outcome
  {
    Respond(NOT_IMPLEMENTED, "Method " + m.Name() + " not supported for this action.", [])
  }

  /** Only a success or a creation asks the cluster to reload anything. */
  predicate ReloadsOnlyOnSuccess(o: Outcome)
  {
    o.Returned? && o.configs != [] ==> o.response.status in {OK, CREATED}
  }
}
