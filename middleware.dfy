/**
 * `ExceptionHandlingMiddleware.HandleExceptionAsync`: the mapping from a
 * thrown exception to a problem-details body (the title, status, detail,
 * type and instance members of section 3.1 of RFC 7807), and the status
 * code it puts on the response.
 */
module Middleware {
  import opened Wrappers
  import opened Errors
  import Dates
  import Commands
  import TodoItems

  /** The `ErrorResponse` body. `typeUri` is its `Type` property. */
  datatype ErrorResponse = ErrorResponse(
    title: string,
    status: int,
    detail: string,
    typeUri: string,
    instance: Option<string>)

  const BadRequest: int := 400
  const NotFound: int := 404
  const InternalServerError: int := 500

  /** Section 6.5.1 of RFC 7231 (400 Bad Request). */
  const BadRequestType := "https://tools.ietf.org/html/rfc7231#section-6.5.1"
  /** Section 6.5.4 of RFC 7231 (404 Not Found). */
  const NotFoundType := "https://tools.ietf.org/html/rfc7231#section-6.5.4"
  /** Section 6.6.1 of RFC 7231 (500 Internal Server Error). */
  const InternalServerErrorType := "https://tools.ietf.org/html/rfc7231#section-6.6.1"

  const NotFoundDetail := "The requested resource was not found."
  const InternalServerErrorDetail := "An unexpected error occurred. Please try again later."

  /** The body every exception outside the three recognised families gets. */
  const InternalError := ErrorResponse("Internal Server Error", InternalServerError,
    InternalServerErrorDetail, InternalServerErrorType, None)

  /**
   * The `exception switch`: the domain family and the argument family are
   * client errors that pass their message on, a missing key is 404 with a
   * fixed detail, and everything else is a 500 that tells nothing about the
   * exception. `Instance` is never set.
   */
  function ErrorResponseFor(e: Exception): (r: ErrorResponse)
    ensures r.status in {BadRequest, NotFound, InternalServerError}
    ensures r.status == BadRequest <==> e.DomainException? || e.ArgumentException?
    ensures r.status == NotFound <==> e.KeyNotFoundException?
    ensures r.status == InternalServerError <==> e.InvalidOperationException? || e.OtherException?
    ensures r.status == BadRequest ==> r.detail == Message(e) && r.typeUri == BadRequestType
    ensures e.DomainException? ==> r.title == "Domain Error"
    ensures e.ArgumentException? ==> r.title == "Invalid Argument"
    ensures r.status == NotFound ==>
      r == ErrorResponse("Resource Not Found", NotFound, NotFoundDetail, NotFoundType, None)
    ensures r.status == InternalServerError ==> r == InternalError
    ensures r.instance.None?
  {
    match e
    case DomainException(_, _) =>
      ErrorResponse("Domain Error", BadRequest, Message(e), BadRequestType, None)
    case ArgumentException(_, _, _) =>
      ErrorResponse("Invalid Argument", BadRequest, Message(e), BadRequestType, None)
    case KeyNotFoundException(_) =>
      ErrorResponse("Resource Not Found", NotFound, NotFoundDetail, NotFoundType, None)
    case _ => InternalError
  }

  /** The type URI is a function of the status: each status cites its own section of RFC 7231. */
  lemma TypeFollowsStatus(e1: Exception, e2: Exception)
    ensures ErrorResponseFor(e1).status == ErrorResponseFor(e2).status ==>
      ErrorResponseFor(e1).typeUri == ErrorResponseFor(e2).typeUri
  {
  }

  /**
   * Only the message of a domain or argument exception reaches the body:
   * two exceptions of the same family whose messages agree get the same
   * body, whatever the subclass.
   */
  lemma BodyDependsOnlyOnFamilyAndMessage(e1: Exception, e2: Exception)
    requires (e1.DomainException? && e2.DomainException?) || (e1.ArgumentException? && e2.ArgumentException?)
      || (e1.KeyNotFoundException? && e2.KeyNotFoundException?)
    requires Message(e1) == Message(e2)
    ensures ErrorResponseFor(e1) == ErrorResponseFor(e2)
  {
  }

  /**
   * The command service reports an unknown item id with
   * `InvalidOperationException`, which this mapping does not single out:
   * if it reached the middleware it would become the generic 500, not a
   * 404. No shipped endpoint calls the update.
   */
  lemma UnknownItemIsServerError(id: int)
    ensures ErrorResponseFor(InvalidOperationException(Commands.NotFoundMessage(id))) == InternalError
    ensures ErrorResponseFor(InvalidOperationException(Commands.NotFoundMessage(id))).status != NotFound
  {
  }

  /**
   * Every rule `TodoItem.Create` and `TodoItem.Update` enforce is reported
   * as a domain error, so the client sees a 400 whose detail is the rule's
   * message; an empty title, for one, is a bad request.
   */
  lemma DomainRuleFailuresAreBadRequests(title: Option<string>, priority: TodoItems.Priority,
                                         dueDate: Option<Dates.DateTime>, today: nat)
    requires TodoItems.CheckRules(title, priority, dueDate, today).Fail?
    ensures var r := ErrorResponseFor(TodoItems.CheckRules(title, priority, dueDate, today).error);
      r.status == BadRequest && r.title == "Domain Error"
      && r.detail in {TodoItems.TitleRequired, TodoItems.DueDateInPast, TodoItems.CriticalTooFar}
  {
  }

  /** The response as far as the middleware sets it. */
  class HttpResponse {
    var contentType: string
    var statusCode: int

    constructor ()
      ensures contentType == "" && statusCode == 200
    {
      contentType := "";
      statusCode := 200;
    }
  }

  /**
   * Sets the JSON content type, picks the body through `ErrorResponseFor`,
   * and copies its status onto the response; the body is returned in place
   * of being serialised and written.
   */
  method HandleException(response: HttpResponse, exception: Exception) returns (body: ErrorResponse)
    modifies response
    ensures response.contentType == "application/json"
    ensures body == ErrorResponseFor(exception)
    ensures response.statusCode == body.status
    ensures response.statusCode in {BadRequest, NotFound, InternalServerError}
  {
    response.contentType := "application/json";
    body := ErrorResponseFor(exception);
    response.statusCode := body.status;
  }
}
