/**
 * The exceptions the todo service throws, one constructor per .NET class
 * family. Subclasses that the error mapping treats like their parent are
 * told apart by an origin field so that the mapping can be shown not to
 * depend on it.
 */
module Errors {
  import opened Wrappers

  /** `DomainException` itself, or its subclasses `TodoItemException` and `TodoListException`. */
  datatype DomainOrigin = PlainDomain | TodoItemOrigin | TodoListOrigin

  /** `ArgumentException` itself, or its subclasses `ArgumentNullException` and `ArgumentOutOfRangeException`. */
  datatype ArgumentOrigin = PlainArgument | NullArgument | OutOfRangeArgument

  datatype Exception =
    | DomainException(domainOrigin: DomainOrigin, message: string)
    | ArgumentException(argumentOrigin: ArgumentOrigin, text: string, paramName: Option<string>)
    | KeyNotFoundException(message: string)
    | InvalidOperationException(message: string)
    | OtherException(message: string)

  /**
   * The `Message` property. For the argument exception family .NET appends
   * " (Parameter 'name')" whenever a non-empty parameter name was given.
   */
  function Message(e: Exception): (r: string)
    ensures !e.ArgumentException? ==> r == e.message
    ensures e.ArgumentException? ==> |e.text| <= |r| && r[..|e.text|] == e.text
    ensures e.ArgumentException? && (e.paramName.None? || e.paramName.value == "") ==> r == e.text
    ensures e.ArgumentException? && e.paramName.Some? && e.paramName.value != "" ==>
      r[|e.text|..] == " (Parameter '" + e.paramName.value + "')"
  {
    match e
    case ArgumentException(_, text, paramName) =>
      if paramName.Some? && paramName.value != "" then text + " (Parameter '" + paramName.value + "')" else text
    case DomainException(_, message) => message
    case KeyNotFoundException(message) => message
    case InvalidOperationException(message) => message
    case OtherException(message) => message
  }
}
