/**
 * The framework's exception hierarchy (FrameworkError and its subclasses)
 * as a datatype, plus the Python exceptions the framework lets escape
 * (KeyError from a backend, AttributeError on a missing mirror link, ...).
 */
module Errors {
  import opened Values

  /** An error message, kept as structure rather than rendered text. */
  datatype Msg =
    | Text(s: string)
    | Fmt(template: string, args: seq<Msg>)   // `template % args`
    | Val(v: Value)                            // `%r` of a value
    | Names(names: set<string>)                // `", ".join(names)` of a set
    | Num(n: int)                              // `%d`
    | MsgList(items: seq<Msg>)                 // a list of messages
    | MsgDict(entries: map<string, Msg>)       // a dict of messages, keyed by field
    | Cause(e: Error)                          // `%s` of a caught exception

  datatype ErrorKind =
    | MultipleFound
    | ValidationError
    | DoesNotExist
    | DataConflictError
    | Forbidden
    | AuthorizationError
    | DeclarationError
    | ResourceDeclarationError(resource: string)   // rendered as "<resource name>: <message>"
    | PythonError(name: string)                    // KeyError, AttributeError, TypeError: not a FrameworkError

  datatype Error = Error(kind: ErrorKind, msg: Msg)

  datatype Result<T> = Ok(value: T) | Err(error: Error)

  /** `isinstance(e, FrameworkError)`: every framework kind, none of the Python built-in ones. */
  predicate IsFrameworkError(k: ErrorKind)
  {
    !k.PythonError?
  }

  /** `isinstance(e, DeclarationError)`: ResourceDeclarationError is a subclass. */
  predicate IsDeclarationError(k: ErrorKind)
  {
    k.DeclarationError? || k.ResourceDeclarationError?
  }

  function Fail<T>(kind: ErrorKind, msg: Msg): (r: Result<T>)
    ensures r.Err? && r.error.kind == kind
  {
    Err(Error(kind, msg))
  }

  function TextFail<T>(kind: ErrorKind, s: string): (r: Result<T>)
    ensures r.Err? && r.error.kind == kind
  {
    Err(Error(kind, Text(s)))
  }

  /** Error kinds of the Python runtime that escape the framework unchanged. */
  const KeyError := PythonError("KeyError")
  const AttributeError := PythonError("AttributeError")
  const TypeError := PythonError("TypeError")
  const IndexError := PythonError("IndexError")
  const StopIteration := PythonError("StopIteration")
}
