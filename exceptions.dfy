/**
 * The plugin's exception taxonomy (ohsomeTools/utils/exceptions.py): one
 * base class taking a status and an optional message, and a flat family of
 * kinds that all subclass it directly.
 */
module Exceptions {
  import opened Wrappers

  /** The exception classes; GenericServerError is declared twice in the source, the later binding wins and behaves the same. */
  datatype Kind =
    | GeometryError
    | PluginError
    | GenericClientError
    | GenericServerError
    | Unauthorized
    | BadRequest
    | NotFound
    | MethodNotAllowed
    | PayloadTooLarge
    | InternalServerError
    | NotImplemented
    | ServiceUnavailable
    | Timeout
    | TooManyInputsFound

  /** An exception instance: its class, its status and its optional message. */
  datatype OhsomeError = OhsomeError(kind: Kind, status: string, message: Option<string>)

  /** Why calling an exception class fails: Python raises TypeError for a wrong argument count. */
  datatype ArgumentError = MissingStatus | TooManyArguments

  /**
   * Calling an exception class with positional arguments, as
   * `__init__(self, status, message=None)` accepts them.
   */
  function New(kind: Kind, args: seq<string>): (r: Result<OhsomeError, ArgumentError>)
    ensures |args| == 0 <==> r == Failure(MissingStatus)
    ensures |args| > 2 <==> r == Failure(TooManyArguments)
    ensures r.Success? ==> r.value.kind == kind && r.value.status == args[0]
    ensures r.Success? ==> (r.value.message.Some? <==> |args| == 2)
    ensures r.Success? && |args| == 2 ==> r.value.message == Some(args[1])
  {
    if |args| == 0 then Failure(MissingStatus)
    else if |args| > 2 then Failure(TooManyArguments)
    else Success(OhsomeError(kind, args[0], if |args| == 2 then Some(args[1]) else None))
  }

  /** `__str__`: the status alone, or the status followed by the message in parentheses. */
  function Describe(e: OhsomeError): (r: string)
    ensures |r| >= |e.status| && r[..|e.status|] == e.status
    ensures e.message.None? ==> |r| == |e.status|
    ensures e.message.Some? ==> |r| == |e.status| + |e.message.value| + 3 && r[|r| - 1] == ')'
    ensures e.message.Some? ==> r[|e.status| + 2..|r| - 1] == e.message.value
    ensures e.message.Some? ==> r[|e.status|..|e.status| + 2] == " ("
  {
    match e.message
    case None => e.status
    case Some(m) => e.status + " (" + m + ")"
  }

  /** The class an `except` clause names. */
  datatype Handler = CatchKind(kind: Kind) | CatchBase | CatchException

  /** The classes an exception of `kind` is an instance of, most specific first. */
  function Mro(kind: Kind): seq<Handler>
  {
    [CatchKind(kind), CatchBase, CatchException]
  }

  /**
   * Whether `except h` catches an exception of `kind`: since no kind
   * subclasses another, a handler naming a kind catches that kind only.
   */
  function Catches(h: Handler, kind: Kind): (r: bool)
    ensures h.CatchKind? ==> (r <==> h.kind == kind)
    ensures !h.CatchKind? ==> r
  {
    h in Mro(kind)
  }
}
