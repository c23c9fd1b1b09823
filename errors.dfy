/** The application's error hierarchy: `AppError` with a message and a status
    code (500 unless given), and its two subclasses `GitHubApiError`
    (forwarding its status code, 500 unless given) and `ValidationError`
    (always 400). Each constructor sets the fields once; nothing changes them
    afterwards, so an error is a value. */
module AppErrors {
  import opened Js

  /** The classes of the hierarchy, with the built-in `Error` at the root. */
  datatype ErrorClass = BaseError | AppErrorClass | GitHubApiErrorClass | ValidationErrorClass

  const DefaultStatus: int := 500
  const ValidationStatus: int := 400

  /** How far a class is below `Error`. */
  function Depth(c: ErrorClass): nat
  {
    match c
    case BaseError => 0
    case AppErrorClass => 1
    case GitHubApiErrorClass => 2
    case ValidationErrorClass => 2
  }

  /** The class a class extends; `Error` extends nothing. */
  function Parent(c: ErrorClass): (p: Option<ErrorClass>)
    ensures p.Some? ==> Depth(p.value) + 1 == Depth(c)
  {
    match c
    case BaseError => None
    case AppErrorClass => Some(BaseError)
    case GitHubApiErrorClass => Some(AppErrorClass)
    case ValidationErrorClass => Some(AppErrorClass)
  }

  /** `c` is `ancestor` or reaches it through its chain of parents; an
      ancestor is never deeper than its descendant, and the only ancestor at
      the same depth is the class itself. */
  function Extends(c: ErrorClass, ancestor: ErrorClass): (b: bool)
    ensures b ==> Depth(ancestor) <= Depth(c)
    ensures b && Depth(ancestor) == Depth(c) ==> c == ancestor
    decreases Depth(c)
  {
    c == ancestor || (Parent(c).Some? && Extends(Parent(c).value, ancestor))
  }

  /** An error object: the class it was constructed as, and its `name`,
      `message` and `statusCode` fields. */
  datatype AppError = AppError(cls: ErrorClass, name: string, message: string, statusCode: int)

  /** `e instanceof c`: every error is an `Error` and an instance of its own
      class, and never of a class deeper than its own. */
  function InstanceOf(e: AppError, c: ErrorClass): (b: bool)
    ensures c == BaseError || c == e.cls ==> b
    ensures b ==> Depth(c) <= Depth(e.cls)
  {
    Extends(e.cls, c)
  }

  /** `new AppError(message, statusCode)`; `None` is an omitted (undefined) status. */
  function NewAppError(message: string, statusCode: Option<int>): (e: AppError)
    ensures e.cls == AppErrorClass && e.name == "AppError" && e.message == message
    ensures statusCode.Some? ==> e.statusCode == statusCode.value
    ensures statusCode.None? ==> e.statusCode == DefaultStatus
  {
    AppError(AppErrorClass, "AppError", message, if statusCode.Some? then statusCode.value else DefaultStatus)
  }

  /** `new GitHubApiError(message, statusCode)`: the parent constructor with the
      status (500 when omitted), then the subclass's own name. */
  function NewGitHubApiError(message: string, statusCode: Option<int>): (e: AppError)
    ensures e.cls == GitHubApiErrorClass && e.name == "GitHubApiError" && e.message == message
    ensures statusCode.Some? ==> e.statusCode == statusCode.value
    ensures statusCode.None? ==> e.statusCode == DefaultStatus
  {
    var status := if statusCode.Some? then statusCode.value else DefaultStatus;
    NewAppError(message, Some(status)).(cls := GitHubApiErrorClass, name := "GitHubApiError")
  }

  /** `new ValidationError(message)`: the parent constructor with status 400,
      then the subclass's own name. */
  function NewValidationError(message: string): (e: AppError)
    ensures e.cls == ValidationErrorClass && e.name == "ValidationError" && e.message == message
    ensures e.statusCode == ValidationStatus
  {
    NewAppError(message, Some(ValidationStatus)).(cls := ValidationErrorClass, name := "ValidationError")
  }

  /** Both subclasses produce `AppError`s (and `Error`s); a plain `AppError` is
      neither of its subclasses, and the two subclasses are unrelated. */
  lemma SubclassInstances(message: string, statusCode: Option<int>)
    ensures InstanceOf(NewGitHubApiError(message, statusCode), AppErrorClass)
    ensures InstanceOf(NewGitHubApiError(message, statusCode), BaseError)
    ensures InstanceOf(NewValidationError(message), AppErrorClass)
    ensures InstanceOf(NewValidationError(message), BaseError)
    ensures InstanceOf(NewAppError(message, statusCode), BaseError)
    ensures !InstanceOf(NewAppError(message, statusCode), GitHubApiErrorClass)
    ensures !InstanceOf(NewAppError(message, statusCode), ValidationErrorClass)
    ensures !InstanceOf(NewGitHubApiError(message, statusCode), ValidationErrorClass)
    ensures !InstanceOf(NewValidationError(message), GitHubApiErrorClass)
  {
  }

  /** The class chain in closed form: a class extends itself, `Error`, and
      (for the two subclasses) `AppError`, and nothing else. */
  lemma {:induction false} ExtendsIsAncestry(c: ErrorClass, ancestor: ErrorClass)
    ensures Extends(c, ancestor) <==> c == ancestor || ancestor == BaseError || (ancestor == AppErrorClass && Depth(c) == 2)
    decreases Depth(c)
  {
    if Parent(c).Some? {
      ExtendsIsAncestry(Parent(c).value, ancestor);
    }
  }
}
