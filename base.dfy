/** Shared vocabulary: optional values, the exceptions the modelled code throws,
    and results that carry either a value or such an exception. */
module Base {

  /** `None` stands for a C# `null` (or an absent value). */
  datatype Option<+T> = None | Some(value: T)

  /** The exception classes that occur in the modelled code: those of the .NET
      base library it throws, and the application's own hierarchy, all of which
      derive from GingerTemplate's `ApplicationException`. */
  datatype ExceptionKind =
    // .NET base library
    | ArgumentNull | Argument | ArgumentOutOfRange | InvalidOperation | KeyNotFound
    | OperationCanceled | LockRecursion
    | SystemError  // any other exception outside the application's hierarchy
    // GingerTemplate.Core.Exceptions
    | Application | Validation | Authentication | Authorization | BusinessLogic
    | Repository | Database | ExternalService | EmailService | Configuration

  /** A thrown exception. Argument exceptions also name the offending parameter. */
  datatype Exception =
    | Error(kind: ExceptionKind, message: string)
    | ArgumentError(kind: ExceptionKind, paramName: string, message: string)

  /** Kinds whose class derives from the application's `ApplicationException`. */
  predicate IsApplication(k: ExceptionKind) {
    || k.Application? || k.Validation? || k.Authentication? || k.Authorization?
    || k.BusinessLogic? || k.Repository? || k.Database? || k.ExternalService?
    || k.EmailService? || k.Configuration?
  }

  /** `IsA(k, b)`: an exception of class `k` is an instance of class `b`
      (the reflexive-transitive subclass relation, as C#'s `is` tests it). */
  predicate IsA(k: ExceptionKind, b: ExceptionKind) {
    || k == b
    || (b == Application && IsApplication(k))
    || (b == ExternalService && k == EmailService)
    || (b == Argument && (k.ArgumentNull? || k.ArgumentOutOfRange?))
  }

  /** Either the value an operation returns or the exception it throws. */
  datatype Result<+T> = Ok(value: T) | Err(error: Exception)
}
