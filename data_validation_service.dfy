/** GingerTemplate.Core.Services.DataValidationService: `ValidateData<T>` over
    a tagged variant standing for the runtime type tests it makes. */
module DataValidation {
  import opened Base
  import opened Text
  import StringExtensions

  /** The value handed to `ValidateData`: null, a `string`, an `int`, or a
      value of any other type. */
  datatype Data = Null | Str(s: string) | Int(i: int) | Other

  /** `ValidateData`: null is invalid; a string must not be blank; an int must
      not be negative; anything else is valid. Logging is its only effect. */
  function ValidateData(data: Data): (valid: bool)
    ensures data.Null? ==> !valid
    ensures data.Str? ==> (valid <==> exists i :: 0 <= i < |data.s| && !IsWhiteSpace(data.s[i]))
    ensures data.Int? ==> (valid <==> data.i >= 0)
    ensures data.Other? ==> valid
  {
    match data
    case Null => false
    case Str(s) => !StringExtensions.IsNullOrWhiteSpace(Some(s))
    case Int(i) => i >= 0
    case Other => true
  }
}
