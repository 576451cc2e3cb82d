/** GingerTemplate.Core.Utilities.Guard: argument checks that either return
    their input unchanged or throw. */
module Guard {
  import opened Base
  import opened Text
  import StringExtensions

  /** `NotNull`. */
  function NotNull<T>(value: Option<T>, paramName: string): (r: Result<T>)
    ensures r.Ok? <==> value.Some?
    ensures r.Ok? ==> r.value == value.value
    ensures r.Err? ==> r.error.kind == ArgumentNull && r.error.ArgumentError? && r.error.paramName == paramName
  {
    if value.None? then Err(ArgumentError(ArgumentNull, paramName, "Value cannot be null."))
    else Ok(value.value)
  }

  /** `NotNullOrWhiteSpace`: accepts exactly the strings holding a character
      that is not white space. */
  function NotNullOrWhiteSpace(value: Option<string>, paramName: string): (r: Result<string>)
    ensures r.Ok? <==> value.Some? && exists i :: 0 <= i < |value.value| && !IsWhiteSpace(value.value[i])
    ensures r.Ok? ==> r.value == value.value
    ensures r.Err? ==> r.error.kind == Argument && r.error.ArgumentError? && r.error.paramName == paramName
  {
    if StringExtensions.IsNullOrWhiteSpace(value) then
      Err(ArgumentError(Argument, paramName, "Value cannot be null or whitespace."))
    else Ok(value.value)
  }

  /** `NotDefault`: `defaultValue` is `default(T)` of the struct type
      (0, `Guid.Empty`, ...). */
  function NotDefault<T(==)>(value: T, defaultValue: T, paramName: string): (r: Result<T>)
    ensures r.Ok? <==> value != defaultValue
    ensures r.Ok? ==> r.value == value
    ensures r.Err? ==> r.error.kind == Argument
  {
    if value == defaultValue then Err(ArgumentError(Argument, paramName, "Value cannot be the default value."))
    else Ok(value)
  }

  /** `GreaterThanZero` on `int`. */
  function GreaterThanZero(value: int, paramName: string): (r: Result<int>)
    ensures r.Ok? <==> value > 0
    ensures r.Ok? ==> r.value == value
    ensures r.Err? ==> r.error.kind == ArgumentOutOfRange
  {
    if value <= 0 then Err(ArgumentError(ArgumentOutOfRange, paramName, "Value must be greater than zero."))
    else Ok(value)
  }

  /** `InRange` on `int`: both bounds are inclusive. */
  function InRange(value: int, min: int, max: int, paramName: string): (r: Result<int>)
    ensures r.Ok? <==> min <= value && value <= max
    ensures r.Ok? ==> r.value == value
    ensures r.Err? ==> r.error.kind == ArgumentOutOfRange
  {
    if value < min || value > max then
      Err(ArgumentError(ArgumentOutOfRange, paramName, "Value must be between the given bounds."))
    else Ok(value)
  }

  /** With `min > max` no value passes. */
  lemma InRangeEmptyInterval(value: int, min: int, max: int, paramName: string)
    requires min > max
    ensures InRange(value, min, max, paramName).Err?
  {
  }
}
