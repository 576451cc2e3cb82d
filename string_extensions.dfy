/** GingerTemplate.Core.Extensions.StringExtensions: null/blank tests and
    truncation of possibly-null strings. */
module StringExtensions {
  import opened Base
  import opened Text

  /** `string.IsNullOrEmpty`; such a string is also null or white space. */
  function IsNullOrEmpty(value: Option<string>): (r: bool)
    ensures r ==> IsNullOrWhiteSpace(value)
  {
    value.None? || value.value == ""
  }

  /** `string.IsNullOrWhiteSpace`: null, or every character is white space,
      which is to say null or trimming to "". */
  function IsNullOrWhiteSpace(value: Option<string>): (r: bool)
    ensures r <==> value.None? || Trim(value.value) == ""
  {
    if value.None? then true
    else
      TrimEmptyIffAllWhiteSpace(value.value);
      AllWhiteSpace(value.value)
  }

  /** A string is blank exactly when it holds no character other than white space. */
  lemma NotBlankIffHasNonWhiteSpace(s: string)
    ensures !IsNullOrWhiteSpace(Some(s)) <==> exists i :: 0 <= i < |s| && !IsWhiteSpace(s[i])
  {
  }

  function Min(a: int, b: int): int { if a <= b then a else b }

  /** `Truncate`: null and "" come back as they are; otherwise the first
      `maxLength` characters, where slicing with a negative length throws. */
  function Truncate(value: Option<string>, maxLength: int): (r: Result<Option<string>>)
    ensures IsNullOrEmpty(value) ==> r == Ok(value)
    ensures r.Ok? <==> IsNullOrEmpty(value) || maxLength >= 0
    ensures r.Ok? && !IsNullOrEmpty(value) ==>
              && r.value.Some?
              && |r.value.value| == Min(|value.value|, maxLength)
              && r.value.value <= value.value
    ensures r.Err? ==> r.error.kind == ArgumentOutOfRange
  {
    if IsNullOrEmpty(value) then Ok(value)
    else
      var s := value.value;
      if |s| <= maxLength then Ok(value)
      else if maxLength < 0 then Err(ArgumentError(ArgumentOutOfRange, "length", "Index was out of range."))
      else Ok(Some(s[..maxLength]))
  }

  /** Truncating a second time with the same bound changes nothing. */
  lemma TruncateIdempotent(value: Option<string>, maxLength: int)
    requires Truncate(value, maxLength).Ok?
    ensures Truncate(Truncate(value, maxLength).value, maxLength) == Truncate(value, maxLength)
  {
    var r := Truncate(value, maxLength).value;
    if r.Some? && r.value != "" {
      assert |r.value| <= maxLength;
    }
  }

  /** A string no longer than the bound is returned unchanged. */
  lemma TruncateShortIsIdentity(s: string, maxLength: int)
    requires |s| <= maxLength
    ensures Truncate(Some(s), maxLength) == Ok(Some(s))
  {
    assert s[..|s|] == s;
  }
}
