/** GingerTemplate.Core.Extensions.CharExtensions: vowel and consonant tests. */
module CharExtensions {
  import Text

  /** `char.IsLetter`, restricted to the ASCII Latin letters. */
  predicate IsLetter(c: char) {
    ('a' <= c <= 'z') || ('A' <= c <= 'Z')
  }

  /** `IsVowel`: the character occurs in "aeiouAEIOU". */
  function IsVowel(c: char): (r: bool)
    ensures r <==> Text.ToLowerChar(c) in {'a', 'e', 'i', 'o', 'u'} && IsLetter(c)
  {
    c in "aeiouAEIOU"
  }

  /** `IsConsonant`: a letter that is not a vowel. */
  function IsConsonant(c: char): (r: bool)
    ensures r ==> IsLetter(c)
    ensures IsLetter(c) ==> (r <==> !IsVowel(c))
  {
    IsLetter(c) && !IsVowel(c)
  }

  lemma VowelIsNotConsonant(c: char)
    requires IsVowel(c)
    ensures !IsConsonant(c)
  {
  }

  /** Digits, punctuation and space are neither vowels nor consonants. */
  lemma NonLettersAreNeither(c: char)
    requires !IsLetter(c)
    ensures !IsConsonant(c) && !IsVowel(c)
  {
  }

  lemma Examples()
    ensures IsVowel('A') && IsVowel('u') && !IsVowel('y')
    ensures IsConsonant('y') && IsConsonant('B') && !IsConsonant('7') && !IsConsonant(' ')
  {
  }
}
