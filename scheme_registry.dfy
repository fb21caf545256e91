/**
 * Choosing a scheme: the six (mode, level) pairs the application accepts,
 * and the lower-casing of the mode that happens before the lookup.
 */
module SchemeRegistry {
  import opened Wrappers
  import opened Errors

  /** The six schemes the application can run. */
  datatype SchemeId =
    | MlKem512 | MlKem768 | MlKem1024
    | Kyber512 | Kyber768 | Kyber1024

  const MlKemMode: string := "ml-kem"
  const KyberMode: string := "kyber"

  /** The mode a scheme belongs to: the name of its family. */
  function ModeOf(id: SchemeId): string
  {
    match id
    case MlKem512 | MlKem768 | MlKem1024 => MlKemMode
    case Kyber512 | Kyber768 | Kyber1024 => KyberMode
  }

  /** The security level a scheme belongs to. */
  function LevelOf(id: SchemeId): int
  {
    match id
    case MlKem512 | Kyber512 => 512
    case MlKem768 | Kyber768 => 768
    case MlKem1024 | Kyber1024 => 1024
  }

  predicate IsLevel(level: int)
  {
    level == 512 || level == 768 || level == 1024
  }

  /**
   * The lookup of `get_scheme`, on an already lower-cased mode. It succeeds
   * exactly for the two modes and three levels, and then returns the one
   * scheme whose own mode and level are the ones asked for (so the six pairs
   * name six different schemes); every other pair is an invalid selection.
   */
  function GetScheme(mode: string, level: int): (r: Result<SchemeId, Error>)
    ensures r.Success? <==> (mode == MlKemMode || mode == KyberMode) && IsLevel(level)
    ensures r.Success? ==> ModeOf(r.value) == mode && LevelOf(r.value) == level
    ensures r.Failure? ==> r.error == InvalidSelection
  {
    if mode == MlKemMode then
      if level == 512 then Success(MlKem512)
      else if level == 768 then Success(MlKem768)
      else if level == 1024 then Success(MlKem1024)
      else Failure(InvalidSelection)
    else if mode == KyberMode then
      if level == 512 then Success(Kyber512)
      else if level == 768 then Success(Kyber768)
      else if level == 1024 then Success(Kyber1024)
      else Failure(InvalidSelection)
    else Failure(InvalidSelection)
  }

  /** Every scheme is found again from its own mode and level. */
  lemma GetSchemeOfOwnSelection(id: SchemeId)
    ensures GetScheme(ModeOf(id), LevelOf(id)) == Success(id)
  {
  }

  /**
   * Lower-casing of one character: A-Z become a-z, and U+212A KELVIN SIGN
   * becomes 'k' (the one non-ASCII character whose lower-case form is a
   * letter of either mode name). Every other character is kept.
   */
  function LowerChar(c: char): char
  {
    if 'A' <= c <= 'Z' then (c as int - 'A' as int + 'a' as int) as char
    else if c == '\U{212A}' then 'k'
    else c
  }

  /** `mode.lower()`: the string with every character lower-cased. */
  function Lower(s: string): (r: string)
    ensures |r| == |s|
    ensures forall i :: 0 <= i < |s| ==> r[i] == LowerChar(s[i])
  {
    if s == [] then [] else [LowerChar(s[0])] + Lower(s[1..])
  }

  /** Lower-casing twice is lower-casing once. */
  lemma LowerIdempotent(s: string)
    ensures Lower(Lower(s)) == Lower(s)
  {
  }

  /** Two strings that differ at most in the case of their letters. */
  predicate EqualIgnoringCase(a: string, b: string)
  {
    |a| == |b| && forall i :: 0 <= i < |a| ==> LowerChar(a[i]) == LowerChar(b[i])
  }

  /**
   * What the constructor does with its arguments: lower-case the mode, then
   * look the pair up.
   */
  function Select(mode: string, level: int): (r: Result<SchemeId, Error>)
    ensures r.Success? <==> (Lower(mode) == MlKemMode || Lower(mode) == KyberMode) && IsLevel(level)
    ensures r.Success? ==> ModeOf(r.value) == Lower(mode) && LevelOf(r.value) == level
  {
    GetScheme(Lower(mode), level)
  }

  /** The selection ignores the case of the mode. */
  lemma SelectIgnoresCase(a: string, b: string, level: int)
    requires EqualIgnoringCase(a, b)
    ensures Select(a, level) == Select(b, level)
  {
  }

  /** An upper-case spelling of a mode selects the same scheme as the lower-case one. */
  lemma SelectUpperCaseMode()
    ensures Select("ML-KEM", 768) == Success(MlKem768)
    ensures Select("Kyber", 1024) == Success(Kyber1024)
    ensures Select("kyber", 2048) == Failure(InvalidSelection)
  {
  }
}
