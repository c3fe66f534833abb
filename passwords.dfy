/**
 * Password strength rules. Two copies exist: backend/app/helpers.py (French
 * messages) and helpers.py (English messages, used by main.py and
 * backend/main.py). Both check the same three rules in the same order and
 * return the message of the first that fails, or `None`.
 */
module Passwords {
  import opened Wrappers

  const MinLength: nat := 8
  /** The character class `[@$!%*?&]`. */
  const SpecialCharacters: string := "@$!%*?&"

  datatype Rule = TooShort | NoUppercase | NoSpecialCharacter

  predicate IsUppercase(c: char) {
    'A' <= c <= 'Z'
  }

  /** `re.search(r"[A-Z]", s)`: scans `s` for an ASCII capital letter. */
  function SearchUppercase(s: string): (found: bool)
    ensures found <==> exists i :: 0 <= i < |s| && IsUppercase(s[i])
  {
    if s == [] then false
    else if IsUppercase(s[0]) then true
    else
      var r := SearchUppercase(s[1..]);
      assert forall i :: 0 < i < |s| ==> s[i] == s[1..][i - 1];
      r
  }

  /** `re.search(r"[@$!%*?&]", s)`. */
  function SearchSpecial(s: string): (found: bool)
    ensures found <==> exists i :: 0 <= i < |s| && s[i] in SpecialCharacters
  {
    if s == [] then false
    else if s[0] in SpecialCharacters then true
    else
      var r := SearchSpecial(s[1..]);
      assert forall i :: 0 < i < |s| ==> s[i] == s[1..][i - 1];
      r
  }

  /** The first rule `password` breaks, in the order length, capital letter, special character. */
  function FirstBrokenRule(password: string): (r: Option<Rule>)
    ensures r == Some(TooShort) <==> |password| < MinLength
    ensures r == Some(NoUppercase) <==>
      |password| >= MinLength && !(exists i :: 0 <= i < |password| && IsUppercase(password[i]))
    ensures r == Some(NoSpecialCharacter) <==>
      |password| >= MinLength && (exists i :: 0 <= i < |password| && IsUppercase(password[i]))
      && !(exists i :: 0 <= i < |password| && password[i] in SpecialCharacters)
    ensures r == None <==>
      |password| >= MinLength && (exists i :: 0 <= i < |password| && IsUppercase(password[i]))
      && (exists i :: 0 <= i < |password| && password[i] in SpecialCharacters)
  {
    if |password| < MinLength then Some(TooShort)
    else if !SearchUppercase(password) then Some(NoUppercase)
    else if !SearchSpecial(password) then Some(NoSpecialCharacter)
    else None
  }

  function FrenchMessage(rule: Rule): string {
    match rule
    case TooShort => "Le mot de passe doit contenir au moins 8 caractères."
    case NoUppercase => "Le mot de passe doit contenir au moins une lettre majuscule."
    case NoSpecialCharacter => "Le mot de passe doit contenir au moins un caractère spécial (@, $, !, %, *, ?, &)."
  }

  function EnglishMessage(rule: Rule): string {
    match rule
    case TooShort => "Password must be at least 8 characters long."
    case NoUppercase => "Password must contain at least one uppercase letter."
    case NoSpecialCharacter => "Password must contain at least one special character (@, $, !, %, *, ?, &)."
  }

  /** `validate_password_strength` of backend/app/helpers.py. */
  function ValidatePasswordStrength(password: string): (r: Option<string>)
    ensures r.None? <==> FirstBrokenRule(password).None?
    ensures r.Some? ==> r.value == FrenchMessage(FirstBrokenRule(password).value)
  {
    if |password| < 8 then Some(FrenchMessage(TooShort))
    else if !SearchUppercase(password) then Some(FrenchMessage(NoUppercase))
    else if !SearchSpecial(password) then Some(FrenchMessage(NoSpecialCharacter))
    else None
  }

  /** `validate_password_strength` of helpers.py. */
  function LegacyValidatePasswordStrength(password: string): (r: Option<string>)
    ensures r.None? <==> FirstBrokenRule(password).None?
    ensures r.Some? ==> r.value == EnglishMessage(FirstBrokenRule(password).value)
  {
    if |password| < 8 then Some(EnglishMessage(TooShort))
    else if !SearchUppercase(password) then Some(EnglishMessage(NoUppercase))
    else if !SearchSpecial(password) then Some(EnglishMessage(NoSpecialCharacter))
    else None
  }

  /** The two copies accept exactly the same passwords. */
  lemma CopiesAgree(password: string)
    ensures ValidatePasswordStrength(password).None? <==> LegacyValidatePasswordStrength(password).None?
  {
  }

  /** A long password with a capital letter but no special character breaks the third rule only. */
  lemma NoSpecialExample()
    ensures FirstBrokenRule("Abcdefgh") == Some(NoSpecialCharacter)
  {
    var p := "Abcdefgh";
    assert IsUppercase(p[0]);
    forall i | 0 <= i < |p| ensures p[i] !in SpecialCharacters {
      assert 'a' <= p[i] <= 'z' || p[i] == 'A';
    }
  }

  /** Eight characters with one capital and one special character pass. */
  lemma StrongExample()
    ensures FirstBrokenRule("Abcdefg&") == None
  {
    var p := "Abcdefg&";
    assert IsUppercase(p[0]);
    assert p[7] in SpecialCharacters;
  }
}
