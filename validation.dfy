/** The two schemas `saveUser` builds (app/app.js:53-55 and 66-72) and what they
    accept, stated without reference to the library. */
module Validation {
  import opened Text
  import opened PasswordValidator

  /** `schemaName.is().min(3).is().max(20)` */
  const NameChain: seq<Check> := [Check(Min(3), true), Check(Max(20), true)]

  /** `schemaPassword.is().min(8).is().max(20).has().uppercase().has().lowercase()
      .has().digits(2).has().not().spaces()` */
  const PasswordChain: seq<Check> := [
    Check(Min(8), true), Check(Max(20), true),
    Check(Has(Uppercase, 1), true), Check(Has(Lowercase, 1), true),
    Check(Has(Digits, 2), true), Check(Has(Spaces, 1), false)
  ]

  /** The name rule: between 3 and 20 characters, nothing else. */
  predicate NameValid(name: string)
    ensures NameValid(name) <==> 3 <= |name| <= 20
  {
    ValidateEach(NameChain, name);
    Validate(NameChain, name)
  }

  predicate PasswordValid(password: string) {
    Validate(PasswordChain, password)
  }

  /** The password rule, stated character by character: 8 to 20 characters, an
      upper-case letter, a lower-case letter, two digits and no whitespace. */
  lemma PasswordRule(p: string)
    ensures PasswordValid(p) <==>
      && 8 <= |p| <= 20
      && (exists i :: 0 <= i < |p| && IsUpper(p[i]))
      && (exists i :: 0 <= i < |p| && IsLower(p[i]))
      && (exists i, j :: 0 <= i < j < |p| && IsDigit(p[i]) && IsDigit(p[j]))
      && (forall i :: 0 <= i < |p| ==> !IsWhitespace(p[i]))
  {
    ValidateEach(PasswordChain, p);
    CountAtLeastOne(Uppercase, p);
    CountAtLeastOne(Lowercase, p);
    CountAtLeastTwo(Digits, p);
    CountAtLeastOne(Spaces, p);
    assert (exists i :: 0 <= i < |p| && InClass(Uppercase, p[i])) <==> (exists i :: 0 <= i < |p| && IsUpper(p[i]));
    assert (exists i :: 0 <= i < |p| && InClass(Lowercase, p[i])) <==> (exists i :: 0 <= i < |p| && IsLower(p[i]));
    assert (exists i :: 0 <= i < |p| && InClass(Spaces, p[i])) <==> (exists i :: 0 <= i < |p| && IsWhitespace(p[i]));
  }

  /** An accepted password has no whitespace, so `trim` leaves it as it is: the
      string that is hashed is the string that was validated. */
  lemma AcceptedPasswordIsTrimmed(p: string)
    requires PasswordValid(p)
    ensures Trim(p) == p
  {
    PasswordRule(p);
    TrimWithoutWhitespace(p);
  }

  /** The name rule looks at the raw name: a name that passes it can still be
      shorter than 3 characters once it has been lower-cased and trimmed. */
  lemma NameCheckedBeforeNormalising()
    ensures NameValid(" A ") && Trim(ToLower(" A ")) == "a"
  {
    var lowered := ToLower(" A ");
    assert lowered == " a ";
    assert TrimStart(lowered) == "a ";
    assert TrimEnd("a ") == "a";
  }
}
