/** The `password-validator` library as the login service uses it: a schema is a
    list of checks built by chained calls (`is().min(3)`, `has().digits(2)`,
    `has().not().spaces()`), and a string is valid when every check holds.
    Each chained call appends a check to the schema object. */
module PasswordValidator {
  import opened Text

  /** The character classes the library's rules look for. */
  datatype CharClass = Uppercase | Lowercase | Digits | Spaces

  predicate InClass(k: CharClass, c: char) {
    match k
    case Uppercase => IsUpper(c)
    case Lowercase => IsLower(c)
    case Digits => IsDigit(c)
    case Spaces => IsWhitespace(c)
  }

  /** How many characters of `s` belong to class `k`. */
  function Count(k: CharClass, s: string): (n: nat)
    ensures n <= |s|
  {
    if s == [] then 0 else (if InClass(k, s[0]) then 1 else 0) + Count(k, s[1..])
  }

  /** `min(n)`, `max(n)`, and `uppercase(m)`, `lowercase(m)`, `digits(m)`,
      `spaces(m)`: at least `m` characters of the class (`m` defaults to 1). */
  datatype Rule = Min(n: nat) | Max(n: nat) | Has(k: CharClass, atLeast: nat)

  /** A rule together with the polarity it was added under: `is()`/`has()` give
      `true`, `not()` gives `false`. */
  datatype Check = Check(rule: Rule, positive: bool)

  predicate Holds(r: Rule, s: string) {
    match r
    case Min(n) => |s| >= n
    case Max(n) => |s| <= n
    case Has(k, m) => Count(k, s) >= m
  }

  /** `schema.validate(s)`: every check of the schema agrees with its polarity. */
  predicate Validate(schema: seq<Check>, s: string)
    decreases |schema|
  {
    schema == [] || (Holds(schema[0].rule, s) == schema[0].positive && Validate(schema[1..], s))
  }

  /** The schema after the same chain of calls has been run `k` times on it. */
  function Repeat(chain: seq<Check>, k: nat): seq<Check> {
    if k == 0 then [] else Repeat(chain, k - 1) + chain
  }

  /** Validating against a concatenation of schemas is validating against each. */
  lemma {:induction false} ValidateAppend(a: seq<Check>, b: seq<Check>, s: string)
    ensures Validate(a + b, s) == (Validate(a, s) && Validate(b, s))
    decreases |a|
  {
    if a != [] {
      assert (a + b)[1..] == a[1..] + b;
      ValidateAppend(a[1..], b, s);
    } else {
      assert a + b == b;
    }
  }

  /** Running a chain of rule calls again does not change what the schema
      accepts, however often it was run, as long as it ran at least once. */
  lemma {:induction false} ValidateRepeat(chain: seq<Check>, k: nat, s: string)
    requires k >= 1
    ensures Validate(Repeat(chain, k), s) == Validate(chain, s)
  {
    ValidateAppend(Repeat(chain, k - 1), chain, s);
    if k > 1 {
      ValidateRepeat(chain, k - 1, s);
    }
  }

  /** A check list is valid exactly when each of its checks agrees with its polarity. */
  lemma {:induction false} ValidateEach(schema: seq<Check>, s: string)
    ensures Validate(schema, s) <==>
      forall i :: 0 <= i < |schema| ==> Holds(schema[i].rule, s) == schema[i].positive
    decreases |schema|
  {
    if schema != [] {
      ValidateEach(schema[1..], s);
      assert forall i :: 1 <= i < |schema| ==> schema[i] == schema[1..][i - 1];
    }
  }

  /** At least one character of the class. */
  lemma {:induction false} CountAtLeastOne(k: CharClass, s: string)
    ensures Count(k, s) >= 1 <==> exists i :: 0 <= i < |s| && InClass(k, s[i])
  {
    if s != [] {
      CountAtLeastOne(k, s[1..]);
      if exists i :: 0 <= i < |s| && InClass(k, s[i]) {
        var i :| 0 <= i < |s| && InClass(k, s[i]);
        if i > 0 { assert InClass(k, s[1..][i - 1]); }
      }
      if exists i :: 0 <= i < |s[1..]| && InClass(k, s[1..][i]) {
        var i :| 0 <= i < |s[1..]| && InClass(k, s[1..][i]);
        assert InClass(k, s[i + 1]);
      }
    }
  }

  /** At least two characters of the class, at two different positions. */
  lemma {:induction false} CountAtLeastTwo(k: CharClass, s: string)
    ensures Count(k, s) >= 2 <==>
      exists i, j :: 0 <= i < j < |s| && InClass(k, s[i]) && InClass(k, s[j])
  {
    if s != [] {
      var t := s[1..];
      CountAtLeastTwo(k, t);
      CountAtLeastOne(k, t);
      if Count(k, s) >= 2 {
        if InClass(k, s[0]) {
          var j :| 0 <= j < |t| && InClass(k, t[j]);
          assert InClass(k, s[0]) && InClass(k, s[j + 1]);
        } else {
          var i, j :| 0 <= i < j < |t| && InClass(k, t[i]) && InClass(k, t[j]);
          assert InClass(k, s[i + 1]) && InClass(k, s[j + 1]);
        }
      }
      if exists i, j :: 0 <= i < j < |s| && InClass(k, s[i]) && InClass(k, s[j]) {
        var i, j :| 0 <= i < j < |s| && InClass(k, s[i]) && InClass(k, s[j]);
        assert InClass(k, t[j - 1]);
        if i > 0 {
          assert InClass(k, t[i - 1]);
        }
      }
    }
  }
}
