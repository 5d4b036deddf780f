/** The password strength meter shown under the password field. */
module PasswordStrengthBar {
  import opened Text
  import opened Validators

  /** The five criteria, each worth one point. */
  datatype Criterion = MinLength | HasUpper | HasLower | HasDigit | HasSpecial

  const AllCriteria: seq<Criterion> := [MinLength, HasUpper, HasLower, HasDigit, HasSpecial]

  predicate Satisfies(password: string, c: Criterion) {
    match c
    case MinLength => JsLength(password) >= 8
    case HasUpper => HasClass(password, Upper)
    case HasLower => HasClass(password, Lower)
    case HasDigit => HasClass(password, Digit)
    case HasSpecial => HasClass(password, Special)
  }

  /** How many criteria of `cs` the password satisfies. */
  function CountSatisfied(password: string, cs: seq<Criterion>): (n: nat)
    ensures n <= |cs|
  {
    if cs == [] then 0
    else (if Satisfies(password, cs[0]) then 1 else 0) + CountSatisfied(password, cs[1..])
  }

  /** The score the meter shows: the number of satisfied criteria. */
  function Strength(password: string): nat {
    CountSatisfied(password, AllCriteria)
  }

  function Point(b: bool): nat { if b then 1 else 0 }

  /** The score is the sum of one point per criterion. */
  lemma StrengthUnfold(password: string)
    ensures Strength(password) ==
      Point(JsLength(password) >= 8) + Point(HasClass(password, Upper)) + Point(HasClass(password, Lower))
      + Point(HasClass(password, Digit)) + Point(HasClass(password, Special))
  {
    var cs := AllCriteria;
    assert cs[1..] == [HasUpper, HasLower, HasDigit, HasSpecial];
    assert cs[1..][1..] == [HasLower, HasDigit, HasSpecial];
    assert cs[1..][1..][1..] == [HasDigit, HasSpecial];
    assert cs[1..][1..][1..][1..] == [HasSpecial];
    assert cs[1..][1..][1..][1..][1..] == [];
    assert CountSatisfied(password, [HasSpecial]) == Point(HasClass(password, Special));
    assert CountSatisfied(password, [HasDigit, HasSpecial])
      == Point(HasClass(password, Digit)) + CountSatisfied(password, [HasSpecial]);
    assert CountSatisfied(password, [HasLower, HasDigit, HasSpecial])
      == Point(HasClass(password, Lower)) + CountSatisfied(password, [HasDigit, HasSpecial]);
    assert CountSatisfied(password, [HasUpper, HasLower, HasDigit, HasSpecial])
      == Point(HasClass(password, Upper)) + CountSatisfied(password, [HasLower, HasDigit, HasSpecial]);
  }

  /** `getPasswordStrength`: one increment of `score` per satisfied test,
      in the source's order. */
  method GetPasswordStrength(password: string) returns (score: nat)
    ensures score == Strength(password)
    ensures score <= 5
  {
    score := 0;
    if JsLength(password) >= 8 { score := score + 1; }
    if HasClass(password, Upper) { score := score + 1; }
    if HasClass(password, Lower) { score := score + 1; }
    if HasClass(password, Digit) { score := score + 1; }
    if HasClass(password, Special) { score := score + 1; }
    StrengthUnfold(password);
  }

  lemma StrengthEmpty()
    ensures Strength("") == 0
  {
  }

  lemma StrengthAllIffAllCriteria(password: string)
    ensures Strength(password) == 5 <==> forall c :: Satisfies(password, c)
  {
    StrengthUnfold(password);
    assert (forall c :: Satisfies(password, c)) <==>
      Satisfies(password, MinLength) && Satisfies(password, HasUpper) && Satisfies(password, HasLower)
      && Satisfies(password, HasDigit) && Satisfies(password, HasSpecial);
  }

  lemma SatisfiesAppend(password: string, more: string, c: Criterion)
    requires Satisfies(password, c)
    ensures Satisfies(password + more, c)
  {
    match c
    case MinLength =>
      JsLengthAppend(password, more);
    case HasUpper => HasClassAppend(password, more, Upper);
    case HasLower => HasClassAppend(password, more, Lower);
    case HasDigit => HasClassAppend(password, more, Digit);
    case HasSpecial => HasClassAppend(password, more, Special);
  }

  lemma {:induction false} JsLengthAppend(s: string, t: string)
    ensures JsLength(s + t) == JsLength(s) + JsLength(t)
  {
    if s == [] {
      assert s + t == t;
    } else {
      assert (s + t)[0] == s[0] && (s + t)[1..] == s[1..] + t;
      JsLengthAppend(s[1..], t);
    }
  }

  lemma {:induction false} CountSatisfiedMonotone(password: string, more: string, cs: seq<Criterion>)
    ensures CountSatisfied(password, cs) <= CountSatisfied(password + more, cs)
  {
    if cs != [] {
      if Satisfies(password, cs[0]) {
        SatisfiesAppend(password, more, cs[0]);
      }
      CountSatisfiedMonotone(password, more, cs[1..]);
    }
  }

  /** Typing more characters never lowers the score. */
  lemma StrengthMonotone(password: string, more: string)
    ensures Strength(password) <= Strength(password + more)
  {
    CountSatisfiedMonotone(password, more, AllCriteria);
  }

  /** Every password `validatePassword` accepts scores the maximum. */
  lemma ValidPasswordScoresFive(password: string)
    requires ValidatePassword(password)
    ensures Strength(password) == 5
  {
    ValidatePasswordIff(password);
    StrengthUnfold(password);
  }

  /** `getColor`. */
  function StrengthColor(score: int): (color: string)
    ensures color == "red" <==> score <= 1
    ensures color == "orange" <==> score == 2
    ensures color == "yellow" <==> score == 3
    ensures color == "lightgreen" <==> score == 4
    ensures color == "green" <==> score >= 5
  {
    if score <= 1 then "red"
    else if score == 2 then "orange"
    else if score == 3 then "yellow"
    else if score == 4 then "lightgreen"
    else "green"
  }

  /** `getLabel`. */
  function StrengthLabel(score: int): (caption: string)
    ensures caption == "Senha muito fraca" <==> score <= 1
    ensures caption == "Senha fraca" <==> score == 2
    ensures caption == "Senha m\U{00E9}dia" <==> score == 3
    ensures caption == "Senha forte" <==> score == 4
    ensures caption == "Senha muito forte" <==> score >= 5
  {
    if score <= 1 then "Senha muito fraca"
    else if score == 2 then "Senha fraca"
    else if score == 3 then "Senha média"
    else if score == 4 then "Senha forte"
    else "Senha muito forte"
  }

  /** Label and colour use the same thresholds: two scores get the same
      label exactly when they get the same colour. */
  lemma LabelMatchesColor(a: int, b: int)
    ensures StrengthLabel(a) == StrengthLabel(b) <==> StrengthColor(a) == StrengthColor(b)
  {
  }
}
