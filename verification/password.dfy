/** The password-strength classifier used by the registration form
    (src/utils/validatePassword.ts) and the submission rule built on it (src/views/Register.tsx). */
module PasswordStrength {
  import opened Wrappers
  import opened Chars

  datatype Level = VeryWeak | Weak | Medium | Strong

  /** What the form shows for a password: its level and that level's label (`text`), text color and bar. */
  datatype Strength = Strength(level: Level, text: string, color: string, bar: string)

  /** Minimum length below which every non-empty password is `very-weak`. */
  const MinLength := 6
  /** Length from which the length criterion of the score is met. */
  const LongLength := 8

  /** The fixed presentation of each level. */
  function Presentation(l: Level): (r: Strength)
    ensures r.level == l
  {
    match l
    case VeryWeak => Strength(VeryWeak, "Muy corta (mín. 6 caracteres)", "text-red-500", "w-1/4 bg-red-500")
    case Weak => Strength(Weak, "Débil", "text-orange-500", "w-2/4 bg-orange-500")
    case Medium => Strength(Medium, "Media", "text-yellow-500", "w-3/4 bg-yellow-500")
    case Strong => Strength(Strong, "Fuerte", "text-green-600", "w-full bg-green-500")
  }

  /** Position of a level on the weak-to-strong scale. */
  function Rank(l: Level): nat {
    match l
    case VeryWeak => 0
    case Weak => 1
    case Medium => 2
    case Strong => 3
  }

  /** A character outside the class `[A-Za-z0-9]`. */
  predicate IsSymbol(c: char) { !IsUpper(c) && !IsLower(c) && !IsDigit(c) }

  /** The regular-expression tests `/[A-Z]/`, `/[0-9]/` and `/[^A-Za-z0-9]/`: some character matches. */
  predicate HasUpper(pw: string) { exists i :: 0 <= i < |pw| && IsUpper(pw[i]) }
  predicate HasDigit(pw: string) { exists i :: 0 <= i < |pw| && IsDigit(pw[i]) }
  predicate HasSymbol(pw: string) { exists i :: 0 <= i < |pw| && IsSymbol(pw[i]) }

  function Indicator(b: bool): nat { if b then 1 else 0 }

  /** The score: how many of the four criteria (length at least 8, an upper-case letter,
      a digit, a symbol) the password meets. */
  function Score(pw: string): (r: nat)
    ensures r <= 4
    ensures r == 4 <==> |pw| >= LongLength && HasUpper(pw) && HasDigit(pw) && HasSymbol(pw)
    ensures r == 0 <==> |pw| < LongLength && !HasUpper(pw) && !HasDigit(pw) && !HasSymbol(pw)
  {
    Indicator(|pw| >= LongLength) + Indicator(HasUpper(pw)) + Indicator(HasDigit(pw)) + Indicator(HasSymbol(pw))
  }

  /** `checkPasswordStrength`: `None` for the empty string, otherwise the level with its presentation. */
  function Check(pw: string): (r: Option<Strength>)
    ensures r.None? <==> |pw| == 0
    ensures r.Some? ==> r.value == Presentation(r.value.level)
    ensures r.Some? ==> (r.value.level == VeryWeak <==> |pw| < MinLength)
    ensures r.Some? && |pw| >= MinLength ==>
      && (r.value.level == Weak <==> Score(pw) <= 1)
      && (r.value.level == Medium <==> 2 <= Score(pw) <= 3)
      && (r.value.level == Strong <==> Score(pw) == 4)
    ensures r.Some? && r.value.level == Strong <==>
      |pw| >= LongLength && HasUpper(pw) && HasDigit(pw) && HasSymbol(pw)
  {
    if |pw| == 0 then None
    else if |pw| < MinLength then Some(Presentation(VeryWeak))
    else
      var score := Score(pw);
      if score <= 1 then Some(Presentation(Weak))
      else if score == 2 || score == 3 then Some(Presentation(Medium))
      else Some(Presentation(Strong))
  }

  /** The imperative score computation: one pass over the characters recording which classes
      occur, then one increment per criterion met. */
  method ComputeScore(pw: string) returns (score: nat)
    ensures score == Score(pw)
  {
    var upper, digit, symbol := false, false, false;
    var i := 0;
    while i < |pw|
      invariant 0 <= i <= |pw|
      invariant upper <==> exists j :: 0 <= j < i && IsUpper(pw[j])
      invariant digit <==> exists j :: 0 <= j < i && IsDigit(pw[j])
      invariant symbol <==> exists j :: 0 <= j < i && IsSymbol(pw[j])
    {
      var c := pw[i];
      if IsUpper(c) { upper := true; }
      if IsDigit(c) { digit := true; }
      if IsSymbol(c) { symbol := true; }
      i := i + 1;
    }
    score := 0;
    if |pw| >= LongLength { score := score + 1; }
    if upper { score := score + 1; }
    if digit { score := score + 1; }
    if symbol { score := score + 1; }
  }

  /** The level `Check` assigns, with the empty string at the bottom of the scale. */
  function RankOf(pw: string): nat {
    match Check(pw)
    case None => 0
    case Some(s) => Rank(s.level)
  }

  /** Extending a password never lowers its level: length only grows and every character
      class present stays present. */
  lemma ExtendNeverWeakens(pw: string, ext: string)
    ensures RankOf(pw) <= RankOf(pw + ext)
  {
    var w := pw + ext;
    assert forall i :: 0 <= i < |pw| ==> w[i] == pw[i];
    if HasUpper(pw) {
      var i :| 0 <= i < |pw| && IsUpper(pw[i]);
      assert IsUpper(w[i]);
    }
    if HasDigit(pw) {
      var i :| 0 <= i < |pw| && IsDigit(pw[i]);
      assert IsDigit(w[i]);
    }
    if HasSymbol(pw) {
      var i :| 0 <= i < |pw| && IsSymbol(pw[i]);
      assert IsSymbol(w[i]);
    }
    assert Score(pw) <= Score(w);
  }

  /** The registration form's submit button: it is enabled exactly when no request is pending
      and the password is not `very-weak`. */
  function CanSubmit(loading: bool, pw: string): (ok: bool)
    ensures ok <==> !loading && (|pw| == 0 || |pw| >= MinLength)
  {
    var info := Check(pw);
    !(loading || (info.Some? && info.value.level == VeryWeak))
  }
}
