/**
 * The password strength evaluator: a score from 0 to 5, a five-step tier,
 * a list of improvement hints and an acceptability gate that is decided
 * apart from the score.
 */
module PasswordValidator {

  datatype Strength = VeryWeak | Weak | Medium | Strong | VeryStrong

  /** The evaluator's result: the gate, the clamped score, the hints, the tier. */
  datatype PasswordStrength = PasswordStrength(isValid: bool, score: int, feedback: seq<Hint>, strength: Strength)

  const MinLength := 8
  const LongLength := 12
  const MaxScore := 5

  /** The punctuation that counts as a special character. */
  const SpecialChars := "!@#$%^&*(),.?\":{}|<>"

  /** Lower-cased substrings that mark a password as common. */
  const CommonPatterns := ["password", "123456", "qwerty", "admin", "letmein"]

  /** The improvement hints the evaluator can emit. */
  datatype Hint =
    | TooShortHint | UpperHint | LowerHint | DigitHint | SpecialHint
    | RepeatHint | CommonHint | ClassesHint

  /** The Korean text the server pushes onto `feedback` for each hint. */
  function HintText(h: Hint): (text: string)
    ensures text != ""
  {
    match h
    case TooShortHint => "비밀번호는 최소 8자 이상이어야 합니다"
    case UpperHint => "대문자를 포함하세요"
    case LowerHint => "소문자를 포함하세요"
    case DigitHint => "숫자를 포함하세요"
    case SpecialHint => "특수문자를 포함하세요"
    case RepeatHint => "연속된 문자는 피하세요"
    case CommonHint => "너무 흔한 비밀번호입니다"
    case ClassesHint => "대소문자, 숫자, 특수문자 중 3가지 이상을 포함해야 합니다"
  }

  /** The `feedback` array of a response: the text of each hint, in order. */
  function FeedbackTexts(hints: seq<Hint>): (texts: seq<string>)
    ensures |texts| == |hints|
    ensures forall i :: 0 <= i < |hints| ==> texts[i] == HintText(hints[i])
  {
    seq(|hints|, i requires 0 <= i < |hints| => HintText(hints[i]))
  }

  /** No two hints share a text, so the texts of a response determine its hints. */
  lemma HintTextsDistinct(h1: Hint, h2: Hint)
    ensures h1 != h2 ==> HintText(h1) != HintText(h2)
  {
  }

  lemma FeedbackTextsDetermineHints(a: seq<Hint>, b: seq<Hint>)
    ensures FeedbackTexts(a) == FeedbackTexts(b) ==> a == b
  {
    if FeedbackTexts(a) == FeedbackTexts(b) {
      forall i | 0 <= i < |a|
        ensures a[i] == b[i]
      {
        HintTextsDistinct(a[i], b[i]);
      }
    }
  }

  // ---------------------------------------------------------------------
  // Character classes (the regular-expression tests of the server)
  // ---------------------------------------------------------------------

  predicate IsUpper(c: char) { 'A' <= c <= 'Z' }
  predicate IsLower(c: char) { 'a' <= c <= 'z' }
  predicate IsDigit(c: char) { '0' <= c <= '9' }
  predicate IsSpecial(c: char) { c in SpecialChars }

  /** `/[A-Z]/` matches somewhere. */
  predicate HasUpper(s: string) { exists i {:trigger IsUpper(s[i])} :: 0 <= i < |s| && IsUpper(s[i]) }
  /** `/[a-z]/` matches somewhere. */
  predicate HasLower(s: string) { exists i {:trigger IsLower(s[i])} :: 0 <= i < |s| && IsLower(s[i]) }
  /** `/[0-9]/` matches somewhere. */
  predicate HasDigit(s: string) { exists i {:trigger IsDigit(s[i])} :: 0 <= i < |s| && IsDigit(s[i]) }
  /** The special-character class matches somewhere. */
  predicate HasSpecial(s: string) { exists i {:trigger IsSpecial(s[i])} :: 0 <= i < |s| && IsSpecial(s[i]) }

  // ---------------------------------------------------------------------
  // The UTF-16 view. A JavaScript string is a sequence of UTF-16 code
  // units: `length` counts them, and a regular expression without the `u`
  // flag matches them one by one. A character above U+FFFF is two units.
  // The four class tests above agree on characters and on units, because
  // every unit of a surrogate pair lies outside all four classes.
  // ---------------------------------------------------------------------

  /** A character outside the Basic Multilingual Plane. */
  predicate IsAstral(c: char) { c as int >= 0x10000 }

  /** The UTF-16 encoding of one character: itself, or a surrogate pair. */
  function CodeUnitsOf(c: char): (u: seq<int>)
    ensures |u| == if IsAstral(c) then 2 else 1
    ensures !IsAstral(c) ==> u == [c as int]
    ensures IsAstral(c) ==> 0xD800 <= u[0] < 0xDC00 && 0xDC00 <= u[1] < 0xE000
  {
    if IsAstral(c) then
      var v := c as int - 0x10000;
      [0xD800 + v / 0x400, 0xDC00 + v % 0x400]
    else
      [c as int]
  }

  /** The UTF-16 code units of a string. */
  function Utf16(s: string): (u: seq<int>)
    ensures |s| <= |u| <= 2 * |s|
    ensures (forall i :: 0 <= i < |s| ==> !IsAstral(s[i])) ==> |u| == |s|
    decreases |s|
  {
    if |s| == 0 then [] else CodeUnitsOf(s[0]) + Utf16(s[1..])
  }

  /** `password.length`: the number of UTF-16 code units. */
  function Length(s: string): nat {
    |Utf16(s)|
  }

  /** The units that `.` does not match: line feed, carriage return, line and paragraph separators. */
  predicate IsLineTerminator(u: int) {
    u == 0x0A || u == 0x0D || u == 0x2028 || u == 0x2029
  }

  /** `/(.)\1{2,}/` matches: a code unit other than a line terminator occurs three or more times in a row. */
  predicate HasRepeat(s: string) {
    UnitRun(Utf16(s))
  }

  predicate UnitRun(u: seq<int>) {
    exists i :: 0 <= i && i + 2 < |u| && RunAt(u, i)
  }

  /** Units `i`, `i + 1` and `i + 2` are one and the same unit, which `.` matches. */
  predicate RunAt(u: seq<int>, i: int)
    requires 0 <= i && i + 2 < |u|
  {
    !IsLineTerminator(u[i]) && u[i] == u[i + 1] && u[i + 1] == u[i + 2]
  }

  /** ASCII lower-casing of one character. */
  function LowerChar(c: char): (r: char)
    ensures IsUpper(c) ==> IsLower(r) && r as int == c as int + 32
    ensures !IsUpper(c) ==> r == c
  {
    if IsUpper(c) then (c as int + 32) as char else c
  }

  /** ASCII lower-casing of a string, character by character. */
  function ToLower(s: string): (r: string)
    ensures |r| == |s|
    ensures forall i :: 0 <= i < |s| ==> r[i] == LowerChar(s[i])
    ensures forall i :: 0 <= i < |r| ==> !IsUpper(r[i])
    ensures forall i :: 0 <= i < |r| ==> (IsLower(r[i]) <==> IsUpper(s[i]) || IsLower(s[i]))
  {
    seq(|s|, i requires 0 <= i < |s| => LowerChar(s[i]))
  }

  /** `pat` occurs in `s` starting at index `i`. */
  predicate OccursAt(s: string, pat: string, i: int) {
    0 <= i && i + |pat| <= |s| && s[i..i + |pat|] == pat
  }

  /** `s.includes(pat)`: `pat` occurs in `s` as a contiguous substring. */
  predicate Includes(s: string, pat: string) {
    exists i :: 0 <= i <= |s| && OccursAt(s, pat, i)
  }

  /**
   * The lower-cased password contains one of the common patterns. The
   * patterns are ASCII, so a match among the code units is a match among
   * the characters.
   */
  predicate IsCommon(s: string) {
    exists k :: 0 <= k < |CommonPatterns| && Includes(ToLower(s), CommonPatterns[k])
  }

  function Bit(b: bool): nat { if b then 1 else 0 }

  /** How many of the four character classes the password uses. */
  function ClassCount(s: string): (n: nat)
    ensures n <= 4
    ensures n == 4 <==> HasUpper(s) && HasLower(s) && HasDigit(s) && HasSpecial(s)
    ensures n == 0 <==> !HasUpper(s) && !HasLower(s) && !HasDigit(s) && !HasSpecial(s)
  {
    Bit(HasUpper(s)) + Bit(HasLower(s)) + Bit(HasDigit(s)) + Bit(HasSpecial(s))
  }

  /** The acceptability gate: long enough and at least three of the four classes. */
  predicate MeetsPolicy(s: string) {
    Length(s) >= MinLength && ClassCount(s) >= 3
  }

  // ---------------------------------------------------------------------
  // The evaluation, stated declaratively
  // ---------------------------------------------------------------------

  /** One point for reaching 8 characters, one more for reaching 12. */
  function LengthPoints(s: string): nat {
    Bit(Length(s) >= MinLength) + Bit(Length(s) >= LongLength)
  }

  /**
   * The score before clamping: length points and class points, one off for
   * a run of three, two off (never below zero) for a common pattern.
   */
  function PenalisedScore(s: string): int {
    CommonPenalty(RepeatPenalty(LengthPoints(s) + ClassCount(s), HasRepeat(s)), IsCommon(s))
  }

  /** One point off for a run of three. */
  function RepeatPenalty(score: int, repeated: bool): int {
    if repeated then score - 1 else score
  }

  /** Two points off for a common pattern, never below zero. */
  function CommonPenalty(score: int, common: bool): int {
    if common then Max(0, score - 2) else score
  }

  function Max(a: int, b: int): int { if a >= b then a else b }
  function Min(a: int, b: int): int { if a <= b then a else b }

  /** The score thresholds of the five tiers. */
  function TierOf(score: int): Strength {
    if score <= 1 then VeryWeak
    else if score == 2 then Weak
    else if score == 3 then Medium
    else if score == 4 then Strong
    else VeryStrong
  }

  /** `feedback` with `h` pushed onto it when `missing` holds. */
  function PushIf(feedback: seq<Hint>, missing: bool, h: Hint): seq<Hint> {
    if missing then feedback + [h] else feedback
  }

  /** One hint per missing character class, in the order upper, lower, digit, special. */
  function ClassHints(s: string): seq<Hint> {
    PushIf(PushIf(PushIf(PushIf([], !HasUpper(s), UpperHint),
      !HasLower(s), LowerHint), !HasDigit(s), DigitHint), !HasSpecial(s), SpecialHint)
  }

  /** The hints for a password of at least eight code units: the class hints, then the penalties'. */
  function Hints(s: string): seq<Hint> {
    PushIf(PushIf(ClassHints(s), HasRepeat(s), RepeatHint), IsCommon(s), CommonHint)
  }

  /** What the evaluator returns for `s`. */
  function Evaluate(s: string): PasswordStrength {
    if Length(s) < MinLength then
      PasswordStrength(false, 0, [TooShortHint], VeryWeak)
    else
      var valid := Length(s) >= MinLength && ClassCount(s) >= 3;
      var hints := Hints(s);
      PasswordStrength(
        valid,
        Max(0, Min(MaxScore, PenalisedScore(s))),
        if !valid && |hints| == 0 then hints + [ClassesHint] else hints,
        TierOf(PenalisedScore(s)))
  }

  // ---------------------------------------------------------------------
  // The evaluator as the server runs it: a score and a hint list updated
  // check by check
  // ---------------------------------------------------------------------

  method ValidatePassword(password: string) returns (r: PasswordStrength)
    ensures r == Evaluate(password)
  {
    var feedback: seq<Hint> := [];
    var score := 0;
    var length := Length(password);

    if length < MinLength {
      feedback := feedback + [TooShortHint];
      return PasswordStrength(false, 0, feedback, VeryWeak);
    }

    if length >= MinLength { score := score + 1; }
    if length >= LongLength { score := score + 1; }
    assert score == LengthPoints(password);

    score, feedback := CheckClass(HasUpper(password), UpperHint, score, feedback);
    score, feedback := CheckClass(HasLower(password), LowerHint, score, feedback);
    score, feedback := CheckClass(HasDigit(password), DigitHint, score, feedback);
    score, feedback := CheckClass(HasSpecial(password), SpecialHint, score, feedback);
    score, feedback := CheckPenalties(password, score, feedback);
    assert score == PenalisedScore(password) && feedback == Hints(password);

    var strength := StrengthFor(score);

    var hasUpper := HasUpper(password);
    var hasLower := HasLower(password);
    var hasNumber := HasDigit(password);
    var hasSpecial := HasSpecial(password);
    var typesCount := Bit(hasUpper) + Bit(hasLower) + Bit(hasNumber) + Bit(hasSpecial);
    var isValid := length >= MinLength && typesCount >= 3;

    if !isValid && |feedback| == 0 {
      feedback := feedback + [ClassesHint];
    }

    r := PasswordStrength(isValid, Max(0, Min(MaxScore, score)), feedback, strength);
  }

  /** One class test: a point when the class is present, its hint when it is not. */
  method CheckClass(present: bool, hint: Hint, score: int, feedback: seq<Hint>)
    returns (score': int, feedback': seq<Hint>)
    ensures score' == score + Bit(present)
    ensures feedback' == PushIf(feedback, !present, hint)
  {
    score', feedback' := score, feedback;
    if present {
      score' := score' + 1;
    } else {
      feedback' := feedback' + [hint];
    }
  }

  /** The two penalties: one point for a run of three, then two (floored at zero) for a common pattern. */
  method CheckPenalties(password: string, score: int, feedback: seq<Hint>)
    returns (score': int, feedback': seq<Hint>)
    ensures score' == CommonPenalty(RepeatPenalty(score, HasRepeat(password)), IsCommon(password))
    ensures feedback' == PushIf(PushIf(feedback, HasRepeat(password), RepeatHint), IsCommon(password), CommonHint)
  {
    score', feedback' := score, feedback;
    if HasRepeat(password) {
      score' := score' - 1;
      feedback' := feedback' + [RepeatHint];
    }
    if IsCommon(password) {
      score' := Max(0, score' - 2);
      feedback' := feedback' + [CommonHint];
    }
  }

  /** The tier chosen for the (unclamped) score. */
  method StrengthFor(score: int) returns (strength: Strength)
    ensures strength == TierOf(score)
  {
    if score <= 1 { strength := VeryWeak; }
    else if score == 2 { strength := Weak; }
    else if score == 3 { strength := Medium; }
    else if score == 4 { strength := Strong; }
    else { strength := VeryStrong; }
  }

  // ---------------------------------------------------------------------
  // Tier lookups
  // ---------------------------------------------------------------------

  /** The display colour of a tier: a `#rrggbb` code, a different one per tier. */
  function StrengthColor(strength: Strength): (c: string)
    ensures |c| == 7 && c[0] == '#'
    ensures forall i :: 1 <= i < 7 ==> IsHexDigit(c[i])
    ensures forall other: Strength :: other != strength ==> c != StrengthColorTable(other)
  {
    StrengthColorTable(strength)
  }

  /** A lower-case hexadecimal digit. */
  predicate IsHexDigit(c: char) { IsDigit(c) || 'a' <= c <= 'f' }

  function StrengthColorTable(strength: Strength): string {
    match strength
    case VeryWeak => "#f44336"
    case Weak => "#ff9800"
    case Medium => "#ffc107"
    case Strong => "#8bc34a"
    case VeryStrong => "#4caf50"
  }

  /** The display label of a tier: non-empty, a different one per tier. */
  function StrengthText(strength: Strength): (t: string)
    ensures |t| > 0
    ensures forall other: Strength :: other != strength ==> t != StrengthTextTable(other)
  {
    StrengthTextTable(strength)
  }

  function StrengthTextTable(strength: Strength): string {
    match strength
    case VeryWeak => "매우 약함"
    case Weak => "약함"
    case Medium => "보통"
    case Strong => "강함"
    case VeryStrong => "매우 강함"
  }

  // ---------------------------------------------------------------------
  // Properties of the evaluation
  // ---------------------------------------------------------------------

  /** A password shorter than eight code units is rejected outright with one hint. */
  lemma ShortPasswordRejected(s: string)
    requires Length(s) < MinLength
    ensures Evaluate(s) == PasswordStrength(false, 0, [TooShortHint], VeryWeak)
  {
  }

  /** The reported score always lies in 0..5. */
  lemma ScoreInRange(s: string)
    ensures 0 <= Evaluate(s).score <= MaxScore
  {
  }

  /** The gate holds exactly when the password is long enough and uses three classes. */
  lemma ValidIffPolicy(s: string)
    ensures Evaluate(s).isValid <==> MeetsPolicy(s)
  {
  }

  /**
   * Validity is decided by the gate alone: two passwords of equal length
   * with the same character classes get the same verdict, whatever runs or
   * common patterns either contains.
   */
  lemma ValidityIgnoresPenalties(s: string, t: string)
    requires Length(s) == Length(t)
    requires HasUpper(s) == HasUpper(t) && HasLower(s) == HasLower(t)
    requires HasDigit(s) == HasDigit(t) && HasSpecial(s) == HasSpecial(t)
    ensures Evaluate(s).isValid == Evaluate(t).isValid
  {
  }

  /** A gate-passing password stays valid even when it is penalised. */
  lemma PenalisedButValid(s: string)
    requires MeetsPolicy(s)
    requires HasRepeat(s) || IsCommon(s)
    ensures Evaluate(s).isValid
  {
  }

  /** The condition under which a password of eight code units or more earns hint `h`. */
  predicate Earns(s: string, h: Hint) {
    match h
    case TooShortHint => false
    case UpperHint => !HasUpper(s)
    case LowerHint => !HasLower(s)
    case DigitHint => !HasDigit(s)
    case SpecialHint => !HasSpecial(s)
    case RepeatHint => HasRepeat(s)
    case CommonHint => IsCommon(s)
    case ClassesHint => false
  }

  /**
   * For a password of eight code units or more, each missing class adds its
   * own hint, the run hint appears exactly on a run of three, the
   * common-pattern hint exactly on a common pattern, and no other hint appears.
   */
  lemma HintIffEarned(s: string, h: Hint)
    requires Length(s) >= MinLength
    ensures h in Evaluate(s).feedback <==> Earns(s, h)
  {
    GenericHintNeverNeeded(s);
    InHints(s, h);
  }

  /** Membership in the hint list of a long password, one push at a time. */
  lemma InHints(s: string, h: Hint)
    ensures h in Hints(s) <==> Earns(s, h)
  {
    var c1 := PushIf([], !HasUpper(s), UpperHint);
    var c2 := PushIf(c1, !HasLower(s), LowerHint);
    var c3 := PushIf(c2, !HasDigit(s), DigitHint);
    var c4 := PushIf(c3, !HasSpecial(s), SpecialHint);
    var c5 := PushIf(c4, HasRepeat(s), RepeatHint);
    InPushIf([], !HasUpper(s), UpperHint, h);
    InPushIf(c1, !HasLower(s), LowerHint, h);
    InPushIf(c2, !HasDigit(s), DigitHint, h);
    InPushIf(c3, !HasSpecial(s), SpecialHint, h);
    InPushIf(c4, HasRepeat(s), RepeatHint, h);
    InPushIf(c5, IsCommon(s), CommonHint, h);
  }

  lemma InPushIf(feedback: seq<Hint>, missing: bool, h: Hint, x: Hint)
    ensures x in PushIf(feedback, missing, h) <==> x in feedback || (missing && x == h)
  {
  }

  /**
   * The fallback hint is never emitted: a long password that fails the gate
   * misses at least two classes and therefore already carries two hints.
   */
  lemma GenericHintNeverNeeded(s: string)
    ensures Evaluate(s).feedback == if Length(s) < MinLength then [TooShortHint] else Hints(s)
  {
  }

  /** A rejected password always comes with at least one hint. */
  lemma InvalidHasFeedback(s: string)
    ensures !Evaluate(s).isValid ==> |Evaluate(s).feedback| > 0
  {
  }

  /** The repeat penalty can take at most one point and the common penalty never goes below zero. */
  lemma PenaltyBounds(s: string)
    requires Length(s) >= MinLength
    ensures 0 <= PenalisedScore(s) <= LengthPoints(s) + ClassCount(s)
    ensures !HasRepeat(s) && !IsCommon(s) ==> PenalisedScore(s) == LengthPoints(s) + ClassCount(s)
  {
  }

  /** The tier agrees with the reported (clamped) score. */
  lemma TierMatchesScore(s: string)
    ensures Evaluate(s).strength == TierOf(Evaluate(s).score)
    ensures Evaluate(s).score <= 1 <==> Evaluate(s).strength == VeryWeak
    ensures Evaluate(s).score == 5 <==> Evaluate(s).strength == VeryStrong
  {
  }

  // ---------------------------------------------------------------------
  // Lengths and runs are counted in UTF-16 code units
  // ---------------------------------------------------------------------

  lemma {:induction false} Utf16Append(a: string, b: string)
    ensures Utf16(a + b) == Utf16(a) + Utf16(b)
    decreases |a|
  {
    if |a| == 0 {
      assert a + b == b;
    } else {
      assert (a + b)[0] == a[0] && (a + b)[1..] == a[1..] + b;
      Utf16Append(a[1..], b);
    }
  }

  lemma Utf16Char(c: char)
    ensures Utf16([c]) == CodeUnitsOf(c)
  {
  }

  /** Three equal characters in a row inside the plane, other than a line terminator, are a run. */
  lemma BmpRunIsRepeat(s: string, i: nat)
    requires i + 2 < |s| && s[i] == s[i + 1] == s[i + 2]
    requires !IsAstral(s[i]) && !IsLineTerminator(s[i] as int)
    ensures HasRepeat(s)
  {
    var c := s[i];
    var before, after := s[..i], s[i + 3..];
    assert s == before + ([c] + ([c] + ([c] + after)));
    Utf16Append(before, [c] + ([c] + ([c] + after)));
    Utf16Cons(c, [c] + ([c] + after));
    Utf16Cons(c, [c] + after);
    Utf16Cons(c, after);
    var u := Utf16(before) + ([c as int] + ([c as int] + ([c as int] + Utf16(after))));
    assert Utf16(s) == u;
    assert RunAt(u, |Utf16(before)|);
  }

  lemma Utf16Cons(c: char, t: string)
    ensures Utf16([c] + t) == CodeUnitsOf(c) + Utf16(t)
  {
  }

  /** The code units of "Aa1" followed by `n` grinning faces. */
  lemma Utf16OfEmojiPassword(n: nat)
    ensures Utf16("Aa1" + Emoji(n)) == [65, 97, 49] + Units(n)
  {
    Utf16Append("Aa1", Emoji(n));
    assert Utf16("Aa1") == [65, 97, 49] by {
      assert "Aa1"[1..] == "a1" && "a1"[1..] == "1" && "1"[1..] == [];
    }
    Utf16OfEmoji(n);
  }

  lemma {:induction false} Utf16OfEmoji(n: nat)
    ensures Utf16(Emoji(n)) == Units(n)
  {
    if n > 0 {
      Utf16Cons('\U{1F600}', Emoji(n - 1));
      Utf16OfEmoji(n - 1);
    }
  }

  /** `n` grinning faces, and their `2 * n` code units. */
  function Emoji(n: nat): string {
    if n == 0 then [] else ['\U{1F600}'] + Emoji(n - 1)
  }

  function Units(n: nat): seq<int> {
    if n == 0 then [] else [0xD83D, 0xDE00] + Units(n - 1)
  }

  /**
   * Three emoji count as six units: the password "Aa1" followed by three
   * grinning faces is nine units long and passes the gate with score 4,
   * only the special-character hint and the tier strong.
   */
  lemma AstralCharactersCountTwice()
    ensures Length("Aa1" + Emoji(3)) == 9
    ensures Evaluate("Aa1" + Emoji(3)) == PasswordStrength(true, 4, [SpecialHint], Strong)
  {
    var s := "Aa1" + Emoji(3);
    EmojiPasswordClasses();
    EmojiPasswordNoRun();
    EmojiPasswordNotCommon();
    assert ClassCount(s) == 3 && LengthPoints(s) == 1;
    assert ClassHints(s) == [SpecialHint];
  }

  lemma EmojiPasswordClasses()
    ensures HasUpper("Aa1" + Emoji(3)) && HasLower("Aa1" + Emoji(3)) && HasDigit("Aa1" + Emoji(3))
    ensures !HasSpecial("Aa1" + Emoji(3))
  {
    var s := "Aa1" + Emoji(3);
    assert Emoji(3) == ['\U{1F600}', '\U{1F600}', '\U{1F600}'];
    assert IsUpper(s[0]) && IsLower(s[1]) && IsDigit(s[2]);
    forall i | 0 <= i < |s|
      ensures !IsSpecial(s[i])
    {
      assert s[i] in "Aa1\U{1F600}";
    }
  }

  lemma EmojiPasswordNoRun()
    ensures Length("Aa1" + Emoji(3)) == 9
    ensures !HasRepeat("Aa1" + Emoji(3))
  {
    Utf16OfEmojiPassword(3);
    var u := [65, 97, 49] + Units(3);
    assert Units(3) == [0xD83D, 0xDE00, 0xD83D, 0xDE00, 0xD83D, 0xDE00];
    forall i | 0 <= i && i + 2 < |u|
      ensures !RunAt(u, i)
    {
      assert u[i] != u[i + 1] || u[i + 1] != u[i + 2];
    }
  }

  lemma EmojiPasswordNotCommon()
    ensures !IsCommon("Aa1" + Emoji(3))
  {
    var lowered := ToLower("Aa1" + Emoji(3));
    assert Emoji(3) == ['\U{1F600}', '\U{1F600}', '\U{1F600}'];
    assert lowered == "aa1\U{1F600}\U{1F600}\U{1F600}";
    forall k, i | 0 <= k < |CommonPatterns| && 0 <= i && i + |CommonPatterns[k]| <= |lowered|
      ensures !OccursAt(lowered, CommonPatterns[k], i)
    {
      assert lowered[i] != CommonPatterns[k][0] || lowered[i + 1] != CommonPatterns[k][1];
    }
  }

  /** Five emoji in a row are no run: the two halves of a surrogate pair always differ. */
  lemma AstralRunIsNoRepeat()
    ensures !HasRepeat("Aa1" + Emoji(5))
  {
    Utf16OfEmojiPassword(5);
    var u := [65, 97, 49] + Units(5);
    assert Units(5) == [0xD83D, 0xDE00, 0xD83D, 0xDE00, 0xD83D, 0xDE00, 0xD83D, 0xDE00, 0xD83D, 0xDE00];
    forall i | 0 <= i && i + 2 < |u|
      ensures !RunAt(u, i)
    {
      assert u[i] != u[i + 1] || u[i + 1] != u[i + 2];
    }
  }
}
