/**
 * The sign-up form validators: e-mail shape, password strength, password
 * confirmation and full-name length.
 */
module Validation {
  import opened Js

  // ---------------------------------------------------------------------
  // isValidEmail
  // ---------------------------------------------------------------------

  /** A character the class `[^\s@]` accepts. */
  predicate EmailChar(c: char)
  {
    !IsJsSpace(c) && c != '@'
  }

  /** A string `[^\s@]+` matches in full. */
  predicate EmailPart(s: string)
  {
    s != [] && forall k :: 0 <= k < |s| ==> EmailChar(s[k])
  }

  /**
   * `/^[^\s@]+@[^\s@]+\.[^\s@]+$/.test(email)`: some '@' at `i` and some '.'
   * at `j` split the string into three non-empty runs free of white space
   * and '@'.
   */
  predicate IsValidEmail(email: string)
  {
    exists i, j | 0 < i < j < |email| ::
      email[i] == '@' && email[j] == '.' &&
      EmailPart(email[..i]) && EmailPart(email[i + 1..j]) && EmailPart(email[j + 1..])
  }

  predicate NoSpace(s: string)
  {
    forall k :: 0 <= k < |s| ==> !IsJsSpace(s[k])
  }

  /** `s[i]` is the one and only '@' of `s`. */
  predicate SoleAt(s: string, i: int)
  {
    0 <= i < |s| && s[i] == '@' && forall k :: 0 <= k < |s| && k != i ==> s[k] != '@'
  }

  /** `d` has a '.' that is neither its first nor its last character. */
  predicate InnerDot(d: string)
  {
    exists m | 0 < m < |d| - 1 :: d[m] == '.'
  }

  /** The plain-words reading of the pattern. */
  predicate EmailShape(s: string)
  {
    NoSpace(s) && exists i | 0 < i < |s| :: SoleAt(s, i) && InnerDot(s[i + 1..])
  }

  /** A slice is an `EmailPart` exactly when it is non-empty and every character in its range is an `EmailChar`. */
  lemma EmailPartRange(s: string, a: int, b: int)
    requires 0 <= a <= b <= |s|
    ensures EmailPart(s[a..b]) <==> a < b && forall k :: a <= k < b ==> EmailChar(s[k])
  {
    if a < b && forall k :: a <= k < b ==> EmailChar(s[k]) {
      forall k | 0 <= k < b - a
        ensures EmailChar(s[a..b][k])
      {
        assert s[a..b][k] == s[a + k];
      }
    }
    if EmailPart(s[a..b]) {
      forall k | a <= k < b
        ensures EmailChar(s[k])
      {
        assert s[k] == s[a..b][k - a];
      }
    }
  }

  /** Every character of a matched address other than its '@' and its '.' is an `EmailChar`. */
  lemma PatternChars(s: string, i: int, j: int)
    requires 0 < i < j < |s|
    requires EmailPart(s[..i]) && EmailPart(s[i + 1..j]) && EmailPart(s[j + 1..])
    ensures forall k :: 0 <= k < |s| && k != i && k != j ==> EmailChar(s[k])
  {
    assert s[..i] == s[0..i] && s[j + 1..] == s[j + 1..|s|];
    EmailPartRange(s, 0, i);
    EmailPartRange(s, i + 1, j);
    EmailPartRange(s, j + 1, |s|);
  }

  /** With those characters, the '@' is the only one and there is no white space. */
  lemma PatternSoleAt(s: string, i: int, j: int)
    requires 0 < i < j < |s| && s[i] == '@' && s[j] == '.'
    requires forall k :: 0 <= k < |s| && k != i && k != j ==> EmailChar(s[k])
    ensures NoSpace(s) && SoleAt(s, i)
  {
    forall k | 0 <= k < |s|
      ensures !IsJsSpace(s[k])
    {
      if k != i && k != j {
        assert EmailChar(s[k]);
      }
    }
    forall k | 0 <= k < |s| && k != i
      ensures s[k] != '@'
    {
      if k != j {
        assert EmailChar(s[k]);
      }
    }
  }

  lemma PatternGivesShape(s: string)
    requires IsValidEmail(s)
    ensures EmailShape(s)
  {
    var i, j :| 0 < i < j < |s| && s[i] == '@' && s[j] == '.' &&
      EmailPart(s[..i]) && EmailPart(s[i + 1..j]) && EmailPart(s[j + 1..]);
    PatternChars(s, i, j);
    PatternSoleAt(s, i, j);
    var d := s[i + 1..];
    var m := j - i - 1;
    assert 0 < m < |d| - 1 && d[m] == '.';
    assert InnerDot(d);
  }

  lemma ShapeGivesPattern(s: string)
    requires EmailShape(s)
    ensures IsValidEmail(s)
  {
    var i :| 0 < i < |s| && SoleAt(s, i) && InnerDot(s[i + 1..]);
    var d := s[i + 1..];
    var m :| 0 < m < |d| - 1 && d[m] == '.';
    var j := i + 1 + m;
    assert s[j] == '.';
    assert s[..i] == s[0..i] && s[j + 1..] == s[j + 1..|s|];
    EmailPartRange(s, 0, i);
    EmailPartRange(s, i + 1, j);
    EmailPartRange(s, j + 1, |s|);
  }

  /**
   * An address is accepted exactly when it has one '@', no white space, a
   * non-empty part before the '@' and a '.' strictly inside the part after.
   */
  lemma EmailCharacterisation(s: string)
    ensures IsValidEmail(s) <==> EmailShape(s)
  {
    if IsValidEmail(s) {
      PatternGivesShape(s);
    }
    if EmailShape(s) {
      ShapeGivesPattern(s);
    }
  }

  // ---------------------------------------------------------------------
  // validatePassword
  // ---------------------------------------------------------------------

  const LengthMessage: string := "Password must be at least 8 characters long"
  const UppercaseMessage: string := "Password must contain at least one uppercase letter"
  const LowercaseMessage: string := "Password must contain at least one lowercase letter"
  const DigitMessage: string := "Password must contain at least one number"

  datatype PasswordCheck = PasswordCheck(isValid: bool, errors: seq<string>)

  /** `/[A-Z]/.test(s)` */
  predicate HasUpper(s: string)
  {
    exists k | 0 <= k < |s| :: IsAsciiUpper(s[k])
  }

  /** `/[a-z]/.test(s)` */
  predicate HasLower(s: string)
  {
    exists k | 0 <= k < |s| :: IsAsciiLower(s[k])
  }

  /** `/[0-9]/.test(s)` */
  predicate HasDigit(s: string)
  {
    exists k | 0 <= k < |s| :: IsAsciiDigit(s[k])
  }

  /** The four messages differ from one another at a fixed position. */
  lemma PasswordMessagesDistinct()
    ensures LengthMessage != UppercaseMessage && LengthMessage != LowercaseMessage
    ensures LengthMessage != DigitMessage && UppercaseMessage != LowercaseMessage
    ensures UppercaseMessage != DigitMessage && LowercaseMessage != DigitMessage
  {
    assert LengthMessage[14] == 'b';
    assert UppercaseMessage[14] == 'c' && UppercaseMessage[35] == 'u';
    assert LowercaseMessage[14] == 'c' && LowercaseMessage[35] == 'l';
    assert DigitMessage[14] == 'c' && DigitMessage[35] == 'n';
  }

  /** The message a rule contributes: itself when the rule fails, nothing otherwise. */
  function Piece(fails: bool, message: string): (r: seq<string>)
    ensures fails <==> message in r
    ensures |r| <= 1 && forall e :: e in r ==> e == message
  {
    if fails then [message] else []
  }

  /** The sub-sequence of the four messages, in checking order, picked by the failed rules. */
  function Pieces(length: bool, upper: bool, lower: bool, digit: bool): seq<string>
  {
    Piece(length, LengthMessage) + Piece(upper, UppercaseMessage) +
    Piece(lower, LowercaseMessage) + Piece(digit, DigitMessage)
  }

  /** `errors` is an in-order sub-sequence of the four rule messages. */
  predicate InRuleOrder(errors: seq<string>)
  {
    exists a: bool, b: bool, c: bool, d: bool :: errors == Pieces(a, b, c, d)
  }

  /** Each message of `Pieces` reports exactly its own failed rule. */
  lemma PiecesReport(a: bool, b: bool, c: bool, d: bool)
    ensures var es := Pieces(a, b, c, d);
      (LengthMessage in es <==> a) && (UppercaseMessage in es <==> b) &&
      (LowercaseMessage in es <==> c) && (DigitMessage in es <==> d) &&
      (es == [] <==> !a && !b && !c && !d)
  {
    PasswordMessagesDistinct();
  }

  predicate NoDuplicates(s: seq<string>)
  {
    forall k, l :: 0 <= k < l < |s| ==> s[k] != s[l]
  }

  lemma AppendNoDuplicates(x: seq<string>, y: seq<string>)
    requires NoDuplicates(x) && NoDuplicates(y)
    requires forall e :: e in x ==> e !in y
    ensures NoDuplicates(x + y)
  {
    var xy := x + y;
    forall k, l | 0 <= k < l < |xy|
      ensures xy[k] != xy[l]
    {
      if l >= |x| && k < |x| {
        assert xy[k] in x && xy[l] == y[l - |x|];
      } else if k >= |x| {
        assert xy[k] == y[k - |x|] && xy[l] == y[l - |x|];
      }
    }
  }

  /** Picking from four distinct strings in order never picks one twice. */
  lemma SelectionHasNoDuplicates(a: bool, b: bool, c: bool, d: bool, m0: string, m1: string, m2: string, m3: string)
    requires m0 != m1 && m0 != m2 && m0 != m3 && m1 != m2 && m1 != m3 && m2 != m3
    ensures NoDuplicates(Piece(a, m0) + Piece(b, m1) + Piece(c, m2) + Piece(d, m3))
  {
    var p0, p1, p2, p3 := Piece(a, m0), Piece(b, m1), Piece(c, m2), Piece(d, m3);
    AppendNoDuplicates(p0, p1);
    AppendNoDuplicates(p0 + p1, p2);
    AppendNoDuplicates(p0 + p1 + p2, p3);
  }

  /** An in-order selection of the rules never reports a message twice. */
  lemma InRuleOrderHasNoDuplicates(errors: seq<string>)
    requires InRuleOrder(errors)
    ensures NoDuplicates(errors)
  {
    PasswordMessagesDistinct();
    var a: bool, b: bool, c: bool, d: bool :| errors == Pieces(a, b, c, d);
    SelectionHasNoDuplicates(a, b, c, d, LengthMessage, UppercaseMessage, LowercaseMessage, DigitMessage);
  }

  /**
   * `validatePassword`: appends one message per failed rule, in rule order;
   * the password is valid exactly when no rule failed.
   */
  method ValidatePassword(password: string) returns (result: PasswordCheck)
    ensures result.isValid <==> result.errors == []
    ensures LengthMessage in result.errors <==> Utf16Length(password) < 8
    ensures UppercaseMessage in result.errors <==> !HasUpper(password)
    ensures LowercaseMessage in result.errors <==> !HasLower(password)
    ensures DigitMessage in result.errors <==> !HasDigit(password)
    ensures InRuleOrder(result.errors)
  {
    var errors: seq<string> := [];
    if Utf16Length(password) < 8 {
      errors := errors + [LengthMessage];
    }
    if !HasUpper(password) {
      errors := errors + [UppercaseMessage];
    }
    if !HasLower(password) {
      errors := errors + [LowercaseMessage];
    }
    if !HasDigit(password) {
      errors := errors + [DigitMessage];
    }
    var a, b, c, d := Utf16Length(password) < 8, !HasUpper(password), !HasLower(password), !HasDigit(password);
    assert errors == Pieces(a, b, c, d);
    PiecesReport(a, b, c, d);
    result := PasswordCheck(|errors| == 0, errors);
  }

  /** The message of the first rule a password breaks, in checking order. */
  function FirstFailedRule(password: string): (r: Option<string>)
    ensures r == None <==> Utf16Length(password) >= 8 && HasUpper(password) && HasLower(password) && HasDigit(password)
    ensures Utf16Length(password) < 8 ==> r == Some(LengthMessage)
  {
    if Utf16Length(password) < 8 then Some(LengthMessage)
    else if !HasUpper(password) then Some(UppercaseMessage)
    else if !HasLower(password) then Some(LowercaseMessage)
    else if !HasDigit(password) then Some(DigitMessage)
    else None
  }

  /** What `validatePassword` promises pins down its first message: it is the
      message of the first broken rule, and there is none exactly when the
      password is valid. */
  lemma FirstErrorIsFirstFailedRule(password: string, result: PasswordCheck)
    requires result.isValid <==> result.errors == []
    requires LengthMessage in result.errors <==> Utf16Length(password) < 8
    requires UppercaseMessage in result.errors <==> !HasUpper(password)
    requires LowercaseMessage in result.errors <==> !HasLower(password)
    requires DigitMessage in result.errors <==> !HasDigit(password)
    requires InRuleOrder(result.errors)
    ensures result.isValid <==> FirstFailedRule(password) == None
    ensures !result.isValid ==> Some(result.errors[0]) == FirstFailedRule(password)
  {
    var a: bool, b: bool, c: bool, d: bool :| result.errors == Pieces(a, b, c, d);
    PiecesReport(a, b, c, d);
    assert a == (Utf16Length(password) < 8) && b == !HasUpper(password);
    assert c == !HasLower(password) && d == !HasDigit(password);
  }

  // ---------------------------------------------------------------------
  // doPasswordsMatch
  // ---------------------------------------------------------------------

  /** `password === confirmPassword` */
  function DoPasswordsMatch(password: string, confirmPassword: string): (r: bool)
    ensures r <==> password == confirmPassword
  {
    password == confirmPassword
  }

  lemma PasswordsMatchIsEquivalence(a: string, b: string, c: string)
    ensures DoPasswordsMatch(a, a)
    ensures DoPasswordsMatch(a, b) == DoPasswordsMatch(b, a)
    ensures DoPasswordsMatch(a, b) && DoPasswordsMatch(b, c) ==> DoPasswordsMatch(a, c)
  {
  }

  // ---------------------------------------------------------------------
  // validateName
  // ---------------------------------------------------------------------

  const NameTooShort: string := "Name must be at least 2 characters long"
  const NameTooLong: string := "Name must be less than 50 characters"

  /** `{ isValid, error }`, where a `null` error is `None`. */
  datatype NameCheck = NameCheck(isValid: bool, error: Option<string>)

  /** `validateName`: the trimmed name must be 2 to 50 UTF-16 code units long. */
  function ValidateName(name: string): (r: NameCheck)
    ensures r.isValid <==> 2 <= Utf16Length(Trim(name)) <= 50
    ensures r.isValid <==> r.error == None
    ensures Utf16Length(Trim(name)) < 2 ==> r.error == Some(NameTooShort)
    ensures Utf16Length(Trim(name)) > 50 ==> r.error == Some(NameTooLong)
  {
    var trimmedName := Trim(name);
    if Utf16Length(trimmedName) < 2 then NameCheck(false, Some(NameTooShort))
    else if Utf16Length(trimmedName) > 50 then NameCheck(false, Some(NameTooLong))
    else NameCheck(true, None)
  }

  /** Lengths are `.length`: a single character outside the Basic
      Multilingual Plane is a long enough name. */
  lemma AstralCharacterIsLongEnoughName()
    ensures ValidateName("\U{1F600}").isValid
  {
    var name := "\U{1F600}";
    assert !IsJsSpace(name[0]);
    TrimFixed(name);
    AstralCountsTwice();
  }

  /** Three characters outside the Basic Multilingual Plane after "Aa1" make
      a password of six characters but nine code units, which passes every
      rule. */
  lemma AstralCharactersFillPassword()
    ensures FirstFailedRule("Aa1\U{1F600}\U{1F600}\U{1F600}") == None
  {
    var p := "Aa1\U{1F600}\U{1F600}\U{1F600}";
    assert p[6..] == [] && p[5..][1..] == p[6..] && p[4..][1..] == p[5..] && p[3..][1..] == p[4..];
    assert Utf16Length(p[5..]) == 2 && Utf16Length(p[4..]) == 4 && Utf16Length(p[3..]) == 6;
    assert p[2..][1..] == p[3..] && p[1..][1..] == p[2..] && p[0..][1..] == p[1..];
    assert Utf16Length(p) == 9;
    assert IsAsciiUpper(p[0]) && IsAsciiLower(p[1]) && IsAsciiDigit(p[2]);
  }

  /** White space around a name never changes its verdict. */
  lemma NameIgnoresPadding(before: string, name: string, after: string)
    requires AllSpace(before) && AllSpace(after)
    ensures ValidateName(before + name + after) == ValidateName(name)
    ensures ValidateName(Trim(name)) == ValidateName(name)
  {
    TrimIgnoresPadding(before, name, after);
    TrimIdempotent(name);
  }
}
