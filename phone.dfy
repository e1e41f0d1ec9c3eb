/**
 * The destination check of the send endpoint: `preg_match` with the
 * pattern `^\+?[1-9]\d{1,14}$` (no modifiers).
 *
 * Without the `u` modifier `\d` is an ASCII digit. Without the `D`
 * modifier `$` matches at the end of the subject and also just before a
 * newline that is the subject's last character, so one trailing "\n" is
 * accepted (and then forwarded to the vendor as part of the number).
 */
module PhoneFormat {

  predicate IsAsciiDigit(c: char) {
    '0' <= c <= '9'
  }

  /** `[1-9]\d{1,14}`: two to fifteen digits, the first not zero. */
  predicate IsSubscriberNumber(d: string) {
    && 2 <= |d| <= 15
    && '1' <= d[0] <= '9'
    && forall k :: 1 <= k < |d| ==> IsAsciiDigit(d[k])
  }

  /** `\+?[1-9]\d{1,14}` matching the whole of `t`. */
  predicate IsPhoneBody(t: string) {
    || IsSubscriberNumber(t)
    || (|t| > 0 && t[0] == '+' && IsSubscriberNumber(t[1..]))
  }

  /** The pattern anchored by `^` and a PCRE `$` that tolerates one final "\n". */
  predicate PhoneMatches(s: string) {
    || IsPhoneBody(s)
    || (|s| > 0 && s[|s| - 1] == '\n' && IsPhoneBody(s[..|s| - 1]))
  }

  /**
   * The subjects the pattern describes, read as a concatenation of its
   * three parts: an optional "+", the digits, and the newline `$` lets in.
   */
  function Assemble(plus: bool, digits: string, newline: bool): string {
    (if plus then "+" else "") + digits + (if newline then "\n" else "")
  }

  ghost predicate InPatternLanguage(s: string) {
    exists plus: bool, digits: string, newline: bool ::
      IsSubscriberNumber(digits) && s == Assemble(plus, digits, newline)
  }

  /** The character-level predicate is exactly the pattern's language. */
  lemma PhoneMatchesIffPattern(s: string)
    ensures PhoneMatches(s) <==> InPatternLanguage(s)
  {
    if PhoneMatches(s) {
      var t, newline := if IsPhoneBody(s) then s else s[..|s| - 1], !IsPhoneBody(s);
      assert s == t + (if newline then "\n" else "");
      if IsSubscriberNumber(t) {
        assert t == Assemble(false, t, false);
        assert s == Assemble(false, t, newline);
      } else {
        assert t == "+" + t[1..];
        assert s == Assemble(true, t[1..], newline);
      }
    }
    if InPatternLanguage(s) {
      var plus, digits, newline :| IsSubscriberNumber(digits) && s == Assemble(plus, digits, newline);
      var t := (if plus then "+" else "") + digits;
      assert s == t + (if newline then "\n" else "");
      if plus {
        assert t[0] == '+' && t[1..] == digits;
      } else {
        assert t == digits;
      }
      assert IsPhoneBody(t);
      if newline {
        assert s[|s| - 1] == '\n' && s[..|s| - 1] == t;
      } else {
        assert s == t;
      }
    }
  }

  /** A phone body never ends in "\n", so at most one newline is stripped. */
  lemma PhoneBodyEndsInDigit(t: string)
    ensures IsPhoneBody(t) ==> |t| >= 2 && IsAsciiDigit(t[|t| - 1])
  {
    if IsPhoneBody(t) && !IsSubscriberNumber(t) {
      assert t[|t| - 1] == t[1..][|t| - 2];
    }
  }

  /** With the start index of the digits chosen, the body is a plain scan. */
  lemma PhoneBodyAt(t: string, start: nat)
    requires start == if 0 < |t| && t[0] == '+' then 1 else 0
    ensures IsPhoneBody(t) <==> start < |t| && IsSubscriberNumber(t[start..])
  {
    if start == 1 {
      assert !IsSubscriberNumber(t);
    } else {
      assert t[start..] == t;
    }
  }

  /** The loop-based checker: one pass over the characters, as a matcher would. */
  method CheckPhone(s: string) returns (ok: bool)
    ensures ok == PhoneMatches(s)
  {
    var n := |s|;
    if n > 0 && s[n - 1] == '\n' {
      n := n - 1;
    }
    ghost var t := s[..n];
    assert PhoneMatches(s) == IsPhoneBody(t) by {
      PhoneBodyEndsInDigit(s);
      if n == |s| {
        assert t == s;
      } else {
        assert !IsPhoneBody(s);
      }
    }
    var start := if 0 < n && s[0] == '+' then 1 else 0;
    PhoneBodyAt(t, start);
    if start >= n || !('1' <= s[start] <= '9') {
      assert start < |t| ==> t[start..][0] == s[start];
      return false;
    }
    var i := start + 1;
    while i < n
      invariant start < i <= n
      invariant forall k :: start < k < i ==> IsAsciiDigit(s[k])
    {
      if !IsAsciiDigit(s[i]) {
        assert t[start..][i - start] == s[i];
        return false;
      }
      i := i + 1;
    }
    ok := 2 <= n - start <= 15;
    assert t[start..] == s[start..n];
  }

  /** Subjects the pattern accepts, at its edges. */
  lemma PatternAccepts()
    ensures PhoneMatches("+1234567890") && PhoneMatches("1234567890")
    ensures PhoneMatches("+12") && PhoneMatches("123456789012345")
    ensures PhoneMatches("+1234567890\n")
  {
    var nl := "+1234567890\n";
    assert nl[..|nl| - 1] == "+1234567890";
    assert "+1234567890"[1..] == "1234567890";
    assert "+12"[1..] == "12";
  }

  /** Subjects the pattern rejects, at its edges. */
  lemma PatternRejects()
    ensures !PhoneMatches("not-a-number") && !PhoneMatches("+1") && !PhoneMatches("0123")
    ensures !PhoneMatches("1234567890123456") && !PhoneMatches("++12") && !PhoneMatches("")
    ensures !PhoneMatches("+1234567890\n\n") && !PhoneMatches("\n+12")
  {
    var twice := "+1234567890\n\n";
    assert twice[..|twice| - 1] == "+1234567890\n";
    PhoneBodyEndsInDigit(twice);
    PhoneBodyEndsInDigit("+1234567890\n");
    var lead := "\n+12";
    assert lead[0] == '\n' && lead[|lead| - 1] == '2';
  }
}
