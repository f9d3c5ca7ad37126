/**
 * The checkout form as `validateForm` in js/payment.js sees it: JavaScript's
 * `String.prototype.trim`, the e-mail pattern `^[^\s@]+@[^\s@]+\.[^\s@]+$`,
 * and the validator itself. The form is a map from an input's element id to
 * its current value; an id that is not in the map has no element on the page.
 */
module Form {
  import opened Wrappers
  import opened Sequences

  /** The characters JavaScript's `\s` and `trim` treat as white space. */
  predicate IsWhitespace(c: char)
  {
    c == ' ' || c == '\t' || c == '\n' || c == '\U{B}' || c == '\U{C}' || c == '\r'
    || c == '\U{A0}' || c == '\U{1680}' || ('\U{2000}' <= c <= '\U{200A}')
    || c == '\U{2028}' || c == '\U{2029}' || c == '\U{202F}' || c == '\U{205F}'
    || c == '\U{3000}' || c == '\U{FEFF}'
  }

  /** Every character of `s` is white space (vacuously so for the empty string). */
  predicate AllBlank(s: string)
  {
    forall k :: 0 <= k < |s| ==> IsWhitespace(s[k])
  }

  /** `s.trimStart()`: the longest suffix of `s` that does not start with white space. */
  function TrimStart(s: string): (r: string)
    ensures |r| <= |s| && r == s[|s| - |r|..]
    ensures AllBlank(s[..|s| - |r|])
    ensures r == [] || !IsWhitespace(r[0])
  {
    if s != [] && IsWhitespace(s[0]) then
      var r := TrimStart(s[1..]);
      assert forall k :: 1 <= k < |s| - |r| ==> s[k] == s[1..][..|s| - 1 - |r|][k - 1];
      r
    else s
  }

  /** `s.trimEnd()`: the longest prefix of `s` that does not end with white space. */
  function TrimEnd(s: string): (r: string)
    ensures |r| <= |s| && r == s[..|r|]
    ensures AllBlank(s[|r|..])
    ensures r == [] || !IsWhitespace(r[|r| - 1])
  {
    if s != [] && IsWhitespace(s[|s| - 1]) then
      var r := TrimEnd(s[..|s| - 1]);
      assert forall k :: |r| <= k < |s| - 1 ==> s[k] == s[..|s| - 1][|r|..][k - |r|];
      r
    else s
  }

  /** `s.trim()`. */
  function Trim(s: string): string
  {
    TrimEnd(TrimStart(s))
  }

  /** A value is empty after trimming exactly when it is all white space. */
  lemma TrimEmptyIffBlank(s: string)
    ensures Trim(s) == [] <==> AllBlank(s)
  {
    var t := TrimStart(s);
    if Trim(s) == [] {
      assert AllBlank(t[0..]);
      assert t == [];
      assert s == s[..|s|];
    }
  }

  /** The trimmed value is a slice of the original with only white space cut off. */
  lemma TrimIsSlice(s: string)
    ensures exists a, b :: 0 <= a <= b <= |s| && Trim(s) == s[a..b] && AllBlank(s[..a]) && AllBlank(s[b..])
  {
    var t := TrimStart(s);
    var r := TrimEnd(t);
    var a := |s| - |t|;
    var b := a + |r|;
    assert r == s[a..b];
    assert s[b..] == t[|r|..];
  }

  /** `[^\s@]+`: one or more characters, none of them white space or `@`. */
  predicate Run(t: string)
  {
    |t| > 0 && forall k :: 0 <= k < |t| ==> !IsWhitespace(t[k]) && t[k] != '@'
  }

  /**
   * The regular expression `^[^\s@]+@[^\s@]+\.[^\s@]+$`, read literally:
   * the whole string splits into a run, an `@`, a run, a `.` and a run.
   */
  ghost predicate EmailPattern(s: string)
  {
    exists i, j :: 0 <= i < j < |s| && s[i] == '@' && s[j] == '.'
      && Run(s[..i]) && Run(s[i + 1..j]) && Run(s[j + 1..])
  }

  /**
   * A deterministic decision of the e-mail pattern: the part before the
   * first `@` is a run, and the rest is free of white space and `@` and
   * has a `.` that is neither its first nor its last character.
   */
  predicate MatchesEmail(s: string)
  {
    var at := IndexOf(s, '@');
    at < |s| && Run(s[..at]) && DomainOk(s[at + 1..])
  }

  predicate DomainOk(d: string)
  {
    |d| >= 3 && Run(d) && '.' in d[1..|d| - 1]
  }

  /** Every string the deterministic decision accepts matches the regular expression. */
  lemma MatchesEmailSound(s: string)
    requires MatchesEmail(s)
    ensures EmailPattern(s)
  {
    var at := IndexOf(s, '@');
    var d := s[at + 1..];
    var m :| 0 <= m < |d| - 2 && d[1..|d| - 1][m] == '.';
    var j := at + 2 + m;
    assert s[j] == d[m + 1] == '.';
    assert s[at + 1..j] == d[..m + 1];
    assert s[j + 1..] == d[m + 2..];
    assert Run(s[at + 1..j]);
    assert Run(s[j + 1..]);
  }

  /** Two runs around a `.` make a string free of white space and `@`. */
  lemma RunAroundDot(a: string, b: string)
    requires Run(a) && Run(b)
    ensures Run(a + "." + b)
  {
    var t := a + "." + b;
    forall k | 0 <= k < |t| ensures !IsWhitespace(t[k]) && t[k] != '@' {
      if k < |a| {
        assert t[k] == a[k];
      } else if k > |a| {
        assert t[k] == b[k - |a| - 1];
      }
    }
  }

  /** The text after the `@` of a match is an acceptable domain. */
  lemma DomainOfPattern(s: string, i: nat, j: nat)
    requires 0 <= i < j < |s| && s[j] == '.'
    requires Run(s[i + 1..j]) && Run(s[j + 1..])
    ensures DomainOk(s[i + 1..])
  {
    var d := s[i + 1..];
    assert d == s[i + 1..j] + "." + s[j + 1..];
    RunAroundDot(s[i + 1..j], s[j + 1..]);
    assert d[1..|d| - 1][j - i - 2] == '.';
  }

  /** Every string the regular expression matches is accepted by the deterministic decision. */
  lemma MatchesEmailComplete(s: string)
    requires EmailPattern(s)
    ensures MatchesEmail(s)
  {
    var i, j :| 0 <= i < j < |s| && s[i] == '@' && s[j] == '.'
      && Run(s[..i]) && Run(s[i + 1..j]) && Run(s[j + 1..]);
    forall k | 0 <= k < i
      ensures s[k] != '@'
    {
      assert s[k] == s[..i][k];
    }
    IndexOfFirst(s, '@', i);
    DomainOfPattern(s, i, j);
  }

  /** The deterministic decision accepts exactly the strings the regular expression matches. */
  lemma MatchesEmailIffPattern(s: string)
    ensures MatchesEmail(s) <==> EmailPattern(s)
  {
    if MatchesEmail(s) {
      MatchesEmailSound(s);
    }
    if EmailPattern(s) {
      MatchesEmailComplete(s);
    }
  }

  /** The ids of the inputs `validateForm` requires, in the order it checks them. */
  const RequiredFields: seq<string> := ["firstName", "lastName", "email", "phone", "address", "city", "postalCode"]

  /**
   * The input exists and is not empty once trimmed, which is to say that it
   * holds something other than white space (TrimEmptyIffBlank).
   */
  predicate Filled(form: map<string, string>, id: string)
  {
    id in form && Trim(form[id]) != ""
  }

  /** `(document.getElementById('email') || {}).value || ''`. */
  function EmailValue(form: map<string, string>): string
  {
    if "email" in form then form["email"] else ""
  }

  /** `!!selectedProvider`: a provider is chosen when it is present and not empty. */
  predicate HasProvider(provider: Option<string>)
  {
    provider.Some? && provider.value != ""
  }

  /** Every input named in `ids` is filled, checked from the last id backwards. */
  predicate AllFilled(form: map<string, string>, ids: seq<string>)
  {
    ids == [] || (AllFilled(form, ids[..|ids| - 1]) && Filled(form, ids[|ids| - 1]))
  }

  /** `AllFilled` says of each id in the list that its input is filled. */
  lemma {:induction false} AllFilledEach(form: map<string, string>, ids: seq<string>)
    ensures AllFilled(form, ids) <==> forall k :: 0 <= k < |ids| ==> Filled(form, ids[k])
  {
    if ids != [] {
      var init := ids[..|ids| - 1];
      AllFilledEach(form, init);
      if forall k :: 0 <= k < |ids| ==> Filled(form, ids[k]) {
        forall k | 0 <= k < |init| ensures Filled(form, init[k]) {
          assert init[k] == ids[k];
        }
      }
      if AllFilled(form, ids) {
        forall k | 0 <= k < |ids| ensures Filled(form, ids[k]) {
          if k < |init| {
            assert init[k] == ids[k];
          }
        }
      }
    }
  }

  /** What `validateForm` accepts. */
  ghost predicate FormValid(form: map<string, string>, payment: string, provider: Option<string>)
  {
    && AllFilled(form, RequiredFields)
    && EmailPattern(EmailValue(form))
    && !(payment == "e-wallet" && !HasProvider(provider))
  }

  /**
   * `validateForm`: every required input is non-blank, the e-mail value
   * matches the pattern, and an e-wallet payment has a provider. Every check
   * runs; a failed one only clears the flag.
   */
  method ValidateForm(form: map<string, string>, payment: string, provider: Option<string>)
    returns (isValid: bool)
    ensures isValid <==> FormValid(form, payment, provider)
  {
    isValid := true;
    for i := 0 to |RequiredFields|
      invariant isValid <==> AllFilled(form, RequiredFields[..i])
    {
      assert RequiredFields[..i + 1][..i] == RequiredFields[..i];
      var id := RequiredFields[i];
      if id !in form || Trim(form[id]) == "" {
        isValid := false;
      }
    }
    assert RequiredFields[..|RequiredFields|] == RequiredFields;
    var email := EmailValue(form);
    if !MatchesEmail(email) {
      isValid := false;
      assert !EmailPattern(email) by {
        if EmailPattern(email) {
          MatchesEmailComplete(email);
        }
      }
    } else {
      MatchesEmailSound(email);
    }
    if payment == "e-wallet" && !HasProvider(provider) {
      isValid := false;
    }
  }
}
