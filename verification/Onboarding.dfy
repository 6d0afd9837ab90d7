/**
 * The onboarding message: the dashboard prints a token into a greeting, with or without a
 * name, and the orchestrator scans it back out of whatever text arrives.
 */
module Onboarding {
  import opened Common

  const ONBOARDING_GREETING := "hey! this is"
  const MIN_TOKEN: nat := 24
  const MIN_BARE_TOKEN: nat := 28

  // ------------------------------------------------------------ characters and runs

  /** The base64url alphabet. */
  predicate IsTokenChar(c: char) {
    'A' <= c <= 'Z' || 'a' <= c <= 'z' || '0' <= c <= '9' || c == '_' || c == '-'
  }

  /** What trim() strips and \s matches. */
  predicate IsSpace(c: char) {
    || c == ' ' || '\U{0009}' <= c <= '\U{000D}' || c == '\U{00A0}' || c == '\U{1680}'
    || '\U{2000}' <= c <= '\U{200A}' || c == '\U{2028}' || c == '\U{2029}' || c == '\U{202F}'
    || c == '\U{205F}' || c == '\U{3000}' || c == '\U{FEFF}'
  }

  ghost predicate IsToken(s: string) {
    |s| >= MIN_TOKEN && forall i :: 0 <= i < |s| ==> IsTokenChar(s[i])
  }

  /** The end of the longest run of such characters from i on. */
  function RunEnd(text: string, i: nat, p: char -> bool): (end: nat)
    requires i <= |text|
    ensures i <= end <= |text|
    ensures forall k :: i <= k < end ==> p(text[k])
    ensures end < |text| ==> !p(text[end])
    decreases |text| - i
  {
    if i < |text| && p(text[i]) then RunEnd(text, i + 1, p) else i
  }

  /** The run is the only stretch that holds such characters throughout and stops at another, or at the end. */
  lemma RunIs(text: string, i: nat, p: char -> bool, end: nat)
    requires i <= end <= |text|
    requires forall k :: i <= k < end ==> p(text[k])
    requires end < |text| ==> !p(text[end])
    ensures RunEnd(text, i, p) == end
  {
  }

  // ------------------------------------------------------------ the printer

  function Trim(s: string): string {
    var start := RunEnd(s, 0, IsSpace);
    TrimEnd(s[start..])
  }

  function TrimEnd(s: string): string {
    if s != "" && IsSpace(s[|s| - 1]) then TrimEnd(s[..|s| - 1]) else s
  }

  function OnboardingBody(token: string, name: Option<string>): string {
    var who := if name.Some? then Trim(name.value) else "";
    if who != "" then ONBOARDING_GREETING + " " + who + " (" + token + ")"
    else ONBOARDING_GREETING + " " + token
  }

  // ------------------------------------------------------------ the scanner

  /** A parenthesised token that starts at i, with the position after it. */
  function ParenAt(text: string, i: nat): Option<(string, nat)>
    requires i < |text|
  {
    if text[i] != '(' then None
    else
      var a := RunEnd(text, i + 1, IsSpace);
      var b := RunEnd(text, a, IsTokenChar);
      var c := RunEnd(text, b, IsSpace);
      if b - a >= MIN_TOKEN && c < |text| && text[c] == ')' then Some((text[a..b], c + 1)) else None
  }

  /** The last one that starts before n. */
  function LastParen(text: string, n: nat): Option<string>
    requires n <= |text|
  {
    if n == 0 then None
    else
      match ParenAt(text, n - 1)
      case Some(found) => Some(found.0)
      case None => LastParen(text, n - 1)
  }

  function Lower(c: char): char {
    if 'A' <= c <= 'Z' then c + 'a' - 'A' else c
  }

  /** "this is", in any case. */
  predicate IsPhrase(s: string) {
    |s| == 7 && forall k :: 0 <= k < 7 ==> Lower(s[k]) == "this is"[k]
  }

  function PhraseAt(text: string, i: nat): Option<string> {
    if i + 7 > |text| || !IsPhrase(text[i..i + 7]) then None
    else
      var a := RunEnd(text, i + 7, IsSpace);
      var b := RunEnd(text, a, IsTokenChar);
      if a > i + 7 && b - a >= MIN_TOKEN then Some(text[a..b]) else None
  }

  function FirstPhrase(text: string, i: nat): Option<string>
    decreases |text| - i
  {
    if i >= |text| then None
    else if PhraseAt(text, i).Some? then PhraseAt(text, i)
    else FirstPhrase(text, i + 1)
  }

  /** The last parenthesised token, or the first after the phrase, or a text that is only a token. */
  function Extracted(text: string): Option<string> {
    var paren := LastParen(text, |text|);
    var phrase := FirstPhrase(text, 0);
    var bare := Trim(text);
    if paren.Some? then paren
    else if phrase.Some? then phrase
    else if |bare| >= MIN_BARE_TOKEN && RunEnd(bare, 0, IsTokenChar) == |bare| then Some(bare)
    else None
  }

  /** A match holds one opening parenthesis only, so skipping over it loses no other match. */
  lemma {:induction false} NothingInsideAMatch(text: string, i: nat, n: nat)
    requires i < |text| && ParenAt(text, i).Some? && i < n <= ParenAt(text, i).value.1 <= |text|
    ensures LastParen(text, n) == Some(ParenAt(text, i).value.0)
  {
    if n > i + 1 {
      assert text[n - 1] != '(';
      NothingInsideAMatch(text, i, n - 1);
    }
  }

  /** The scan as it runs: parenthesised matches left to right, keeping the last one. */
  method ExtractOnboardingToken(text: string) returns (token: Option<string>)
    ensures token == Extracted(text)
  {
    var lastParen: Option<string> := None;
    var i := 0;
    while i < |text|
      invariant i <= |text| && lastParen == LastParen(text, i)
    {
      match ParenAt(text, i)
      case Some(found) =>
        NothingInsideAMatch(text, i, found.1);
        lastParen := Some(found.0);
        i := found.1;
      case None => i := i + 1;
    }
    if lastParen.Some? { return lastParen; }
    i := 0;
    while i < |text|
      invariant i <= |text| && FirstPhrase(text, 0) == FirstPhrase(text, i)
    {
      var phrase := PhraseAt(text, i);
      if phrase.Some? { return phrase; }
      i := i + 1;
    }
    var bare := Trim(text);
    if |bare| >= MIN_BARE_TOKEN && RunEnd(bare, 0, IsTokenChar) == |bare| { return Some(bare); }
    token := None;
  }

  // ------------------------------------------------------------ round trips

  lemma {:induction false} NoParenNoMatch(text: string, from: nat, n: nat)
    requires from <= n <= |text| && forall k :: from <= k < n ==> text[k] != '('
    ensures LastParen(text, n) == LastParen(text, from)
  {
    if from < n { NoParenNoMatch(text, from, n - 1); }
  }

  lemma ParenAtStart(text: string, i: nat, token: string)
    requires IsToken(token) && i + |token| + 1 < |text| && text[i] == '(' && text[i + |token| + 1] == ')'
    requires text[i + 1..i + 1 + |token|] == token
    ensures ParenAt(text, i) == Some((token, i + |token| + 2))
  {
    var a, b := i + 1, i + 1 + |token|;
    assert forall k :: a <= k < b ==> text[k] == token[k - a];
    RunIs(text, a, IsSpace, a);
    RunIs(text, a, IsTokenChar, b);
    RunIs(text, b, IsSpace, b);
  }

  /**
   * A parenthesised token is found whatever stands before it, further parenthesised runs
   * included, and whatever without an opening parenthesis follows it.
   */
  lemma ParenthesisedTokenWins(before: string, token: string, after: string)
    requires IsToken(token) && '(' !in after
    ensures Extracted(before + "(" + token + ")" + after) == Some(token)
  {
    var text := before + "(" + token + ")" + after;
    var i := |before|;
    var a, b := i + 1, i + 1 + |token|;
    assert text[i] == '(' && text[b] == ')';
    assert text[a..b] == token;
    ParenAtStart(text, i, token);
    forall k | a <= k < |text| ensures text[k] != '(' {
      if k > b { assert text[k] == after[k - b - 1]; } else if k < b { assert text[k] == token[k - a]; }
    }
    NoParenNoMatch(text, i + 1, |text|);
  }

  lemma PhraseAtFive(token: string)
    requires IsToken(token)
    ensures PhraseAt(ONBOARDING_GREETING + " " + token, 5) == Some(token)
  {
    var text := ONBOARDING_GREETING + " " + token;
    assert text[5..12] == "this is";
    assert IsPhrase(text[5..12]);
    assert text[12] == ' ';
    assert forall k :: 13 <= k < |text| ==> text[k] == token[k - 13];
    RunIs(text, 12, IsSpace, 13);
    RunIs(text, 13, IsTokenChar, |text|);
    assert text[13..|text|] == token;
  }

  lemma PhraseFound(token: string)
    requires IsToken(token)
    ensures FirstPhrase(ONBOARDING_GREETING + " " + token, 0) == Some(token)
  {
    var text := ONBOARDING_GREETING + " " + token;
    assert text[0] == 'h' && text[1] == 'e' && text[2] == 'y' && text[3] == '!' && text[4] == ' ';
    NotThePhrase(text, 0);
    NotThePhrase(text, 1);
    NotThePhrase(text, 2);
    NotThePhrase(text, 3);
    NotThePhrase(text, 4);
    PhraseAtFive(token);
    assert FirstPhrase(text, 4) == FirstPhrase(text, 5);
    assert FirstPhrase(text, 2) == FirstPhrase(text, 4);
    assert FirstPhrase(text, 0) == FirstPhrase(text, 2);
  }

  lemma NotThePhrase(text: string, i: nat)
    requires i < |text| && Lower(text[i]) != 't'
    ensures PhraseAt(text, i).None?
  {
    if i + 7 <= |text| {
      assert text[i..i + 7][0] == text[i];
      assert "this is"[0] == 't';
    }
  }

  /**
   * The round trip: for every token and every name, also one with parentheses, tokens or
   * the phrase in it, and for no name at all, the printed message yields the token.
   */
  lemma OnboardingRoundTrip(token: string, name: Option<string>)
    requires IsToken(token)
    ensures Extracted(OnboardingBody(token, name)) == Some(token)
  {
    var who := if name.Some? then Trim(name.value) else "";
    if who != "" {
      var before := ONBOARDING_GREETING + " " + who + " ";
      assert before + "(" + token + ")" + "" == OnboardingBody(token, name);
      ParenthesisedTokenWins(before, token, "");
    } else {
      var text := ONBOARDING_GREETING + " " + token;
      forall k | 0 <= k < |text| ensures text[k] != '(' {
        if k >= 13 { assert text[k] == token[k - 13]; } else { assert text[k] == "hey! this is "[k]; }
      }
      NoParenNoMatch(text, 0, |text|);
      PhraseFound(token);
    }
  }

  /** A token sent on its own is recognised exactly from 28 characters on, not from 24. */
  lemma BareTokenExactly(token: string)
    requires IsToken(token)
    ensures Extracted(token) == if |token| >= MIN_BARE_TOKEN then Some(token) else None
  {
    NoParenNoMatch(token, 0, |token|);
    NoPhraseInToken(token, 0);
    RunIs(token, 0, IsSpace, 0);
    RunIs(token, 0, IsTokenChar, |token|);
    assert token[0..] == token;
    assert Trim(token) == token;
  }

  lemma {:induction false} NoPhraseInToken(token: string, i: nat)
    requires IsToken(token)
    ensures FirstPhrase(token, i).None?
    decreases |token| - i
  {
    if i < |token| {
      if i + 7 <= |token| {
        assert token[i..i + 7][4] == token[i + 4];
        assert "this is"[4] == ' ';
      }
      NoPhraseInToken(token, i + 1);
    }
  }

  // ------------------------------------------------------------ other cases and padding

  ghost predicate AllSpaces(s: string) {
    forall i :: 0 <= i < |s| ==> IsSpace(s[i])
  }

  /** The phrase, each letter in either case. */
  ghost predicate SpellsThePhrase(s: string) {
    |s| == 7 && forall k :: 0 <= k < 7 ==> s[k] == "this is"[k] || s[k] == "THIS IS"[k]
  }

  lemma SpelledIsPhrase(s: string)
    requires SpellsThePhrase(s)
    ensures IsPhrase(s)
  {
    forall k | 0 <= k < 7 ensures Lower(s[k]) == "this is"[k] {
      assert Lower("THIS IS"[k]) == "this is"[k];
      assert Lower("this is"[k]) == "this is"[k];
    }
  }

  lemma PhraseAtPlace(text: string, i: nat, gap: nat, token: string)
    requires IsToken(token) && gap > 0 && i + 7 + gap + |token| <= |text|
    requires SpellsThePhrase(text[i..i + 7]) && AllSpaces(text[i + 7..i + 7 + gap])
    requires text[i + 7 + gap..i + 7 + gap + |token|] == token
    requires i + 7 + gap + |token| < |text| ==> !IsTokenChar(text[i + 7 + gap + |token|])
    ensures PhraseAt(text, i) == Some(token)
  {
    var a := i + 7 + gap;
    var b := a + |token|;
    SpelledIsPhrase(text[i..i + 7]);
    assert forall k :: i + 7 <= k < a ==> text[k] == text[i + 7..a][k - i - 7];
    assert forall k :: a <= k < b ==> text[k] == token[k - a];
    RunIs(text, i + 7, IsSpace, a);
    RunIs(text, a, IsTokenChar, b);
  }

  lemma {:induction false} FirstPhraseAt(text: string, from: nat, i: nat)
    requires from <= i < |text| && PhraseAt(text, i).Some?
    requires forall k :: from <= k < i ==> Lower(text[k]) != 't'
    ensures FirstPhrase(text, from) == PhraseAt(text, i)
    decreases i - from
  {
    if from < i {
      NotThePhrase(text, from);
      FirstPhraseAt(text, from + 1, i);
    }
  }

  /**
   * The phrase counts in any letter case, with any blanks behind it: the token after it
   * is found, if no parenthesis is opened and the phrase does not begin earlier.
   */
  lemma PhraseInAnyCase(before: string, phrase: string, blanks: string, token: string, after: string)
    requires IsToken(token) && SpellsThePhrase(phrase) && AllSpaces(blanks) && blanks != ""
    requires 't' !in before && 'T' !in before && '(' !in before + after
    requires after != "" ==> !IsTokenChar(after[0])
    ensures Extracted(before + phrase + blanks + token + after) == Some(token)
  {
    var text := before + phrase + blanks + token + after;
    Pieces(before, phrase, blanks, token, after);
    NoOpeningIn(phrase, blanks, token);
    NoOpening(before, phrase + blanks + token, after);
    assert before + (phrase + blanks + token) + after == text;
    hide Extracted, IsToken, SpellsThePhrase, AllSpaces;
    assert forall k :: 0 <= k < |before| ==> text[k] != 't' && text[k] != 'T';
    PhraseExtracted(text, |before|, |blanks|, token);
  }

  lemma PhraseExtracted(text: string, i: nat, gap: nat, token: string)
    requires IsToken(token) && gap > 0 && i + 7 + gap + |token| <= |text|
    requires SpellsThePhrase(text[i..i + 7]) && AllSpaces(text[i + 7..i + 7 + gap])
    requires text[i + 7 + gap..i + 7 + gap + |token|] == token
    requires i + 7 + gap + |token| < |text| ==> !IsTokenChar(text[i + 7 + gap + |token|])
    requires forall k :: 0 <= k < i ==> text[k] != 't' && text[k] != 'T'
    requires forall k :: 0 <= k < |text| ==> text[k] != '('
    ensures Extracted(text) == Some(token)
  {
    PhraseAtPlace(text, i, gap, token);
    FirstPhraseAt(text, 0, i);
    NoParenNoMatch(text, 0, |text|);
  }

  /** Where the pieces of such a message lie. */
  lemma Pieces(before: string, phrase: string, blanks: string, token: string, after: string)
    requires |phrase| == 7
    ensures
      var text, a := before + phrase + blanks + token + after, |before| + 7 + |blanks|;
      && text[|before|..|before| + 7] == phrase && text[|before| + 7..a] == blanks && text[a..a + |token|] == token
      && (after != "" ==> a + |token| < |text| && text[a + |token|] == after[0])
      && (forall k :: 0 <= k < |before| ==> text[k] == before[k])
      && |text| == a + |token| + |after|
  {
    var text, a := before + phrase + blanks + token + after, |before| + 7 + |blanks|;
    assert text[|before|..|before| + 7] == phrase;
    assert text[|before| + 7..a] == blanks;
    assert text[a..a + |token|] == token;
  }

  lemma NoOpeningIn(phrase: string, blanks: string, token: string)
    requires SpellsThePhrase(phrase) && AllSpaces(blanks) && IsToken(token)
    ensures '(' !in phrase + blanks + token
  {
    forall k | 0 <= k < 7 ensures phrase[k] != '(' { assert "this is"[k] != '(' && "THIS IS"[k] != '('; }
  }

  /** No opening parenthesis comes from phrase, blanks or token. */
  lemma NoOpening(before: string, middle: string, after: string)
    requires '(' !in before + after && '(' !in middle
    ensures forall k :: 0 <= k < |before + middle + after| ==> (before + middle + after)[k] != '('
  {
    forall k | 0 <= k < |before + middle + after| ensures (before + middle + after)[k] != '(' {
      if |before| <= k < |before| + |middle| {
        assert (before + middle + after)[k] == middle[k - |before|];
      } else {
        var j := if k < |before| then k else k - |middle|;
        assert (before + middle + after)[k] == (before + after)[j];
      }
    }
  }

  lemma {:induction false} TrimEndDropsBlanks(s: string, blanks: string)
    requires AllSpaces(blanks) && s != "" && !IsSpace(s[|s| - 1])
    ensures TrimEnd(s + blanks) == s
  {
    if blanks == "" {
      assert s + blanks == s;
    } else {
      assert (s + blanks)[..|s + blanks| - 1] == s + blanks[..|blanks| - 1];
      TrimEndDropsBlanks(s, blanks[..|blanks| - 1]);
    }
  }

  lemma Mismatch(text: string, i: nat, k: nat)
    requires i + 7 <= |text| && k < 7 && Lower(text[i + k]) != "this is"[k]
    ensures !IsPhrase(text[i..i + 7])
  {
    assert text[i..i + 7][k] == text[i + k];
  }

  /** The phrase has a blank between letters, a padded token has not. */
  lemma NotInPadded(left: string, token: string, right: string, i: nat)
    requires IsToken(token) && AllSpaces(left) && AllSpaces(right) && i + 7 <= |left + token + right|
    ensures !IsPhrase((left + token + right)[i..i + 7])
  {
    var text := left + token + right;
    if i < |left| {
      assert text[i] == left[i] && "this is"[0] == 't';
      Mismatch(text, i, 0);
    } else if i + 5 >= |left| + |token| {
      assert text[i + 5] == right[i + 5 - |left| - |token|] && "this is"[5] == 'i';
      Mismatch(text, i, 5);
    } else {
      assert text[i + 4] == token[i + 4 - |left|] && "this is"[4] == ' ';
      Mismatch(text, i, 4);
    }
  }

  lemma {:induction false} NoPhraseInPadded(left: string, token: string, right: string, i: nat)
    requires IsToken(token) && AllSpaces(left) && AllSpaces(right)
    ensures FirstPhrase(left + token + right, i).None?
    decreases |left + token + right| - i
  {
    if i < |left + token + right| {
      if i + 7 <= |left + token + right| { NotInPadded(left, token, right, i); }
      NoPhraseInPadded(left, token, right, i + 1);
    }
  }

  lemma TrimDropsBlanks(left: string, token: string, right: string)
    requires IsToken(token) && AllSpaces(left) && AllSpaces(right)
    ensures Trim(left + token + right) == token
  {
    var text := left + token + right;
    assert text[|left|] == token[0];
    assert forall k :: 0 <= k < |left| ==> text[k] == left[k];
    RunIs(text, 0, IsSpace, |left|);
    assert text[|left|..] == token + right;
    TrimEndDropsBlanks(token, right);
  }

  /** Blanks around a lone token change nothing: it is recognised exactly from 28 characters on. */
  lemma PaddedTokenExactly(left: string, token: string, right: string)
    requires IsToken(token) && AllSpaces(left) && AllSpaces(right)
    ensures Extracted(left + token + right) == if |token| >= MIN_BARE_TOKEN then Some(token) else None
  {
    var text := left + token + right;
    assert '(' !in left + right;
    NoOpening(left, token, right);
    NoParenNoMatch(text, 0, |text|);
    NoPhraseInPadded(left, token, right, 0);
    TrimDropsBlanks(left, token, right);
    RunIs(token, 0, IsTokenChar, |token|);
  }
}
