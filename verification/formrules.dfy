/** The validation rules of the kick-off form: the goal pattern `^[1-9][0-9]*$` and the
    pattern shared by the project name and the description,
    `^(?=.*[a-zA-Z])[a-zA-Z\d]+(?:-[a-zA-Z\d]+)*(?:\s[a-zA-Z\d]+(?:-[a-zA-Z\d]+)*)*$`,
    each together with the form's `required` rule. */
module FormRules {
  import opened Decimal

  predicate IsAsciiLetter(c: char) { 'a' <= c <= 'z' || 'A' <= c <= 'Z' }

  /** The class `[a-zA-Z\d]` (`\d` is the ASCII digits 0-9). */
  predicate IsAsciiAlnum(c: char) { IsAsciiLetter(c) || IsDigit(c) }

  predicate IsHyphen(c: char) { c == '-' }

  /** The class `\s` of JavaScript regular expressions: the ECMAScript white space and
      line terminator characters. */
  predicate IsJsWhitespace(c: char)
  {
    var k := c as int;
    (9 <= k <= 13) || k == 32 || k == 0xA0 || k == 0x1680 || (0x2000 <= k <= 0x200A)
    || k == 0x2028 || k == 0x2029 || k == 0x202F || k == 0x205F || k == 0x3000 || k == 0xFEFF
  }

  /** The characters `.` does not match: the ECMAScript line terminators. */
  predicate IsLineTerminator(c: char)
  {
    var k := c as int;
    k == 10 || k == 13 || k == 0x2028 || k == 0x2029
  }

  /** The form's `required: true` on a text input: the empty string is missing. */
  predicate Required(s: string) { s != "" }

  // ---------------------------------------------------------------- goal

  /** `^[1-9][0-9]*$` */
  predicate GoalPattern(s: string)
  {
    |s| >= 1 && '1' <= s[0] <= '9' && forall i :: 1 <= i < |s| ==> '0' <= s[i] <= '9'
  }

  /** The goal field's rule: required and matching `^[1-9][0-9]*$`. An accepted goal is a
      digit string denoting a positive number. */
  predicate GoalValid(s: string)
    ensures GoalValid(s) ==> AllDigits(s) && ParseDecimal(s) >= 1
  {
    if Required(s) && GoalPattern(s) then
      assert s[0] != '0' && IsDigit(s[0]);
      ParseDecimalPositive(s);
      true
    else
      false
  }

  /** The goal field accepts exactly the decimal renderings of positive integers: no sign,
      no leading zero, no other character. */
  lemma GoalAcceptsPositiveNumerals(s: string)
    ensures GoalValid(s) <==>
            |s| >= 1 && AllDigits(s) && ParseDecimal(s) >= 1 && DecimalString(ParseDecimal(s)) == s
  {
    if GoalValid(s) {
      assert s[0] != '0';
      ParseDecimalPositive(s);
      DecimalStringOfParse(s);
    }
    if |s| >= 1 && AllDigits(s) && ParseDecimal(s) >= 1 && DecimalString(ParseDecimal(s)) == s {
      RenderedIsGoal(ParseDecimal(s));
    }
  }

  /** The decimal rendering of a positive integer has the goal pattern. */
  lemma RenderedIsGoal(n: nat)
    requires n >= 1
    ensures GoalValid(DecimalString(n))
  {
    var s := DecimalString(n);
    assert s[0] != '0' && IsDigit(s[0]);
  }

  // ------------------------------------------------------- name and about

  /** The index of the first character satisfying `p`, or `|s|` when there is none. */
  function FirstWhere(s: string, p: char -> bool): (i: nat)
    ensures i <= |s|
    ensures forall k :: 0 <= k < i ==> !p(s[k])
    ensures i < |s| ==> p(s[i])
    decreases |s|
  {
    if s == [] then 0 else if p(s[0]) then 0 else 1 + FirstWhere(s[1..], p)
  }

  /** `[a-zA-Z\d]+` */
  predicate IsRun(r: string)
  {
    |r| >= 1 && forall i :: 0 <= i < |r| ==> IsAsciiAlnum(r[i])
  }

  /** `[a-zA-Z\d]+(?:-[a-zA-Z\d]+)*`: a run, then any number of hyphen-run pairs.
      Runs hold no hyphen, so the first hyphen ends the first run. */
  predicate IsWord(w: string)
    decreases |w|
  {
    var i := FirstWhere(w, IsHyphen);
    IsRun(w[..i]) && (i < |w| ==> IsWord(w[i + 1..]))
  }

  /** `W(?:\sW)*` where `W` is a word: words separated by one white-space character each.
      Words hold no white space, so the first white-space character ends the first word. */
  predicate IsPhrase(s: string)
    decreases |s|
  {
    var j := FirstWhere(s, IsJsWhitespace);
    IsWord(s[..j]) && (j < |s| ==> IsPhrase(s[j + 1..]))
  }

  /** The look-ahead `(?=.*[a-zA-Z])`: a letter occurs before the first line terminator. */
  predicate LetterAhead(s: string)
    decreases |s|
  {
    |s| >= 1 && !IsLineTerminator(s[0]) && (IsAsciiLetter(s[0]) || LetterAhead(s[1..]))
  }

  predicate NamePattern(s: string) { LetterAhead(s) && IsPhrase(s) }

  /** The rule of the project-name field and of the about field. Accepted text has the
      phrase shape and contains a letter. */
  predicate TextFieldValid(s: string)
    ensures TextFieldValid(s) ==> PhraseShape(s) && HasLetter(s)
  {
    PhraseIsShape(s);
    LetterAheadMeansLetter(s);
    Required(s) && NamePattern(s)
  }

  // ------------------------------------------- the same shapes, character by character

  /** A hyphenated word as a character condition: alphanumerics and hyphens, starting and
      ending with an alphanumeric, with no two non-alphanumerics side by side. */
  predicate WordShape(w: string)
  {
    && |w| >= 1 && IsAsciiAlnum(w[0]) && IsAsciiAlnum(w[|w| - 1])
    && (forall i :: 0 <= i < |w| ==> IsAsciiAlnum(w[i]) || IsHyphen(w[i]))
    && (forall i :: 0 <= i < |w| - 1 ==> IsAsciiAlnum(w[i]) || IsAsciiAlnum(w[i + 1]))
  }

  /** A phrase as a character condition: alphanumerics, hyphens and white space, starting and
      ending with an alphanumeric, no two separators side by side. */
  predicate PhraseShape(s: string)
  {
    && |s| >= 1 && IsAsciiAlnum(s[0]) && IsAsciiAlnum(s[|s| - 1])
    && (forall i :: 0 <= i < |s| ==> IsAsciiAlnum(s[i]) || IsHyphen(s[i]) || IsJsWhitespace(s[i]))
    && (forall i :: 0 <= i < |s| - 1 ==> IsAsciiAlnum(s[i]) || IsAsciiAlnum(s[i + 1]))
  }

  predicate HasLetter(s: string) { exists i :: 0 <= i < |s| && IsAsciiLetter(s[i]) }

  predicate NoLineTerminator(s: string) { forall i :: 0 <= i < |s| ==> !IsLineTerminator(s[i]) }

  /** The word part of the pattern matches exactly the words described character by character. */
  lemma {:induction false} WordIsShape(w: string)
    ensures IsWord(w) <==> WordShape(w)
    decreases |w|
  {
    var i := FirstWhere(w, IsHyphen);
    if i < |w| {
      var t := w[i + 1..];
      WordIsShape(t);
      if IsWord(w) {
        JoinedWordShape(w, i);
      }
      if WordShape(w) {
        WordSplitShape(w, i);
      }
    } else {
      assert w[..i] == w;
      if WordShape(w) {
        forall k | 0 <= k < |w| ensures IsAsciiAlnum(w[k]) {
          assert !IsHyphen(w[k]);
        }
      }
    }
  }

  /** A run, one hyphen and a word make a word. */
  lemma JoinedWordShape(w: string, i: nat)
    requires i < |w| && IsHyphen(w[i])
    requires IsRun(w[..i]) && WordShape(w[i + 1..])
    ensures WordShape(w)
  {
    var t := w[i + 1..];
    assert w[|w| - 1] == t[|t| - 1];
    forall k | 0 <= k < |w| ensures IsAsciiAlnum(w[k]) || IsHyphen(w[k]) {
      if k < i { assert w[k] == w[..i][k]; }
      else if k > i { assert w[k] == t[k - i - 1]; }
    }
    forall k | 0 <= k < |w| - 1 ensures IsAsciiAlnum(w[k]) || IsAsciiAlnum(w[k + 1]) {
      if k < i { assert w[k] == w[..i][k]; }
      else if k == i { assert w[k + 1] == t[0]; }
      else { assert w[k] == t[k - i - 1] && w[k + 1] == t[k - i]; }
    }
    assert w[0] == w[..i][0];
  }

  /** In a word, the text before the first hyphen is a run and the text after it a word. */
  lemma WordSplitShape(w: string, i: nat)
    requires WordShape(w) && i == FirstWhere(w, IsHyphen) && i < |w|
    ensures IsRun(w[..i]) && WordShape(w[i + 1..])
  {
    assert i != 0 && i != |w| - 1;
    forall k | 0 <= k < i ensures IsAsciiAlnum(w[..i][k]) {
      assert w[..i][k] == w[k];
    }
    var t := w[i + 1..];
    assert t[0] == w[i + 1];
    assert t[|t| - 1] == w[|w| - 1];
    forall k | 0 <= k < |t| ensures IsAsciiAlnum(t[k]) || IsHyphen(t[k]) {
      assert t[k] == w[k + i + 1];
    }
    forall k | 0 <= k < |t| - 1 ensures IsAsciiAlnum(t[k]) || IsAsciiAlnum(t[k + 1]) {
      assert t[k] == w[k + i + 1] && t[k + 1] == w[k + i + 2];
    }
  }

  /** The whole pattern after its look-ahead matches exactly the phrases described character
      by character. */
  lemma {:induction false} PhraseIsShape(s: string)
    ensures IsPhrase(s) <==> PhraseShape(s)
    decreases |s|
  {
    var j := FirstWhere(s, IsJsWhitespace);
    var w := s[..j];
    WordIsShape(w);
    if j < |s| {
      var t := s[j + 1..];
      PhraseIsShape(t);
      if IsPhrase(s) {
        JoinedPhraseShape(s, j);
      }
      if PhraseShape(s) {
        WordPrefixShape(s, j);
        PhraseSuffixShape(s, j);
      }
    } else {
      assert w == s;
      if PhraseShape(s) {
        WordPrefixShape(s, j);
      }
    }
  }

  /** A word, one white-space character and a phrase make a phrase. */
  lemma JoinedPhraseShape(s: string, j: nat)
    requires j < |s| && IsJsWhitespace(s[j])
    requires WordShape(s[..j]) && PhraseShape(s[j + 1..])
    ensures PhraseShape(s)
  {
    var w, t := s[..j], s[j + 1..];
    assert s[|s| - 1] == t[|t| - 1];
    assert s[0] == w[0];
    forall k | 0 <= k < |s| ensures IsAsciiAlnum(s[k]) || IsHyphen(s[k]) || IsJsWhitespace(s[k]) {
      if k < j { assert s[k] == w[k]; }
      else if k > j { assert s[k] == t[k - j - 1]; }
    }
    forall k | 0 <= k < |s| - 1 ensures IsAsciiAlnum(s[k]) || IsAsciiAlnum(s[k + 1]) {
      if k < j - 1 { assert s[k] == w[k] && s[k + 1] == w[k + 1]; }
      else if k == j - 1 { assert s[k] == w[|w| - 1]; }
      else if k == j { assert s[k + 1] == t[0]; }
      else { assert s[k] == t[k - j - 1] && s[k + 1] == t[k - j]; }
    }
  }

  /** In a phrase, the text after the first white-space character is a phrase. */
  lemma PhraseSuffixShape(s: string, j: nat)
    requires PhraseShape(s) && j == FirstWhere(s, IsJsWhitespace) && j < |s|
    ensures PhraseShape(s[j + 1..])
  {
    assert j != 0 && j != |s| - 1;
    var t := s[j + 1..];
    assert t[0] == s[j + 1];
    assert t[|t| - 1] == s[|s| - 1];
    forall k | 0 <= k < |t| ensures IsAsciiAlnum(t[k]) || IsHyphen(t[k]) || IsJsWhitespace(t[k]) {
      assert t[k] == s[k + j + 1];
    }
    forall k | 0 <= k < |t| - 1 ensures IsAsciiAlnum(t[k]) || IsAsciiAlnum(t[k + 1]) {
      assert t[k] == s[k + j + 1] && t[k + 1] == s[k + j + 2];
    }
  }

  /** In a phrase, the text before the first white-space character is a word. */
  lemma WordPrefixShape(s: string, j: nat)
    requires PhraseShape(s) && j == FirstWhere(s, IsJsWhitespace)
    ensures WordShape(s[..j])
  {
    assert j >= 1;
    var w := s[..j];
    forall k | 0 <= k < j ensures IsAsciiAlnum(w[k]) || IsHyphen(w[k]) {
      assert w[k] == s[k];
    }
    forall k | 0 <= k < j - 1 ensures IsAsciiAlnum(w[k]) || IsAsciiAlnum(w[k + 1]) {
      assert w[k] == s[k] && w[k + 1] == s[k + 1];
    }
    assert w[0] == s[0];
    assert w[j - 1] == s[j - 1];
  }

  /** The look-ahead finds a letter; on text without line terminators it asks exactly that
      the text contain a letter. */
  lemma {:induction false} LetterAheadMeansLetter(s: string)
    ensures LetterAhead(s) ==> HasLetter(s)
    ensures NoLineTerminator(s) ==> (LetterAhead(s) <==> HasLetter(s))
    decreases |s|
  {
    if |s| >= 1 {
      var t := s[1..];
      LetterAheadMeansLetter(t);
      if LetterAhead(t) {
        var i :| 0 <= i < |t| && IsAsciiLetter(t[i]);
        assert s[i + 1] == t[i];
      }
      if NoLineTerminator(s) {
        assert NoLineTerminator(t) by {
          forall k | 0 <= k < |t| ensures !IsLineTerminator(t[k]) { assert t[k] == s[k + 1]; }
        }
        if HasLetter(s) && !IsAsciiLetter(s[0]) {
          var i :| 0 <= i < |s| && IsAsciiLetter(s[i]);
          assert t[i - 1] == s[i];
        }
      }
    }
  }

  /** The project-name and about rule, character by character: text with at least one
      letter ahead of any line break, made of alphanumeric runs joined by single hyphens or
      single white-space characters, with no separator at either end. */
  lemma TextFieldRule(s: string)
    ensures TextFieldValid(s) <==> PhraseShape(s) && LetterAhead(s)
    ensures TextFieldValid(s) ==> HasLetter(s)
    ensures NoLineTerminator(s) ==> (TextFieldValid(s) <==> PhraseShape(s) && HasLetter(s))
  {
    PhraseIsShape(s);
    LetterAheadMeansLetter(s);
  }

  /** `.` does not cross a line break, so a letter after the first line break does not
      satisfy the look-ahead. A single-line input drops LF and CR from its value, but not the
      line separator U+2028, which `\s` also allows between words: "123<U+2028>abc" is
      rejected. */
  lemma LetterAfterLineBreakRejected()
    ensures PhraseShape("123\U{2028}abc") && HasLetter("123\U{2028}abc")
            && !TextFieldValid("123\U{2028}abc")
  {
    var s := "123\U{2028}abc";
    assert IsAsciiLetter(s[4]);
    assert !LetterAhead(s[3..]);
    assert !LetterAhead(s[2..]);
    assert !LetterAhead(s[1..]);
  }
}
