/**
 * The name sanitiser, `escapeString`: a name that begins with an ASCII digit
 * gets the prefix `digit_`, then every character outside `[A-Za-z0-9_.]`
 * becomes `_`. It is applied to metric names and to tag keys and values.
 */
module Sanitizer {

  /** The literal prepended to names that begin with a digit. */
  const DigitPrefix: string := "digit_"

  /** `[0-9]`, the class of the BEGINS_WITH_DIGITS pattern. */
  predicate IsDigit(c: char) {
    '0' <= c <= '9'
  }

  /** `[a-zA-Z0-9_.]`, the complement of the ILLEGAL_CHARACTERS pattern. */
  predicate IsLegal(c: char) {
    'a' <= c <= 'z' || 'A' <= c <= 'Z' || IsDigit(c) || c == '_' || c == '.'
  }

  /** `^[0-9]` finds a match. */
  predicate StartsWithDigit(s: string) {
    |s| > 0 && IsDigit(s[0])
  }

  /** A name the sanitiser leaves alone: only legal characters and no leading digit. */
  predicate IsCanonical(s: string) {
    (forall i :: 0 <= i < |s| ==> IsLegal(s[i])) && !StartsWithDigit(s)
  }

  /** `replaceAll("[^a-zA-Z0-9_.]", "_")`: each illegal character becomes `_`. */
  function ReplaceIllegal(s: string): (r: string)
    ensures |r| == |s|
    ensures forall i :: 0 <= i < |s| ==> r[i] == (if IsLegal(s[i]) then s[i] else '_')
  {
    seq(|s|, i requires 0 <= i < |s| => if IsLegal(s[i]) then s[i] else '_')
  }

  /** `escapeString`. */
  function Escape(name: string): (r: string)
    ensures forall i :: 0 <= i < |r| ==> IsLegal(r[i])
    ensures !StartsWithDigit(r)
    ensures |r| == |name| + (if StartsWithDigit(name) then |DigitPrefix| else 0)
    ensures StartsWithDigit(name) ==> r[..|DigitPrefix|] == DigitPrefix
    ensures |r| == 0 <==> |name| == 0
  {
    var prefixed := if StartsWithDigit(name) then DigitPrefix + name else name;
    var r := ReplaceIllegal(prefixed);
    assert StartsWithDigit(name) ==> r[..|DigitPrefix|] == DigitPrefix by {
      if StartsWithDigit(name) {
        assert forall i :: 0 <= i < |DigitPrefix| ==> prefixed[i] == DigitPrefix[i];
      }
    }
    r
  }

  /**
   * Character by character, the name ends the output: each legal character
   * is kept where it was and each illegal one is replaced by `_`.
   */
  lemma EscapeCharacters(name: string)
    ensures var r := Escape(name);
      forall i :: 0 <= i < |name| ==> r[|r| - |name| + i] == (if IsLegal(name[i]) then name[i] else '_')
  {
    if StartsWithDigit(name) {
      var prefixed := DigitPrefix + name;
      var r := ReplaceIllegal(prefixed);
      assert Escape(name) == r;
      forall i | 0 <= i < |name|
        ensures r[|DigitPrefix| + i] == (if IsLegal(name[i]) then name[i] else '_')
      {
        assert prefixed[|DigitPrefix| + i] == name[i];
      }
    } else {
      assert Escape(name) == ReplaceIllegal(name);
    }
  }

  /** The sanitiser changes a name exactly when the name is not already canonical. */
  lemma EscapeFixedPoint(name: string)
    ensures Escape(name) == name <==> IsCanonical(name)
  {
    if IsCanonical(name) {
      assert ReplaceIllegal(name) == name;
    }
  }

  /** Every output is canonical. */
  lemma EscapeIsCanonical(name: string)
    ensures IsCanonical(Escape(name))
  {
  }

  /** Sanitising twice is sanitising once. */
  lemma EscapeIdempotent(name: string)
    ensures Escape(Escape(name)) == Escape(name)
  {
    EscapeFixedPoint(Escape(name));
  }

  /** A name of legal characters that begins with a digit only gains the prefix. */
  lemma EscapeDigitLed(name: string)
    requires StartsWithDigit(name)
    requires forall i :: 0 <= i < |name| ==> IsLegal(name[i])
    ensures Escape(name) == DigitPrefix + name
  {
    var prefixed := DigitPrefix + name;
    assert forall i :: 0 <= i < |prefixed| ==> IsLegal(prefixed[i]);
    assert ReplaceIllegal(prefixed) == prefixed;
  }

  /** `1abc` becomes `digit_1abc`. */
  lemma DigitNameExample(name: string)
    requires name == "1abc"
    ensures Escape(name) == "digit_1abc"
  {
    DigitNameLegal(name);
    EscapeDigitLed(name);
    DigitNamePrefixed(name);
  }

  /** `1abc` starts with a digit and has only legal characters. */
  lemma DigitNameLegal(name: string)
    requires name == "1abc"
    ensures StartsWithDigit(name) && forall i :: 0 <= i < |name| ==> IsLegal(name[i])
  {
  }

  /** `digit_` followed by `1abc` is `digit_1abc`. */
  lemma DigitNamePrefixed(name: string)
    requires name == "1abc"
    ensures DigitPrefix + name == "digit_1abc"
  {
  }

  /** `foo bar!` becomes `foo_bar_`. */
  lemma IllegalCharactersExample()
    ensures Escape("foo bar!") == "foo_bar_"
  {
    var s := "foo bar!";
    var r := ReplaceIllegal(s);
    assert !StartsWithDigit(s);
    assert forall i :: 0 <= i < 8 ==> r[i] == "foo_bar_"[i];
  }
}
