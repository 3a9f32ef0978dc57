/**
 * The letter filter of WeatherTracker/Extensions/String+Extensions.swift.
 *
 * A Swift `String` is a sequence of `Character`s (extended grapheme clusters),
 * each made of one or more Unicode scalars. The filter keeps a character exactly
 * when the FIRST scalar of that character belongs to `CharacterSet.letters`.
 * That set is Unicode data the model does not tabulate: it is the parameter
 * `letters`, and `AsciiLetters` states the part of it that is common knowledge.
 */
module StringExtensions {
  import opened Sequences

  /** A Swift `Character`, given by its Unicode scalars (there is always one). */
  type Character = s: seq<char> | |s| > 0 witness ['a']

  /**
   * A Swift `String` seen as its characters, segmented as the input was. After
   * deletions Swift may merge neighbours into one character; this model keeps
   * the segmentation it had.
   */
  type Text = seq<Character>

  /** Membership in `CharacterSet.letters`, one Unicode scalar at a time. */
  type LetterSet = char -> bool

  /** The scalars of a text, in order (what string interpolation inserts). */
  function Scalars(t: Text): (r: string)
    ensures |r| >= |t|
    ensures r == [] <==> t == []
  {
    if t == [] then [] else t[0] + Scalars(t[1..])
  }

  /** A text whose every character is a single scalar of `s`. */
  function Chars(s: string): (t: Text)
    ensures |t| == |s|
    ensures forall i :: 0 <= i < |s| ==> t[i] == [s[i]]
  {
    seq(|s|, i requires 0 <= i < |s| => [s[i]])
  }

  /** `letters` agrees with `CharacterSet.letters` on ASCII: exactly A-Z and a-z. */
  ghost predicate AsciiLetters(letters: LetterSet) {
    forall c: char :: c < 128 as char ==> (letters(c) <==> 'a' <= c <= 'z' || 'A' <= c <= 'Z')
  }

  /**
   * The character survives `removeNonLetters`: its first scalar is a letter.
   * (The closure's fallback for a character without scalars cannot fire.)
   */
  predicate IsLetter(c: Character, letters: LetterSet) {
    letters(c[0])
  }

  /** Every character of `t` is a letter. */
  predicate AllLetters(t: Text, letters: LetterSet) {
    forall i :: 0 <= i < |t| ==> IsLetter(t[i], letters)
  }

  /** No character of `t` is a letter. */
  predicate NoLetters(t: Text, letters: LetterSet) {
    forall i :: 0 <= i < |t| ==> !IsLetter(t[i], letters)
  }

  /** `alphaOnly`: the text with every non-letter character removed. */
  function AlphaOnly(s: Text, letters: LetterSet): (r: Text)
    ensures |r| <= |s|
    ensures AllLetters(r, letters)
  {
    if s == [] then []
    else if IsLetter(s[0], letters) then [s[0]] + AlphaOnly(s[1..], letters)
    else AlphaOnly(s[1..], letters)
  }

  /** Filtering distributes over concatenation. */
  lemma {:induction false} AlphaOnlyAppend(a: Text, b: Text, letters: LetterSet)
    ensures AlphaOnly(a + b, letters) == AlphaOnly(a, letters) + AlphaOnly(b, letters)
  {
    if a != [] {
      assert (a + b)[0] == a[0];
      assert (a + b)[1..] == a[1..] + b;
      AlphaOnlyAppend(a[1..], b, letters);
    } else {
      assert a + b == b;
    }
  }

  /**
   * The kept characters are exactly the letters of `s`, in their original
   * order: `idx` lists the positions of `s` that survive, increasing, and a
   * position survives iff it holds a letter.
   */
  lemma {:induction false} AlphaOnlyPositions(s: Text, letters: LetterSet) returns (idx: seq<nat>)
    ensures Embeds(idx, AlphaOnly(s, letters), s)
    ensures forall k :: 0 <= k < |s| ==> (k in idx <==> IsLetter(s[k], letters))
  {
    if s == [] {
      idx := [];
    } else {
      var rest := AlphaOnlyPositions(s[1..], letters);
      var shifted := seq(|rest|, i requires 0 <= i < |rest| => rest[i] + 1);
      assert s == [s[0]] + s[1..];
      forall k | 1 <= k < |s|
        ensures k in shifted <==> k - 1 in rest
      {
        if k - 1 in rest {
          var i :| 0 <= i < |rest| && rest[i] == k - 1;
          assert shifted[i] == k;
        }
      }
      if IsLetter(s[0], letters) {
        EmbedsCons(rest, AlphaOnly(s[1..], letters), s[1..], s[0]);
        idx := [0] + shifted;
      } else {
        EmbedsShift(rest, AlphaOnly(s[1..], letters), s[1..], s[0]);
        idx := shifted;
      }
    }
  }

  /** `alphaOnly` only deletes: the result is an order-preserving subsequence. */
  lemma AlphaOnlyIsSubsequence(s: Text, letters: LetterSet)
    ensures IsSubsequence(AlphaOnly(s, letters), s)
  {
    var idx := AlphaOnlyPositions(s, letters);
  }

  /**
   * Every letter of `s` is kept, as often as it occurs, and nothing else is:
   * the result holds each letter with its multiplicity in `s`. In particular
   * its length is the number of letters of `s`.
   */
  lemma {:induction false} AlphaOnlyCounts(s: Text, letters: LetterSet)
    ensures forall c :: multiset(AlphaOnly(s, letters))[c] == if IsLetter(c, letters) then multiset(s)[c] else 0
  {
    if s != [] {
      AlphaOnlyCounts(s[1..], letters);
      assert s == [s[0]] + s[1..];
      assert multiset(s) == multiset{s[0]} + multiset(s[1..]);
    }
  }

  /** A text is left unchanged exactly when it consists of letters only. */
  lemma {:induction false} AlphaOnlyFixedIff(s: Text, letters: LetterSet)
    ensures AlphaOnly(s, letters) == s <==> AllLetters(s, letters)
  {
    if s != [] && AllLetters(s, letters) {
      assert AllLetters(s[1..], letters) by {
        forall i | 0 <= i < |s[1..]| ensures IsLetter(s[1..][i], letters) {
          assert s[1..][i] == s[i + 1];
        }
      }
      AlphaOnlyFixedIff(s[1..], letters);
      assert s == [s[0]] + s[1..];
    }
  }

  /** A text becomes empty exactly when it contains no letter (digits, punctuation, spaces). */
  lemma {:induction false} AlphaOnlyEmptyIff(s: Text, letters: LetterSet)
    ensures AlphaOnly(s, letters) == [] <==> NoLetters(s, letters)
  {
    if s != [] {
      AlphaOnlyEmptyIff(s[1..], letters);
      if NoLetters(s, letters) {
        assert NoLetters(s[1..], letters) by {
          forall i | 0 <= i < |s[1..]| ensures !IsLetter(s[1..][i], letters) {
            assert s[1..][i] == s[i + 1];
          }
        }
      } else if !IsLetter(s[0], letters) {
        var i :| 0 <= i < |s| && IsLetter(s[i], letters);
        assert s[1..][i - 1] == s[i];
      }
    }
  }

  /** Filtering twice is filtering once. */
  lemma AlphaOnlyIdempotent(s: Text, letters: LetterSet)
    ensures AlphaOnly(AlphaOnly(s, letters), letters) == AlphaOnly(s, letters)
  {
    AlphaOnlyFixedIff(AlphaOnly(s, letters), letters);
  }

  /** With the ASCII part of `CharacterSet.letters`, a query like "Rome 2!" is searched as "Rome". */
  lemma AlphaOnlyExample(letters: LetterSet)
    requires AsciiLetters(letters)
    ensures AlphaOnly(Chars("Rome 2!"), letters) == Chars("Rome")
  {
    var s := Chars("Rome 2!");
    assert s == Chars("Rome") + Chars(" 2!");
    AlphaOnlyAppend(Chars("Rome"), Chars(" 2!"), letters);
    AlphaOnlyFixedIff(Chars("Rome"), letters);
    AlphaOnlyEmptyIff(Chars(" 2!"), letters);
  }

  /**
   * A mutable string value. Swift's `removeNonLetters` is a `mutating` method
   * of the string itself; here the string is the field `value`.
   */
  class TextBuffer {
    var value: Text

    constructor (s: Text)
      ensures value == s
    {
      value := s;
    }

    /** `removeNonLetters`: removes, in place, every character that is not a letter. */
    method RemoveNonLetters(letters: LetterSet)
      modifies this
      ensures value == AlphaOnly(old(value), letters)
    {
      value := AlphaOnly(value, letters);
    }

    /**
     * The `alphaOnly` getter: filters a copy and returns it. The receiver is
     * not in any modifies clause, so it is left untouched.
     */
    method GetAlphaOnly(letters: LetterSet) returns (output: Text)
      ensures output == AlphaOnly(value, letters)
      ensures AllLetters(output, letters) && IsSubsequence(output, value)
    {
      var copy := new TextBuffer(value);
      copy.RemoveNonLetters(letters);
      output := copy.value;
      AlphaOnlyIsSubsequence(value, letters);
    }
  }
}
