/** Upper and lower case of ASCII letters; other characters have no case here. */
module Text {
  function LowerChar(c: char): char {
    if 'A' <= c <= 'Z' then c + 32 as char else c
  }

  function UpperChar(c: char): char {
    if 'a' <= c <= 'z' then c - 32 as char else c
  }

  function Lower(s: string): string {
    seq(|s|, i requires 0 <= i < |s| => LowerChar(s[i]))
  }

  function Upper(s: string): string {
    seq(|s|, i requires 0 <= i < |s| => UpperChar(s[i]))
  }

  // ---------------------------------------------------------------------------------------
  // What folding means
  // ---------------------------------------------------------------------------------------

  const SMALL: string := "abcdefghijklmnopqrstuvwxyz"
  const CAPITAL: string := "ABCDEFGHIJKLMNOPQRSTUVWXYZ"

  /** The same character, or one letter in its two cases. */
  ghost predicate SameLetter(c: char, d: char) {
    c == d || (exists i :: IsPair(i, c, d)) || (exists i :: IsPair(i, d, c))
  }

  predicate IsPair(i: int, small: char, capital: char) {
    0 <= i < 26 && SMALL[i] == small && CAPITAL[i] == capital
  }

  /** Two texts differ in nothing but the case of letters. */
  ghost predicate SameUpToCase(a: string, b: string) {
    |a| == |b| && forall i | 0 <= i < |a| :: SameLetter(a[i], b[i])
  }

  ghost predicate HasSmall(s: string) {
    exists c :: c in s && c in SMALL
  }

  ghost predicate HasCapital(s: string) {
    exists c :: c in s && c in CAPITAL
  }

  lemma Alphabets(i: nat)
    requires i < 26
    ensures SMALL[i] == 'a' + i as char && CAPITAL[i] == 'A' + i as char
  {
  }

  lemma SmallLetters(c: char)
    ensures c in SMALL <==> 'a' <= c <= 'z'
  {
    if 'a' <= c <= 'z' {
      Alphabets(c as int - 'a' as int);
      assert SMALL[c as int - 'a' as int] == c;
    }
  }

  lemma CapitalLetters(c: char)
    ensures c in CAPITAL <==> 'A' <= c <= 'Z'
  {
    if 'A' <= c <= 'Z' {
      Alphabets(c as int - 'A' as int);
      assert CAPITAL[c as int - 'A' as int] == c;
    }
  }

  lemma PairIs(i: int, small: char, capital: char)
    ensures IsPair(i, small, capital) <==> 0 <= i < 26 && small == 'a' + i as char && capital == 'A' + i as char
  {
    if 0 <= i < 26 {
      Alphabets(i);
    }
  }

  lemma PairsAre(c: char, d: char)
    ensures (exists i :: IsPair(i, c, d)) <==> 'a' <= c <= 'z' && d == c - 32 as char
  {
    if i :| IsPair(i, c, d) {
      PairIs(i, c, d);
    }
    if 'a' <= c <= 'z' && d == c - 32 as char {
      PairIs(c as int - 'a' as int, c, d);
    }
  }

  /** Folding either way identifies exactly the characters that are one letter in two cases. */
  lemma FoldsExactly(c: char, d: char)
    ensures SameLetter(c, d) <==> UpperChar(c) == UpperChar(d)
    ensures SameLetter(c, d) <==> LowerChar(c) == LowerChar(d)
  {
    PairsAre(c, d);
    PairsAre(d, c);
  }

  /** Two texts have one upper case, and one lower case, exactly if they differ in nothing but case. */
  lemma FoldsTexts(a: string, b: string)
    ensures SameUpToCase(a, b) <==> Upper(a) == Upper(b)
    ensures SameUpToCase(a, b) <==> Lower(a) == Lower(b)
  {
    if |a| == |b| {
      forall i | 0 <= i < |a|
        ensures Upper(a)[i] == Upper(b)[i] <==> SameLetter(a[i], b[i])
        ensures Lower(a)[i] == Lower(b)[i] <==> SameLetter(a[i], b[i])
      {
        FoldsExactly(a[i], b[i]);
      }
    } else {
      assert |Upper(a)| != |Upper(b)| && |Lower(a)| != |Lower(b)|;
    }
  }

  /** The upper case of a text is a given word exactly if the word has no small letter and the text
      differs from it in nothing but case. */
  lemma UpperIs(s: string, word: string)
    ensures Upper(s) == word <==> !HasSmall(word) && SameUpToCase(s, word)
  {
    FoldsTexts(s, word);
    UpperHasNoSmall(s);
    if !HasSmall(word) {
      forall i | 0 <= i < |word| ensures UpperChar(word[i]) == word[i] {
        SmallLetters(word[i]);
      }
      assert Upper(word) == word;
    }
  }

  lemma LowerIs(s: string, word: string)
    ensures Lower(s) == word <==> !HasCapital(word) && SameUpToCase(s, word)
  {
    FoldsTexts(s, word);
    LowerHasNoCapital(s);
    if !HasCapital(word) {
      forall i | 0 <= i < |word| ensures LowerChar(word[i]) == word[i] {
        CapitalLetters(word[i]);
      }
      assert Lower(word) == word;
    }
  }

  lemma UpperHasNoSmall(s: string)
    ensures !HasSmall(Upper(s)) && SameUpToCase(s, Upper(s))
  {
    forall c | c in Upper(s) ensures c !in SMALL {
      SmallLetters(c);
    }
    forall i | 0 <= i < |s| ensures SameLetter(s[i], Upper(s)[i]) {
      FoldsExactly(s[i], Upper(s)[i]);
    }
  }

  lemma LowerHasNoCapital(s: string)
    ensures !HasCapital(Lower(s)) && SameUpToCase(s, Lower(s))
  {
    forall c | c in Lower(s) ensures c !in CAPITAL {
      CapitalLetters(c);
    }
    forall i | 0 <= i < |s| ensures SameLetter(s[i], Lower(s)[i]) {
      FoldsExactly(s[i], Lower(s)[i]);
    }
  }

  lemma AllCapital(s: string)
    requires forall i | 0 <= i < |s| :: 'A' <= s[i] <= 'Z'
    ensures !HasSmall(s)
  {
    forall c | c in s ensures c !in SMALL {
      SmallLetters(c);
    }
  }
}
