/** `RemoveNonAlphaNumericCharacters`, the normaliser every validator
    applies first: it deletes every match of `[^a-zA-Z0-9]+`, so exactly the
    ASCII letters and digits survive, in their original order.  Letters are
    kept, which is why a letter inside a document number counts toward its
    length. */
module Normalization {
  import opened Chars

  function Normalize(s: string): (r: string)
    ensures |r| <= |s|
    ensures forall i :: 0 <= i < |r| ==> IsAsciiAlphaNumeric(r[i])
  {
    if |s| == 0 then []
    else (if IsAsciiAlphaNumeric(s[0]) then [s[0]] else []) + Normalize(s[1..])
  }

  /** Normalising a concatenation normalises each part: together with the
      one-character case this pins the result down as the in-order
      selection of the letters and digits. */
  lemma {:induction false} NormalizeConcat(a: string, b: string)
    ensures Normalize(a + b) == Normalize(a) + Normalize(b)
  {
    if |a| == 0 {
      assert a + b == b;
    } else {
      assert (a + b)[0] == a[0];
      assert (a + b)[1..] == a[1..] + b;
      NormalizeConcat(a[1..], b);
    }
  }

  /** A single character survives exactly when it is an ASCII letter or digit. */
  lemma NormalizeSingle(c: char)
    ensures Normalize([c]) == (if IsAsciiAlphaNumeric(c) then [c] else [])
  {
    assert [c][1..] == [];
  }

  /** Each letter or digit keeps its multiplicity; everything else is gone. */
  lemma {:induction false} NormalizeCounts(s: string, c: char)
    ensures multiset(Normalize(s))[c] == if IsAsciiAlphaNumeric(c) then multiset(s)[c] else 0
  {
    if |s| > 0 {
      NormalizeCounts(s[1..], c);
      assert s == [s[0]] + s[1..];
      assert multiset(s) == multiset([s[0]]) + multiset(s[1..]);
    }
  }

  /** A string is left unchanged exactly when it is already made of ASCII
      letters and digits. */
  lemma {:induction false} NormalizeFixedPoint(s: string)
    ensures Normalize(s) == s <==> forall i :: 0 <= i < |s| ==> IsAsciiAlphaNumeric(s[i])
  {
    if forall i :: 0 <= i < |s| ==> IsAsciiAlphaNumeric(s[i]) {
      NormalizeIdentity(s);
    }
  }

  lemma {:induction false} NormalizeIdentity(s: string)
    requires forall i :: 0 <= i < |s| ==> IsAsciiAlphaNumeric(s[i])
    ensures Normalize(s) == s
  {
    if |s| > 0 {
      NormalizeIdentity(s[1..]);
    }
  }

  /** Punctuation alone normalises to the empty string. */
  lemma {:induction false} NothingSurvives(s: string)
    requires forall i :: 0 <= i < |s| ==> !IsAsciiAlphaNumeric(s[i])
    ensures Normalize(s) == []
  {
    if |s| > 0 {
      NothingSurvives(s[1..]);
    }
  }

  /** Normalising twice is normalising once. */
  lemma NormalizeIdempotent(s: string)
    ensures Normalize(Normalize(s)) == Normalize(s)
  {
    NormalizeIdentity(Normalize(s));
  }

  /** A string of digits is its own normal form. */
  lemma DigitsAreNormal(s: string)
    requires AllDigits(s)
    ensures Normalize(s) == s
  {
    NormalizeIdentity(s);
  }
}
