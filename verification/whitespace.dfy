/** `strings.TrimSpace` and the blank-field test the address validator
    builds on it. */
module Whitespace {
  import opened Chars

  function TrimLeft(s: string): (r: string)
    ensures |r| <= |s|
  {
    if |s| > 0 && IsSpace(s[0]) then TrimLeft(s[1..]) else s
  }

  function TrimRight(s: string): (r: string)
    ensures |r| <= |s|
  {
    if |s| > 0 && IsSpace(s[|s| - 1]) then TrimRight(s[..|s| - 1]) else s
  }

  /** `TrimLeft` drops white space only, and all of the leading white space:
      what is removed is a prefix of spaces and what remains is a suffix
      that starts with a non-space character. */
  lemma {:induction false} TrimLeftSpec(s: string)
    ensures var r := TrimLeft(s);
            && r == s[|s| - |r|..]
            && (forall i :: 0 <= i < |s| - |r| ==> IsSpace(s[i]))
            && (|r| == 0 || !IsSpace(r[0]))
  {
    if |s| > 0 && IsSpace(s[0]) {
      TrimLeftSpec(s[1..]);
    }
  }

  /** `TrimRight` is the mirror image. */
  lemma {:induction false} TrimRightSpec(s: string)
    ensures var r := TrimRight(s);
            && r == s[..|r|]
            && (forall i :: |r| <= i < |s| ==> IsSpace(s[i]))
            && (|r| == 0 || !IsSpace(r[|r| - 1]))
  {
    if |s| > 0 && IsSpace(s[|s| - 1]) {
      TrimRightSpec(s[..|s| - 1]);
    }
  }

  /** `strings.TrimSpace`: the infix left after removing white space at both ends. */
  function TrimSpace(s: string): (r: string)
    ensures |r| <= |s|
  {
    TrimRight(TrimLeft(s))
  }

  /** The trimmed string neither starts nor ends with white space and is an
      infix of the input obtained by removing spaces only. */
  lemma TrimSpaceSpec(s: string)
    ensures var r := TrimSpace(s);
            && (|r| == 0 || (!IsSpace(r[0]) && !IsSpace(r[|r| - 1])))
            && var a := |s| - |TrimLeft(s)|;
               && a + |r| <= |s| && r == s[a..a + |r|]
               && (forall i :: 0 <= i < a ==> IsSpace(s[i]))
               && (forall i :: a + |r| <= i < |s| ==> IsSpace(s[i]))
  {
    var t := TrimLeft(s);
    var r := TrimRight(t);
    TrimLeftSpec(s);
    TrimRightSpec(t);
    var a := |s| - |t|;
    assert t == s[a..];
    assert r == s[a..a + |r|];
    if |r| > 0 {
      assert r[0] == t[0];
    }
    forall i | a + |r| <= i < |s|
      ensures IsSpace(s[i])
    {
      assert s[i] == t[i - a];
    }
  }

  /** `len(strings.TrimSpace(s)) == 0`. */
  predicate IsBlank(s: string)
  {
    |TrimSpace(s)| == 0
  }

  /** A field is blank exactly when every character of it is white space;
      in particular the empty string is blank and so is "   ". */
  lemma BlankIffAllSpace(s: string)
    ensures IsBlank(s) <==> forall i :: 0 <= i < |s| ==> IsSpace(s[i])
  {
    var t := TrimLeft(s);
    TrimLeftSpec(s);
    TrimRightSpec(t);
    if exists k :: 0 <= k < |s| && !IsSpace(s[k]) {
      var k :| 0 <= k < |s| && !IsSpace(s[k]);
      assert |s| - |t| <= k;
      assert t[k - (|s| - |t|)] == s[k];
    }
  }
}
