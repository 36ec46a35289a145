/** The arithmetic shared by the CPF and CNPJ validators: weighted digit
    sums, the modulo-11 check-digit rule of the Receita Federal, and the
    "all characters equal" test. */
module CheckDigits {
  import opened Chars
  import opened Wrappers
  import opened Normalization

  /** The summing loop of the Go `verification` closures, walked over the
      checksummed prefix: `None` is the early return taken when `strconv.Atoi`
      rejects a character. */
  function WeightedDigitSum(s: string, weights: seq<nat>): (r: Option<nat>)
    requires |weights| == |s|
    ensures r.Some? <==> AllDigits(s)
  {
    if |s| == 0 then Some(0)
    else
      var n := |s| - 1;
      match WeightedDigitSum(s[..n], weights[..n])
      case None => None
      case Some(t) => if IsDigit(s[n]) then Some(t + DigitValue(s[n]) * weights[n]) else None
  }

  /** Reference definition of the weighted sum of a digit string, folded from the left. */
  function DigitSum(s: string, weights: seq<nat>): nat
    requires |weights| == |s| && AllDigits(s)
  {
    if |s| == 0 then 0 else DigitValue(s[0]) * weights[0] + DigitSum(s[1..], weights[1..])
  }

  lemma {:induction false} DigitSumSnoc(s: string, weights: seq<nat>)
    requires |weights| == |s| > 0 && AllDigits(s)
    ensures DigitSum(s, weights)
         == DigitSum(s[..|s| - 1], weights[..|s| - 1]) + DigitValue(s[|s| - 1]) * weights[|s| - 1]
  {
    if |s| > 1 {
      DigitSumSnoc(s[1..], weights[1..]);
      assert s[1..][..|s| - 2] == s[..|s| - 1][1..];
      assert weights[1..][..|s| - 2] == weights[..|s| - 1][1..];
    }
  }

  /** On a string of digits the Go loop computes the reference sum. */
  lemma {:induction false} WeightedDigitSumOfDigits(s: string, weights: seq<nat>)
    requires |weights| == |s| && AllDigits(s)
    ensures WeightedDigitSum(s, weights) == Some(DigitSum(s, weights))
  {
    if |s| > 0 {
      WeightedDigitSumOfDigits(s[..|s| - 1], weights[..|s| - 1]);
      DigitSumSnoc(s, weights);
    }
  }

  /** A run of zeros sums to zero whatever the weights. */
  lemma {:induction false} DigitSumOfZeros(s: string, weights: seq<nat>)
    requires |weights| == |s| && forall i :: 0 <= i < |s| ==> s[i] == '0'
    ensures AllDigits(s) && DigitSum(s, weights) == 0
  {
    if |s| > 0 {
      DigitSumOfZeros(s[1..], weights[1..]);
    }
  }

  /** Total of a weight vector. */
  function WeightTotal(weights: seq<nat>): nat
  {
    if |weights| == 0 then 0 else weights[0] + WeightTotal(weights[1..])
  }

  /** A run of one digit sums to that digit times the total weight. */
  lemma {:induction false} DigitSumOfRun(s: string, weights: seq<nat>, c: char)
    requires |weights| == |s| && IsDigit(c) && forall i :: 0 <= i < |s| ==> s[i] == c
    ensures AllDigits(s) && DigitSum(s, weights) == DigitValue(c) * WeightTotal(weights)
  {
    if |s| > 0 {
      DigitSumOfRun(s[1..], weights[1..], c);
    }
  }

  /** Zeros followed by a letter: already normalised, not all equal, and
      every prefix without the letter is a run of zero digits. */
  lemma ZerosThenLetter(n: nat, letter: char)
    requires n > 0 && IsAsciiLetter(letter)
    ensures var s := seq(n, _ => '0') + [letter];
            && Normalize(s) == s
            && !AllSameCharacter(s)
            && s[n] == letter
            && forall i :: 0 <= i < n ==> s[i] == '0'
  {
    var s := seq(n, _ => '0') + [letter];
    assert forall i :: 0 <= i < |s| ==> IsAsciiAlphaNumeric(s[i]);
    NormalizeIdentity(s);
    AllSameCharacterIff(s);
    assert s[0] != s[n];
  }

  /** The modulo-11 check digit: 0 when the remainder is 0 or 1, otherwise
      eleven minus the remainder. */
  function Mod11CheckDigit(sum: nat): (d: nat)
    ensures d < 10
  {
    var r := sum % 11;
    if r < 2 then 0 else 11 - r
  }

  /** `strings.Count(s, string(s[0])) == len(s)`: the first character
      occurs at every position. */
  predicate AllSameCharacter(s: string)
  {
    |s| > 0 && multiset(s)[s[0]] == |s|
  }

  lemma {:induction false} CountIsLength(s: string, c: char)
    ensures multiset(s)[c] <= |s|
    ensures multiset(s)[c] == |s| <==> forall i :: 0 <= i < |s| ==> s[i] == c
  {
    if |s| > 0 {
      CountIsLength(s[1..], c);
      assert s == [s[0]] + s[1..];
      assert multiset(s) == multiset([s[0]]) + multiset(s[1..]);
      if forall i :: 1 <= i < |s| ==> s[i] == c {
        assert forall i :: 0 <= i < |s[1..]| ==> s[1..][i] == c;
      }
    }
  }

  /** Counting the first character is the same as asking all characters to be equal. */
  lemma AllSameCharacterIff(s: string)
    ensures AllSameCharacter(s) <==> |s| > 0 && forall i, j :: 0 <= i < |s| && 0 <= j < |s| ==> s[i] == s[j]
  {
    if |s| > 0 {
      CountIsLength(s, s[0]);
    }
  }

  /** A prefix holding two different characters makes the whole string mixed. */
  lemma MixedPrefix(s: string, n: nat)
    requires 0 < n <= |s| && !AllSameCharacter(s[..n])
    ensures !AllSameCharacter(s)
  {
    AllSameCharacterIff(s[..n]);
    var i, j :| 0 <= i < n && 0 <= j < n && s[..n][i] != s[..n][j];
    AllSameCharacterIff(s);
    assert s[i] != s[j];
  }
}
