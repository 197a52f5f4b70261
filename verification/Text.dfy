/** ASCII trimming and lower-casing, as far as the modelled code uses them. */
module Text {

  predicate IsSpace(c: char) { c in {' ', '\t', '\n', '\r'} }

  function LowerChar(c: char): char {
    if 'A' <= c <= 'Z' then (c as int + 32) as char else c
  }

  function Lower(s: string): (r: string)
    ensures |r| == |s|
    ensures forall i :: 0 <= i < |s| ==> r[i] == LowerChar(s[i])
  {
    seq(|s|, i requires 0 <= i < |s| => LowerChar(s[i]))
  }

  function TrimLeft(s: string): string {
    if s != "" && IsSpace(s[0]) then TrimLeft(s[1..]) else s
  }

  function TrimRight(s: string): string {
    if s != "" && IsSpace(s[|s| - 1]) then TrimRight(s[..|s| - 1]) else s
  }

  function Trim(s: string): string { TrimRight(TrimLeft(s)) }

  /** The stored form of a node tag. */
  function Canon(s: string): string { Trim(Lower(s)) }

  ghost predicate Trimmed(s: string) {
    s == "" || (!IsSpace(s[0]) && !IsSpace(s[|s| - 1]))
  }

  lemma TrimmedIsFixed(s: string)
    requires Trimmed(s)
    ensures Trim(s) == s
  {}

  lemma {:induction false} TrimLeftSuffix(s: string) returns (k: nat)
    ensures k <= |s| && TrimLeft(s) == s[k..]
    ensures k < |s| ==> !IsSpace(s[k])
  {
    k := 0;
    if s != "" && IsSpace(s[0]) {
      var j := TrimLeftSuffix(s[1..]);
      assert s[1..][j..] == s[j + 1..];
      k := j + 1;
    }
  }

  lemma {:induction false} TrimRightPrefix(s: string) returns (k: nat)
    ensures k <= |s| && TrimRight(s) == s[..k]
    ensures 0 < k ==> !IsSpace(s[k - 1])
  {
    k := |s|;
    if s != "" && IsSpace(s[|s| - 1]) {
      k := TrimRightPrefix(s[..|s| - 1]);
      assert s[..|s| - 1][..k] == s[..k];
    }
  }

  lemma TrimSlices(s: string) returns (i: nat, j: nat)
    ensures i <= j <= |s| && Trim(s) == s[i..j]
    ensures Trimmed(Trim(s))
  {
    i := TrimLeftSuffix(s);
    var k := TrimRightPrefix(s[i..]);
    j := i + k;
    assert s[i..][..k] == s[i..j];
  }

  lemma CanonIsIdempotent(s: string)
    ensures Canon(Canon(s)) == Canon(s)
  {
    var low := Lower(s);
    var i, j := TrimSlices(low);
    assert Lower(low[i..j]) == low[i..j];
    TrimmedIsFixed(Canon(s));
  }

  /** Trimming never loses a character that is not a space. */
  lemma TrimKeepsInk(s: string, k: nat)
    requires k < |s| && !IsSpace(s[k])
    ensures Trim(s) != ""
  {
    var i := TrimLeftSuffix(s);
    if k < i {
      TrimLeftDropsSpaces(s, i, k);
    }
    var t := s[i..];
    var j := TrimRightPrefix(t);
    if j <= k - i {
      TrimRightDropsSpaces(t, j, k - i);
    }
  }

  lemma {:induction false} TrimLeftDropsSpaces(s: string, i: nat, k: nat)
    requires i <= |s| && TrimLeft(s) == s[i..] && k < i
    ensures IsSpace(s[k])
  {
    assert |TrimLeft(s)| == |s| - i;
    if k > 0 {
      assert s[1..][i - 1..] == s[i..];
      TrimLeftDropsSpaces(s[1..], i - 1, k - 1);
    }
  }

  lemma {:induction false} TrimRightDropsSpaces(s: string, j: nat, k: nat)
    requires j <= k < |s| && TrimRight(s) == s[..j]
    ensures IsSpace(s[k])
  {
    assert |TrimRight(s)| == j;
    if k < |s| - 1 {
      assert s[..|s| - 1][..j] == s[..j];
      TrimRightDropsSpaces(s[..|s| - 1], j, k);
    }
  }
}
