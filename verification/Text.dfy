/** The string operations that the normalisers use, on characters of the Basic Latin letters and digits. */
module Text {

  function Lower(c: char): char {
    if 'A' <= c <= 'Z' then (c as int + 32) as char else c
  }

  function Upper(c: char): char {
    if 'a' <= c <= 'z' then (c as int - 32) as char else c
  }

  function LowerAll(s: string): (r: string)
    ensures |r| == |s| && forall i :: 0 <= i < |s| ==> r[i] == Lower(s[i])
  {
    seq(|s|, i requires 0 <= i < |s| => Lower(s[i]))
  }

  function UpperAll(s: string): (r: string)
    ensures |r| == |s| && forall i :: 0 <= i < |s| ==> r[i] == Upper(s[i])
  {
    seq(|s|, i requires 0 <= i < |s| => Upper(s[i]))
  }

  /** White space and line terminators as ECMA-262 lists them, the characters that `trim` removes. */
  predicate IsSpace(c: char) {
    var n := c as int;
    || 9 <= n <= 13 || n == 32 || n == 160 || n == 0x1680 || 0x2000 <= n <= 0x200A
    || n == 0x2028 || n == 0x2029 || n == 0x202F || n == 0x205F || n == 0x3000 || n == 0xFEFF
  }

  predicate IsKeyChar(c: char) { 'a' <= c <= 'z' || '0' <= c <= '9' }

  predicate IsUnderscore(c: char) { c == '_' }

  function DropLeft(p: char -> bool, s: string): string {
    if s != [] && p(s[0]) then DropLeft(p, s[1..]) else s
  }

  function DropRight(p: char -> bool, s: string): string {
    if s != [] && p(s[|s| - 1]) then DropRight(p, s[..|s| - 1]) else s
  }

  /** Remove the characters in `p` from both ends. */
  function Strip(p: char -> bool, s: string): string { DropRight(p, DropLeft(p, s)) }

  function Trim(s: string): string { Strip(IsSpace, s) }

  function Take(n: nat, s: string): string { if |s| <= n then s else s[..n] }

  /** No character of `p` at either end. */
  predicate Stripped(p: char -> bool, s: string) {
    s == [] || (!p(s[0]) && !p(s[|s| - 1]))
  }

  lemma {:induction false} DropLeftSlice(p: char -> bool, s: string) returns (i: nat)
    ensures i <= |s| && DropLeft(p, s) == s[i..] && (i < |s| ==> !p(s[i]))
    ensures forall k :: 0 <= k < i ==> p(s[k])
  {
    if s != [] && p(s[0]) {
      var k := DropLeftSlice(p, s[1..]);
      i := k + 1;
      assert s[1..][k..] == s[i..];
      assert forall m :: 0 < m < |s| ==> s[m] == s[1..][m - 1];
    } else {
      i := 0;
      assert s[0..] == s;
    }
  }

  lemma {:induction false} DropRightSlice(p: char -> bool, s: string) returns (j: nat)
    ensures j <= |s| && DropRight(p, s) == s[..j] && (j > 0 ==> !p(s[j - 1]))
    ensures forall k :: j <= k < |s| ==> p(s[k])
  {
    if s != [] && p(s[|s| - 1]) {
      j := DropRightSlice(p, s[..|s| - 1]);
      assert s[..|s| - 1][..j] == s[..j];
    } else {
      j := |s|;
      assert s[..|s|] == s;
    }
  }

  /** Stripping cuts a slice out of the text, leaves nothing of `p` at its ends, and removes only `p`. */
  lemma {:induction false} StripSlice(p: char -> bool, s: string) returns (i: nat, j: nat)
    ensures i <= j <= |s| && Strip(p, s) == s[i..j]
    ensures Stripped(p, Strip(p, s))
    ensures forall k :: 0 <= k < i || j <= k < |s| ==> p(s[k])
  {
    i := DropLeftSlice(p, s);
    var rest := s[i..];
    var k := DropRightSlice(p, rest);
    j := i + k;
    assert rest[..k] == s[i..j];
    if k > 0 {
      assert rest[..k][0] == s[i] && rest[..k][k - 1] == rest[k - 1];
    }
  }

  /** A text is left alone exactly when there is nothing to strip. */
  lemma {:induction false} StripFixed(p: char -> bool, s: string)
    ensures Strip(p, s) == s <==> Stripped(p, s)
  {
    var i, j := StripSlice(p, s);
    if Stripped(p, s) && s != [] {
      assert DropLeft(p, s) == s;
    }
  }

  /** A text that starts with something to keep is not stripped away. */
  lemma {:induction false} DropRightKeepsFirst(p: char -> bool, s: string)
    requires s != [] && !p(s[0])
    ensures DropRight(p, s) != [] && DropRight(p, s)[0] == s[0]
  {
    if p(s[|s| - 1]) {
      DropRightKeepsFirst(p, s[..|s| - 1]);
    }
  }
}
