/** Small shared vocabulary of the project. */
module Prelude {

  /** A nullable value. */
  datatype Option<+T> = None | Some(value: T)

  /** No element occurs at two positions. */
  ghost predicate Distinct<T>(s: seq<T>) {
    forall i, j :: 0 <= i < j < |s| ==> s[i] != s[j]
  }

  /** Dropping the element just appended gives the sequence back. */
  lemma DropAppended<T>(s: seq<T>, x: T)
    ensures (s + [x])[..|s|] == s
    ensures (s + [x])[|s|] == x
  {
  }

  /** White space among the ASCII characters. */
  predicate IsSpace(c: char) {
    c == ' ' || 9 as char <= c <= 13 as char || 28 as char <= c <= 31 as char
  }

  function TrimLeft(s: string): string {
    if s != "" && IsSpace(s[0]) then TrimLeft(s[1..]) else s
  }

  function TrimRight(s: string): string {
    if s != "" && IsSpace(s[|s| - 1]) then TrimRight(s[..|s| - 1]) else s
  }

  function Strip(s: string): string {
    TrimRight(TrimLeft(s))
  }

  function Lower(c: char): char {
    if 'A' <= c <= 'Z' then (c as int + 32) as char else c
  }

  function Lowered(s: string): string {
    seq(|s|, i requires 0 <= i < |s| => Lower(s[i]))
  }

  ghost predicate AllSpace(s: string) {
    forall i :: 0 <= i < |s| ==> IsSpace(s[i])
  }

  /** Stripping cuts white space off both ends, and all of it. */
  lemma StripExactly(s: string)
    ensures exists p, q :: AllSpace(p) && AllSpace(q) && s == p + Strip(s) + q
    ensures Strip(s) != "" ==> !IsSpace(Strip(s)[0]) && !IsSpace(Strip(s)[|Strip(s)| - 1])
  {
    var p := LeftCut(s);
    var q := RightCut(TrimLeft(s));
    assert s == p + (Strip(s) + q);
    assert p + (Strip(s) + q) == p + Strip(s) + q;
    assert Strip(s) != "" ==> Strip(s)[0] == TrimLeft(s)[0];
  }

  lemma {:induction false} LeftCut(s: string) returns (p: string)
    ensures AllSpace(p) && s == p + TrimLeft(s)
    ensures TrimLeft(s) != "" ==> !IsSpace(TrimLeft(s)[0])
  {
    p := "";
    if s != "" && IsSpace(s[0]) {
      var r := LeftCut(s[1..]);
      p := [s[0]] + r;
      assert s == [s[0]] + s[1..];
    }
  }

  lemma {:induction false} RightCut(s: string) returns (q: string)
    ensures AllSpace(q) && s == TrimRight(s) + q
    ensures TrimRight(s) != "" ==> !IsSpace(TrimRight(s)[|TrimRight(s)| - 1])
  {
    q := "";
    if s != "" && IsSpace(s[|s| - 1]) {
      var r := RightCut(s[..|s| - 1]);
      q := r + [s[|s| - 1]];
      assert s == s[..|s| - 1] + [s[|s| - 1]];
    }
  }

  /** Lowering changes the capital letters only, each to its small one. */
  lemma LoweredExactly(s: string, i: nat)
    requires i < |s|
    ensures |Lowered(s)| == |s|
    ensures 'A' <= s[i] <= 'Z' ==> Lowered(s)[i] as int == s[i] as int - 'A' as int + 'a' as int
    ensures !('A' <= s[i] <= 'Z') ==> Lowered(s)[i] == s[i]
  {
  }
}
