/** Text of instrument symbols: trimming and upper-casing over ASCII letters. */
module Symbols {

  predicate IsSpace(c: char) {
    c == ' ' || c == '\t' || c == '\n' || c == '\r' || c == '\U{000B}' || c == '\U{000C}'
  }

  function UpperChar(c: char): char {
    if 'a' <= c <= 'z' then c - 'a' + 'A' else c
  }

  function Upper(s: string): (r: string)
    ensures |r| == |s|
  {
    seq(|s|, i requires 0 <= i < |s| => UpperChar(s[i]))
  }

  function TrimStart(s: string): string {
    if s != "" && IsSpace(s[0]) then TrimStart(s[1..]) else s
  }

  function TrimEnd(s: string): string {
    if s != "" && IsSpace(s[|s| - 1]) then TrimEnd(s[..|s| - 1]) else s
  }

  function Trim(s: string): string {
    TrimEnd(TrimStart(s))
  }

  predicate Trimmed(s: string) {
    s != "" ==> !IsSpace(s[0]) && !IsSpace(s[|s| - 1])
  }

  /** Engine-side normal form of a symbol. */
  function NormalizeSymbol(s: string): string {
    Upper(Trim(s))
  }

  lemma {:induction false} TrimStartFirst(s: string)
    ensures TrimStart(s) != "" ==> !IsSpace(TrimStart(s)[0])
  {
    if s != "" && IsSpace(s[0]) { TrimStartFirst(s[1..]); }
  }

  lemma {:induction false} TrimEndKeepsFirst(s: string)
    requires s != "" ==> !IsSpace(s[0])
    ensures Trimmed(TrimEnd(s))
    ensures s != "" ==> TrimEnd(s) != "" && TrimEnd(s)[0] == s[0]
  {
    if s != "" && IsSpace(s[|s| - 1]) { TrimEndKeepsFirst(s[..|s| - 1]); }
  }

  lemma TrimTrims(s: string)
    ensures Trimmed(Trim(s))
    ensures Trim(s) == s <==> Trimmed(s)
  {
    TrimStartFirst(s);
    TrimEndKeepsFirst(TrimStart(s));
  }

  lemma UpperFacts(s: string)
    ensures Upper(Upper(s)) == Upper(s)
    ensures Trimmed(Upper(s)) <==> Trimmed(s)
  {
    assert forall i :: 0 <= i < |s| ==> Upper(Upper(s))[i] == Upper(s)[i];
    if s != "" {
      assert Upper(s)[0] == UpperChar(s[0]) && Upper(s)[|s| - 1] == UpperChar(s[|s| - 1]);
    }
  }

  /** Normalising twice is normalising once, so orders, ticks and cache keys meet. */
  lemma NormalizeIdempotent(s: string)
    ensures NormalizeSymbol(NormalizeSymbol(s)) == NormalizeSymbol(s)
  {
    var t := Trim(s);
    TrimTrims(s);
    UpperFacts(t);
    TrimTrims(Upper(t));
  }

  /** What the normal form is: the text between the first and the last character that is no white space,
      with every small letter made a capital, and nothing else changed. */
  lemma NormalFormIs(s: string) returns (i: nat, j: nat)
    ensures i <= j <= |s| && |NormalizeSymbol(s)| == j - i
    ensures forall k :: 0 <= k < i || j <= k < |s| ==> s[k] in " \t\n\r\U{000B}\U{000C}"
    ensures i < j ==> s[i] !in " \t\n\r\U{000B}\U{000C}" && s[j - 1] !in " \t\n\r\U{000B}\U{000C}"
    ensures forall k :: i <= k < j ==>
      NormalizeSymbol(s)[k - i] == if 97 <= s[k] as int <= 122 then (s[k] as int - 32) as char else s[k]
  {
    i := TrimStartFrom(s);
    var rest := TrimStart(s);
    var n := TrimEndAt(rest);
    j := i + n;
    TrimTrims(s);
    assert Trim(s) == s[i..j];
    forall k | j <= k < |s| ensures IsSpace(s[k]) { assert rest[k - i] == s[k]; }
    forall k | 0 <= k < i || j <= k < |s| ensures s[k] in " \t\n\r\U{000B}\U{000C}" { SpaceIs(s[k]); }
    if i < j {
      SpaceIs(s[i]);
      SpaceIs(s[j - 1]);
    }
    forall k | i <= k < j
      ensures NormalizeSymbol(s)[k - i] == if 97 <= s[k] as int <= 122 then (s[k] as int - 32) as char else s[k]
    {
      assert Trim(s)[k - i] == s[k];
    }
  }

  lemma SpaceIs(c: char)
    ensures IsSpace(c) <==> c in " \t\n\r\U{000B}\U{000C}"
  {
    var spaces := " \t\n\r\U{000B}\U{000C}";
    assert spaces[0] == ' ' && spaces[1] == '\t' && spaces[2] == '\n' && spaces[3] == '\r'
      && spaces[4] == '\U{000B}' && spaces[5] == '\U{000C}';
  }

  lemma {:induction false} TrimStartFrom(s: string) returns (k: nat)
    ensures k <= |s| && TrimStart(s) == s[k..] && forall i :: 0 <= i < k ==> IsSpace(s[i])
  {
    k := 0;
    if s != "" && IsSpace(s[0]) {
      k := TrimStartFrom(s[1..]);
      assert forall i :: 0 < i < k + 1 ==> s[i] == s[1..][i - 1];
      k := k + 1;
    }
  }

  lemma {:induction false} TrimEndAt(s: string) returns (k: nat)
    ensures k <= |s| && TrimEnd(s) == s[..k] && forall i :: k <= i < |s| ==> IsSpace(s[i])
  {
    k := |s|;
    if s != "" && IsSpace(s[|s| - 1]) {
      k := TrimEndAt(s[..|s| - 1]);
      assert forall i :: k <= i < |s| - 1 ==> s[i] == s[..|s| - 1][i];
    }
  }
}
