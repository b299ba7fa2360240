/** Subjects under which ticks are published: `ticks.SYMBOL` and `ticks.SYMBOL.GROUP`. */
module Subjects {
  import opened Contracts

  const TICKS_PREFIX: string := "ticks."

  /** Position of the first dot, or the length if there is none. */
  function FirstDot(s: string): (k: nat)
    ensures k <= |s|
    ensures forall i :: 0 <= i < k ==> s[i] != '.'
    ensures k < |s| ==> s[k] == '.'
  {
    if s == "" || s[0] == '.' then 0 else FirstDot(s[1..]) + 1
  }

  function StripPrefix(subject: string): Option<string> {
    if TICKS_PREFIX <= subject then Some(subject[|TICKS_PREFIX|..]) else None
  }

  /** Symbol and group of a per-group subject; the group is everything after the first dot. */
  function ParsePerGroup(subject: string): Option<(string, string)> {
    var rest := StripPrefix(subject);
    if rest.None? then None
    else
      var k := FirstDot(rest.value);
      if k == |rest.value| || rest.value[k + 1..] == "" then None
      else Some((rest.value[..k], rest.value[k + 1..]))
  }

  /** What the tick handler makes of a subject: per-group if it parses so, else one global symbol. */
  function ParseTick(subject: string): Option<(string, Option<string>)> {
    var perGroup := ParsePerGroup(subject);
    if perGroup.Some? then Some((perGroup.value.0, Some(perGroup.value.1)))
    else
      var symbol := StripPrefix(subject);
      if symbol.Some? then Some((symbol.value, None)) else None
  }

  function TickSubject(symbol: string, group: Option<string>): string {
    TICKS_PREFIX + symbol + (if group.Some? then "." + group.value else "")
  }

  lemma FirstDotIs(s: string, k: nat)
    requires k <= |s| && (forall i :: 0 <= i < k ==> s[i] != '.') && (k < |s| ==> s[k] == '.')
    ensures FirstDot(s) == k
  {
    var j := FirstDot(s);
    assert j < |s| ==> s[j] == '.';
  }

  /** A published group tick reaches the engine as the same symbol and group exactly when the symbol
      has no dot and the group is not empty. */
  lemma GroupTickRoundTrip(symbol: string, group: string)
    ensures TickSubject(symbol, Some(group)) == "ticks." + symbol + "." + group
    ensures ParseTick(TickSubject(symbol, Some(group))) == Some((symbol, Some(group)))
            <==> '.' !in symbol && group != ""
  {
    var rest := symbol + "." + group;
    assert TickSubject(symbol, Some(group)) == TICKS_PREFIX + rest;
    assert (TICKS_PREFIX + rest)[|TICKS_PREFIX|..] == rest;
    if '.' !in symbol {
      FirstDotIs(rest, |symbol|);
      assert rest[|symbol| + 1..] == group && rest[..|symbol|] == symbol;
    } else {
      var i :| 0 <= i < |symbol| && symbol[i] == '.';
      assert rest[i] == '.';
      assert FirstDot(rest) < |symbol|;
    }
  }

  lemma PrefixStripped(rest: string)
    ensures StripPrefix(TICKS_PREFIX + rest) == Some(rest)
  {
    assert (TICKS_PREFIX + rest)[|TICKS_PREFIX|..] == rest;
  }

  /** A global tick does so exactly when nothing follows the symbol's first dot. */
  lemma GlobalTickRoundTrip(symbol: string)
    ensures TickSubject(symbol, None) == "ticks." + symbol
    ensures ParseTick(TickSubject(symbol, None)) == Some((symbol, None))
            <==> forall i :: 0 <= i < |symbol| - 1 ==> symbol[i] != '.'
  {
    var subject := TickSubject(symbol, None);
    assert subject == TICKS_PREFIX + symbol;
    PrefixStripped(symbol);
    NothingAfterDot(subject, symbol);
    if FirstDot(symbol) + 1 < |symbol| { assert symbol[FirstDot(symbol)] == '.'; }
  }

  lemma NothingAfterDot(subject: string, rest: string)
    requires StripPrefix(subject) == Some(rest)
    ensures ParsePerGroup(subject).None? <==> FirstDot(rest) + 1 >= |rest|
  {
    var k := FirstDot(rest);
    if k < |rest| { assert rest[k + 1..] == "" <==> k + 1 == |rest|; }
  }
}
