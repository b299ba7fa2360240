/** The web client's symbol keys. */
module SymbolKeys {
  import opened Contracts
  import opened Symbols

  /** Slashes and hyphens removed. */
  function Strip(s: string): (r: string)
    ensures '/' !in r && '-' !in r
  {
    if s == "" then ""
    else if s[0] == '/' || s[0] == '-' then Strip(s[1..])
    else [s[0]] + Strip(s[1..])
  }

  /** The symbol before its dollar suffix is looked at. */
  function Core(symbol: string): string {
    Strip(Trim(Upper(symbol)))
  }

  predicate EndsInUsdt(s: string) {
    |s| >= 4 && s[|s| - 4..] == "USDT"
  }

  /** `BTCUSDT` and `BTC-USD` meet in `BTCUSD`; two pairs keep their tether. */
  function Collapse(u: string): string {
    if u == "EURUSDT" || u == "XAUUSDT" then u
    else if EndsInUsdt(u) then u[..|u| - 4] + "USD"
    else u
  }

  function NormalizeSymbolKey(symbol: string): string {
    Collapse(Core(symbol))
  }

  predicate Uppercase(s: string) {
    forall i :: 0 <= i < |s| ==> UpperChar(s[i]) == s[i]
  }

  lemma {:induction false} StripPlain(s: string)
    requires '/' !in s && '-' !in s
    ensures Strip(s) == s
  {
    if s != "" {
      StripPlain(s[1..]);
      assert s == [s[0]] + s[1..];
    }
  }

  lemma {:induction false} StripKeeps(s: string)
    requires Uppercase(s)
    ensures Uppercase(Strip(s))
  {
    if s != "" {
      StripKeeps(s[1..]);
    }
  }

  lemma UppercaseIs(s: string)
    ensures Uppercase(Upper(s))
    ensures Uppercase(s) ==> Upper(s) == s
  {
    UpperFacts(s);
  }

  lemma TrimKeepsUppercase(s: string)
    requires Uppercase(s)
    ensures Uppercase(Trim(s))
  {
    var i := TrimStartFrom(s);
    var j := TrimEndAt(TrimStart(s));
  }

  lemma CoreFacts(symbol: string)
    ensures Uppercase(Core(symbol)) && '/' !in Core(symbol) && '-' !in Core(symbol)
  {
    UppercaseIs(symbol);
    TrimKeepsUppercase(Upper(symbol));
    StripKeeps(Trim(Upper(symbol)));
  }

  /** Collapsing keeps a core a core and leaves nothing further to collapse. */
  lemma CollapseFacts(u: string)
    requires Uppercase(u) && '/' !in u && '-' !in u
    ensures
      var r := Collapse(u);
      && Uppercase(r) && '/' !in r && '-' !in r
      && Collapse(r) == r
      && (Trimmed(r) <==> Trimmed(u))
      && (r == "" <==> u == "")
  {
    var r := Collapse(u);
    if r != u {
      assert r[|r| - 1] == 'D';
      assert u[|u| - 1] == u[|u| - 4..][3] == 'T';
      if |u| == 4 { assert u == u[|u| - 4..]; }
    }
  }

  /** A key normalises to itself exactly when no blank was left at either end of its core: the client
      trims before it removes slashes and hyphens. */
  lemma KeyIdempotentIff(symbol: string)
    ensures NormalizeSymbolKey(NormalizeSymbolKey(symbol)) == NormalizeSymbolKey(symbol) <==> Trimmed(Core(symbol))
  {
    CoreFacts(symbol);
    CollapseFacts(Core(symbol));
    var r := NormalizeSymbolKey(symbol);
    UppercaseIs(r);
    TrimTrims(r);
    if Trimmed(r) {
      StripPlain(r);
    } else {
      TrimTrims(Trim(r));
      TrimKeepsPlain(r);
      StripPlain(Trim(r));
      CoreFacts(r);
      CollapseFacts(Core(r));
      assert Core(r) == Trim(r);
      assert Trimmed(Collapse(Core(r)));
    }
  }

  lemma TrimKeepsPlain(s: string)
    requires '/' !in s && '-' !in s
    ensures '/' !in Trim(s) && '-' !in Trim(s)
  {
    var i := TrimStartFrom(s);
    var j := TrimEndAt(TrimStart(s));
  }

  /** A symbol whose key the client can look up again. */
  predicate Tidy(symbol: string) {
    Trimmed(Core(symbol))
  }

  // ---------------------------------------------------------------- the keys of a subscribe call

  predicate Keyed(raw: string) {
    Trim(raw) != "" && NormalizeSymbolKey(raw) != ""
  }

  function KeysOf(symbols: set<string>): set<string> {
    set raw | raw in symbols && Keyed(raw) :: NormalizeSymbolKey(raw)
  }

  /** Blank symbols and repeated keys are dropped; the rest keep the order of first mention. */
  function WsSymbols(symbols: seq<string>): seq<string> {
    if symbols == [] then []
    else
      var before, raw := WsSymbols(symbols[..|symbols| - 1]), symbols[|symbols| - 1];
      if Keyed(raw) && NormalizeSymbolKey(raw) !in before then before + [NormalizeSymbolKey(raw)] else before
  }

  method NormalizeWsSubscribeSymbols(symbols: seq<string>) returns (out: seq<string>)
    ensures out == WsSymbols(symbols)
  {
    out := [];
    var seen: set<string> := {};
    for i := 0 to |symbols|
      invariant out == WsSymbols(symbols[..i])
      invariant forall k :: k in seen <==> k in out
    {
      var raw := symbols[i];
      assert symbols[..i + 1][..i] == symbols[..i];
      if Trim(raw) == "" { continue; }
      var k := NormalizeSymbolKey(raw);
      if k == "" || k in seen { continue; }
      seen := seen + {k};
      out := out + [k];
    }
    assert symbols[..|symbols|] == symbols;
  }

  function ToSet(s: seq<string>): set<string> {
    set x | x in s
  }

  /** The call's keys: one of each, and all of them. */
  lemma {:induction false} WsSymbolsExact(symbols: seq<string>)
    ensures ToSet(WsSymbols(symbols)) == KeysOf(ToSet(symbols))
    ensures forall i, j :: 0 <= i < j < |WsSymbols(symbols)| ==> WsSymbols(symbols)[i] != WsSymbols(symbols)[j]
  {
    if symbols != [] {
      var init, raw := symbols[..|symbols| - 1], symbols[|symbols| - 1];
      WsSymbolsExact(init);
      assert symbols == init + [raw];
      assert ToSet(symbols) == ToSet(init) + {raw};
      assert KeysOf(ToSet(symbols)) == KeysOf(ToSet(init)) + if Keyed(raw) then {NormalizeSymbolKey(raw)} else {};
    }
  }

  /** Keys of tidy symbols survive being normalised again. */
  lemma TidyKeysStay(keys: set<string>, k: string)
    requires k in keys && NormalizeSymbolKey(k) == k && k != ""
    ensures k in KeysOf(keys)
  {
    CoreFacts(k);
    CollapseFacts(Core(k));
    assert Trim(Upper(k)) == "" ==> Core(k) == "";
    BlankUpper(k);
  }

  lemma BlankUpper(s: string)
    requires Trim(Upper(s)) != ""
    ensures Trim(s) != ""
  {
    TrimUpper(s);
  }

  lemma {:induction false} TrimStartUpper(s: string)
    ensures TrimStart(Upper(s)) == Upper(TrimStart(s))
  {
    if s != "" {
      assert Upper(s)[1..] == Upper(s[1..]);
      if IsSpace(s[0]) { TrimStartUpper(s[1..]); }
    }
  }

  lemma {:induction false} TrimEndUpper(s: string)
    ensures TrimEnd(Upper(s)) == Upper(TrimEnd(s))
  {
    if s != "" {
      assert Upper(s)[..|s| - 1] == Upper(s[..|s| - 1]);
      if IsSpace(s[|s| - 1]) { TrimEndUpper(s[..|s| - 1]); }
    }
  }

  lemma TrimUpper(s: string)
    ensures Trim(Upper(s)) == Upper(Trim(s))
  {
    TrimStartUpper(s);
    TrimEndUpper(TrimStart(s));
  }

  // ---------------------------------------------------------------- what a key is

  lemma {:induction false} StripSplits(a: string, b: string)
    ensures Strip(a + b) == Strip(a) + Strip(b)
  {
    if a == "" {
      assert a + b == b;
    } else {
      assert (a + b)[0] == a[0] && (a + b)[1..] == a[1..] + b;
      StripSplits(a[1..], b);
    }
  }

  /** Two parts in capitals, without blanks at the ends and without slashes and hyphens, have the key of
      their concatenation, with a slash, with a hyphen or with neither between them, and with small letters
      throughout; and that key is the concatenation itself, except that a last `USDT` becomes `USD`, for all
      pairs but the euro and gold ones. */
  lemma KeyOfPair(a: string, b: string, symbol: string)
    requires Uppercase(a + b) && Trimmed(a) && Trimmed(b) && a != "" && b != ""
    requires '/' !in a + b && '-' !in a + b
    requires Upper(symbol) == a + "/" + b || Upper(symbol) == a + "-" + b || Upper(symbol) == a + b
    ensures
      var pair := a + b;
      NormalizeSymbolKey(symbol)
        == if pair != "EURUSDT" && pair != "XAUUSDT" && |pair| >= 4 && pair[|pair| - 4..] == "USDT"
           then pair[..|pair| - 1] else pair
  {
    var mid := if Upper(symbol) == a + b then "" else if Upper(symbol) == a + "/" + b then "/" else "-";
    assert Upper(symbol) == a + mid + b by { assert a + "" + b == a + b; }
    JoinTrimmed(a, mid, b);
    JoinStripped(a, mid, b);
    if EndsInUsdt(a + b) { TetherCut(a + b); }
  }

  lemma JoinTrimmed(a: string, mid: string, b: string)
    requires Trimmed(a) && Trimmed(b) && a != "" && b != ""
    ensures Trim(a + mid + b) == a + mid + b
  {
    var u := a + mid + b;
    assert u[0] == a[0] && u[|u| - 1] == b[|b| - 1];
    TrimTrims(u);
  }

  lemma JoinStripped(a: string, mid: string, b: string)
    requires '/' !in a + b && '-' !in a + b && (mid == "" || mid == "/" || mid == "-")
    ensures Strip(a + mid + b) == a + b
  {
    StripSplits(a + mid, b);
    StripSplits(a, mid);
    assert forall c :: c in a ==> c in a + b;
    assert forall c :: c in b ==> c in a + b;
    StripPlain(a);
    StripPlain(b);
    MarkStripped(mid);
  }

  lemma TetherCut(u: string)
    requires |u| >= 4 && u[|u| - 4..] == "USDT"
    ensures u[..|u| - 4] + "USD" == u[..|u| - 1]
  {
    assert u[..|u| - 1] == u[..|u| - 4] + u[|u| - 4..][..3];
  }

  lemma MarkStripped(mid: string)
    requires mid == "" || mid == "/" || mid == "-"
    ensures Strip(mid) == ""
  {
    if mid != "" { assert mid[1..] == ""; }
  }
}
