/**
 * engine.py `DataFetcher.classify_asset`: a symbol quoted against the dollar with a
 * `-USD` suffix (in either case) is crypto, one of eighteen well-known funds is an ETF,
 * anything else a stock.
 */
module Assets {
  import opened Common

  /** The funds the source lists as ETFs. */
  const Etfs: set<string> := {"SPY", "QQQ", "IWM", "DIA", "VTI", "VOO", "XLF", "XLE", "XLK",
                              "XLV", "ARKK", "ARKG", "GLD", "SLV", "TLT", "HYG", "VNQ", "EEM"}

  /** Python's `sub in s` on strings: `sub` occurs somewhere in `s`. */
  function Contains(s: string, sub: string): (r: bool)
    ensures r <==> OccursAt(s, sub)
    decreases |s|
  {
    if |sub| > |s| then false
    else if s[..|sub|] == sub then assert MatchesAt(s, sub, 0); true
    else
      OccursInTail(s, sub);
      Contains(s[1..], sub)
  }

  predicate MatchesAt(s: string, sub: string, i: nat) {
    i + |sub| <= |s| && s[i..i + |sub|] == sub
  }

  ghost predicate OccursAt(s: string, sub: string) {
    exists i: nat :: MatchesAt(s, sub, i)
  }

  /** Past a mismatching first position, `sub` occurs in `s` exactly when it occurs in its tail. */
  lemma OccursInTail(s: string, sub: string)
    requires |sub| <= |s| && s[..|sub|] != sub
    ensures OccursAt(s, sub) <==> OccursAt(s[1..], sub)
  {
    if OccursAt(s[1..], sub) {
      var i: nat :| MatchesAt(s[1..], sub, i);
      assert s[i + 1..i + 1 + |sub|] == s[1..][i..i + |sub|];
      assert MatchesAt(s, sub, i + 1);
    }
    if OccursAt(s, sub) {
      var i: nat :| MatchesAt(s, sub, i);
      assert i > 0;
      assert s[1..][i - 1..i - 1 + |sub|] == s[i..i + |sub|];
      assert MatchesAt(s[1..], sub, i - 1);
    }
  }

  /** `str.upper` on the ASCII letters; every other character is kept. */
  function UpperChar(c: char): char {
    if 'a' <= c <= 'z' then (c as int - 32) as char else c
  }

  function Upper(s: string): (r: string)
    ensures |r| == |s| && forall k :: 0 <= k < |s| ==> r[k] == UpperChar(s[k])
  {
    seq(|s|, k requires 0 <= k < |s| => UpperChar(s[k]))
  }

  function IsCryptoSymbol(symbol: string): bool {
    Contains(symbol, "-USD") || Contains(symbol, "-usd")
  }

  function ClassifyAsset(symbol: string): (r: AssetType)
    ensures r == Crypto <==> IsCryptoSymbol(symbol)
    ensures r == Etf <==> !IsCryptoSymbol(symbol) && Upper(symbol) in Etfs
  {
    if IsCryptoSymbol(symbol) then Crypto
    else if Upper(symbol) in Etfs then Etf
    else Stock
  }

  /** Upper-casing twice is upper-casing once. */
  lemma UpperIdempotent(s: string)
    ensures Upper(Upper(s)) == Upper(s)
  {
  }

  /** A symbol is an ETF exactly when its upper-cased spelling is one, unless it names crypto. */
  lemma EtfIgnoresCase(symbol: string)
    requires !IsCryptoSymbol(symbol) && !IsCryptoSymbol(Upper(symbol))
    ensures ClassifyAsset(symbol) == ClassifyAsset(Upper(symbol))
  {
    UpperIdempotent(symbol);
  }

  lemma ClassifyCryptoExample()
    ensures ClassifyAsset("BTC-USD") == Crypto && ClassifyAsset("eth-usd") == Crypto
  {
    assert MatchesAt("BTC-USD", "-USD", 3);
    assert MatchesAt("eth-usd", "-usd", 3);
  }

  lemma ClassifyEtfExample()
    ensures ClassifyAsset("spy") == Etf
  {
    assert !Contains("spy", "-USD") && !Contains("spy", "-usd");
    assert Upper("spy") == "SPY";
  }

  lemma ClassifyStockExample()
    ensures ClassifyAsset("AAPL") == Stock
  {
    assert "AAPL"[..4][0] != "-USD"[0] && "AAPL"[..4][0] != "-usd"[0];
    assert !Contains("AAPL", "-USD") && !Contains("AAPL", "-usd");
    assert Upper("AAPL") == "AAPL";
  }
}
