/**
 * The exchange prefix of TradingView symbols: the batch driver prefixes `CSELK:` to a company
 * symbol, and `extract_symbol_without_exchange` takes the part after the first `:`.
 */
module Symbols {
  import opened Wrappers

  const EXCHANGE := "CSELK"
  const SEPARATOR := ':'

  /** `f"CSELK:{symbol}"`. */
  function TradingViewSymbol(symbol: string): (r: string)
    ensures |r| == |symbol| + 6 && r[..6] == "CSELK:" && r[6..] == symbol
  {
    EXCHANGE + [SEPARATOR] + symbol
  }

  /** The index of the first `c` in `s`, if any. */
  function IndexOf(s: string, c: char): (r: Option<nat>)
    ensures r.None? <==> c !in s
    ensures r.Some? ==> r.value < |s| && s[r.value] == c && c !in s[..r.value]
    decreases |s|
  {
    if s == [] then None
    else if s[0] == c then Some(0)
    else match IndexOf(s[1..], c)
      case None => None
      case Some(i) =>
        assert s[..i + 1] == [s[0]] + s[1..][..i];
        Some(i + 1)
  }

  lemma {:induction false} IndexOfFirst(s: string, c: char, i: nat)
    requires i < |s| && s[i] == c && c !in s[..i]
    ensures IndexOf(s, c) == Some(i)
    decreases i
  {
    if i > 0 {
      assert s[0] == s[..i][0];
      assert s[1..][..i - 1] == s[..i][1..];
      IndexOfFirst(s[1..], c, i - 1);
    }
  }

  /** Splitting at the first separator. */
  lemma SplitConcat(head: string, c: char, tail: string)
    requires c !in head
    ensures Split(head + [c] + tail, c) == [head] + Split(tail, c)
  {
    var s := head + [c] + tail;
    assert s[|head|] == c && s[..|head|] == head;
    assert s[|head| + 1..] == tail;
    IndexOfFirst(s, c, |head|);
  }

  /** `s.split(c)` for a one-character separator: the pieces between the occurrences of `c`. */
  function Split(s: string, c: char): (pieces: seq<string>)
    ensures |pieces| >= 1
    ensures forall k :: 0 <= k < |pieces| ==> c !in pieces[k]
    decreases |s|
  {
    match IndexOf(s, c)
    case None => [s]
    case Some(i) => [s[..i]] + Split(s[i + 1..], c)
  }

  /** `c.join(pieces)`. */
  function Join(pieces: seq<string>, c: char): string
    requires |pieces| >= 1
    decreases |pieces|
  {
    if |pieces| == 1 then pieces[0] else pieces[0] + [c] + Join(pieces[1..], c)
  }

  /** Splitting loses nothing: joining the pieces gives the string back. */
  lemma {:induction false} JoinSplit(s: string, c: char)
    ensures Join(Split(s, c), c) == s
    decreases |s|
  {
    match IndexOf(s, c)
    case None =>
    case Some(i) =>
      JoinSplit(s[i + 1..], c);
      var pieces := Split(s, c);
      assert pieces[1..] == Split(s[i + 1..], c);
      assert s == s[..i] + [c] + s[i + 1..];
  }

  /** Joining pieces free of the separator and splitting again gives the pieces back. */
  lemma {:induction false} SplitJoin(pieces: seq<string>, c: char)
    requires |pieces| >= 1 && forall k :: 0 <= k < |pieces| ==> c !in pieces[k]
    ensures Split(Join(pieces, c), c) == pieces
    decreases |pieces|
  {
    if |pieces| == 1 {
      assert IndexOf(pieces[0], c).None?;
    } else {
      SplitConcat(pieces[0], c, Join(pieces[1..], c));
      SplitJoin(pieces[1..], c);
      assert pieces == [pieces[0]] + pieces[1..];
    }
  }

  /** `extract_symbol_without_exchange`: the text after the first `:` and before any second one, else the input. */
  function ExtractSymbolWithoutExchange(fullSymbol: string): (r: string)
    ensures SEPARATOR !in r
    ensures SEPARATOR !in fullSymbol ==> r == fullSymbol
  {
    if SEPARATOR in fullSymbol then
      assert |Split(fullSymbol, SEPARATOR)| >= 2;
      Split(fullSymbol, SEPARATOR)[1]
    else fullSymbol
  }

  /** With two or more separators the result is the second field: `exchange:symbol:rest` gives `symbol`. */
  lemma ExtractSecondField(exchange: string, symbol: string, rest: string)
    requires SEPARATOR !in exchange && SEPARATOR !in symbol
    ensures ExtractSymbolWithoutExchange(exchange + [SEPARATOR] + symbol + [SEPARATOR] + rest) == symbol
  {
    var after := symbol + [SEPARATOR] + rest;
    assert exchange + [SEPARATOR] + symbol + [SEPARATOR] + rest == exchange + [SEPARATOR] + after;
    SplitConcat(exchange, SEPARATOR, after);
    SplitConcat(symbol, SEPARATOR, rest);
  }

  /** With exactly one separator the result is what follows it, whatever the exchange. */
  lemma ExtractAfterColon(exchange: string, symbol: string)
    requires SEPARATOR !in exchange && SEPARATOR !in symbol
    ensures ExtractSymbolWithoutExchange(exchange + [SEPARATOR] + symbol) == symbol
  {
    SplitConcat(exchange, SEPARATOR, symbol);
    assert IndexOf(symbol, SEPARATOR).None?;
  }

  /** It inverts the driver's prefixing for every symbol without `:`. */
  lemma ExtractInvertsPrefix(symbol: string)
    requires SEPARATOR !in symbol
    ensures ExtractSymbolWithoutExchange(TradingViewSymbol(symbol)) == symbol
  {
    SplitConcat(EXCHANGE, SEPARATOR, symbol);
    assert IndexOf(symbol, SEPARATOR).None?;
  }

  /** The documented example: `CSELK:HAYL.N0000` gives `HAYL.N0000`. */
  lemma ExtractExample()
    ensures ExtractSymbolWithoutExchange("CSELK:HAYL.N0000") == "HAYL.N0000"
  {
    assert "CSELK:HAYL.N0000" == TradingViewSymbol("HAYL.N0000");
    ExtractInvertsPrefix("HAYL.N0000");
  }
}
