/** The trade list filter of `src/components/TradingHistory.tsx`: a trade is
    shown when its type matches the selected filter and its symbol contains
    the search text, both compared in lower case. */
module TradingHistory {
  import opened Wrappers
  import opened Text
  import opened Filters

  datatype Trade = Trade(id: string, symbol: string, kind: string, price: real, quantity: real,
                         executedAt: string, profitLoss: Option<real>)

  /** The first `filter`: every trade for `all`, otherwise those whose
      lower-cased type equals the filter value. */
  predicate TypeMatches(t: Trade, filter: string) {
    filter == "all" || ToLower(t.kind) == filter
  }

  /** The second `filter`: the lower-cased symbol includes the lower-cased
      search text. */
  predicate SymbolMatches(t: Trade, searchTerm: string) {
    Contains(ToLower(t.symbol), ToLower(searchTerm))
  }

  predicate Shown(t: Trade, filter: string, searchTerm: string) {
    TypeMatches(t, filter) && SymbolMatches(t, searchTerm)
  }

  /** `filteredTrades`. */
  function FilteredTrades(trades: seq<Trade>, filter: string, searchTerm: string): seq<Trade> {
    Filter(Filter(trades, t => TypeMatches(t, filter)), t => SymbolMatches(t, searchTerm))
  }

  /** The two filters in a row keep what one filter on both tests keeps. */
  lemma {:induction false} FilteredTradesFused(trades: seq<Trade>, filter: string, searchTerm: string)
    ensures FilteredTrades(trades, filter, searchTerm) == Filter(trades, t => Shown(t, filter, searchTerm))
  {
    if trades != [] {
      FilteredTradesFused(trades[1..], filter, searchTerm);
    }
  }

  /** The result lists the shown trades in their original order, each as
      often as in the input; a trade is shown exactly when its type matches
      and the search text occurs somewhere in its symbol, ignoring case. */
  lemma FilteredTradesSpec(trades: seq<Trade>, filter: string, searchTerm: string)
    ensures var r := FilteredTrades(trades, filter, searchTerm);
      && IsSubsequence(r, trades)
      && (forall t :: multiset(r)[t] == if Shown(t, filter, searchTerm) then multiset(trades)[t] else 0)
      && (forall t :: t in r <==> t in trades && (filter == "all" || ToLower(t.kind) == filter) &&
                                   exists i :: OccursAt(ToLower(t.symbol), ToLower(searchTerm), i))
  {
    var keep := t => Shown(t, filter, searchTerm);
    FilteredTradesFused(trades, filter, searchTerm);
    FilterIsSubsequence(trades, keep);
    FilterCounts(trades, keep);
    FilterMembers(trades, keep);
    forall t: Trade
      ensures SymbolMatches(t, searchTerm) <==> exists i :: OccursAt(ToLower(t.symbol), ToLower(searchTerm), i)
    {
      ContainsIffOccurs(ToLower(t.symbol), ToLower(searchTerm));
    }
  }

  /** With filter `all` and no search text every trade is shown. */
  lemma ShowAll(trades: seq<Trade>)
    ensures FilteredTrades(trades, "all", "") == trades
  {
    FilteredTradesFused(trades, "all", "");
    forall i | 0 <= i < |trades|
      ensures Shown(trades[i], "all", "")
    {
      ContainsEmpty(ToLower(trades[i].symbol));
    }
    FilterAll(trades, t => Shown(t, "all", ""));
  }

  /** The search ignores case: search texts that lower-case alike show the
      same trades, whatever the case of the text typed. */
  lemma SearchIgnoresCase(trades: seq<Trade>, filter: string, a: string, b: string)
    requires ToLower(a) == ToLower(b)
    ensures FilteredTrades(trades, filter, a) == FilteredTrades(trades, filter, b)
    ensures FilteredTrades(trades, filter, ToUpper(a)) == FilteredTrades(trades, filter, a)
  {
    ToLowerIgnoresCase(a);
    FilteredTradesFused(trades, filter, a);
    FilteredTradesFused(trades, filter, b);
    FilteredTradesFused(trades, filter, ToUpper(a));
    FilterCongruent(trades, t => Shown(t, filter, a), t => Shown(t, filter, b));
    FilterCongruent(trades, t => Shown(t, filter, ToUpper(a)), t => Shown(t, filter, a));
  }

  /** Filtering the shown trades again shows the same trades. */
  lemma FilteredTradesIdempotent(trades: seq<Trade>, filter: string, searchTerm: string)
    ensures FilteredTrades(FilteredTrades(trades, filter, searchTerm), filter, searchTerm)
         == FilteredTrades(trades, filter, searchTerm)
  {
    var r := FilteredTrades(trades, filter, searchTerm);
    FilteredTradesFused(trades, filter, searchTerm);
    FilteredTradesFused(r, filter, searchTerm);
    FilterIdempotent(trades, t => Shown(t, filter, searchTerm));
  }
}
