/** Best single trade over a price history (`Solution.trades_history`):
    buy at one index, sell at a strictly later one, and report the largest gain,
    or 0 when no later price exceeds an earlier one. Prices are integers. */
module Trades {

  /** `r` is the best single-trade profit of `prices`: no pair `i < j` gains more
      than `r`, `r` is never negative, and a positive `r` is achieved by some pair. */
  ghost predicate IsBestProfit(prices: seq<int>, r: int) {
    && r >= 0
    && (forall i, j :: 0 <= i < j < |prices| ==> prices[j] - prices[i] <= r)
    && (r > 0 ==> exists i, j :: 0 <= i < j < |prices| && prices[j] - prices[i] == r)
  }

  /** The specification pins the result down: two values that both meet it are equal. */
  lemma BestProfitUnique(prices: seq<int>, r1: int, r2: int)
    requires IsBestProfit(prices, r1) && IsBestProfit(prices, r2)
    ensures r1 == r2
  {
  }

  /** With fewer than two prices there is no trade, so the best profit is 0. */
  lemma ShortHistoryHasNoProfit(prices: seq<int>, r: int)
    requires |prices| < 2 && IsBestProfit(prices, r)
    ensures r == 0
  {
  }

  ghost predicate NonIncreasing(prices: seq<int>) {
    forall i, j :: 0 <= i < j < |prices| ==> prices[j] <= prices[i]
  }

  /** A price history that never rises has best profit 0, and 0 is the best profit
      only of such a history. */
  lemma NonIncreasingIffZero(prices: seq<int>)
    ensures NonIncreasing(prices) <==> IsBestProfit(prices, 0)
  {
  }

  /** The price history of the unit test, in units of 1/10000: the best trade buys
      at 0.8092 and sells at 0.9170, a profit of 0.1078. */
  lemma SampleHistoryProfit()
    ensures IsBestProfit([8092, 8304, 8182, 8650, 8852, 8939, 9170], 1078)
  {
    var p := [8092, 8304, 8182, 8650, 8852, 8939, 9170];
    assert p[6] - p[0] == 1078;
  }

  /** `Solution.trades_history`: one left-to-right pass that keeps `left` at the
      index of the smallest price seen so far and `best` at the best profit so far. */
  method TradesHistory(prices: seq<int>) returns (best: int)
    ensures IsBestProfit(prices, best)
    ensures |prices| < 2 ==> best == 0
  {
    best := 0;
    var left := 0;
    var right := 1;
    ghost var buy, sell := 0, 0;
    while right < |prices|
      invariant left < right
      invariant |prices| > 0 ==> right <= |prices|
      invariant forall k :: 0 <= k < right && k < |prices| ==> prices[left] <= prices[k]
      invariant best >= 0
      invariant forall i, j :: 0 <= i < j < right && j < |prices| ==> prices[j] - prices[i] <= best
      invariant best > 0 ==> buy < sell < right && sell < |prices| && prices[sell] - prices[buy] == best
    {
      if prices[left] < prices[right] {
        var profit := prices[right] - prices[left];
        if profit > best {
          buy, sell := left, right;
        }
        best := if best >= profit then best else profit;
      } else {
        left := right;
      }
      right := right + 1;
    }
  }
}
