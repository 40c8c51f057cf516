/**
 * The balance-history chart (src/components/Dashboard/BalanceHistoryChart.tsx): the month's
 * end-of-day balances rebuilt backwards from the card's current balance, the y-axis bounds
 * padded around them, and the month deviation shown beside the chart.
 *
 * Day labels are opaque strings. `formatDay(d)` stands for the label of day `d` of the current
 * month and `labelOf(createdAt)` for the label of a transaction's timestamp; both are the same
 * date formatting in the source, which is not part of this model.
 */
module BalanceHistory {
  import opened Wrappers
  import opened Model

  // ---------------------------------------------------------------------------------------
  // Day labels of the month
  // ---------------------------------------------------------------------------------------

  /** The labels of days 1..totalDays, in order. */
  method GetDaysInMonth(totalDays: nat, formatDay: nat -> string) returns (days: seq<string>)
    ensures |days| == totalDays
    ensures forall k :: 0 <= k < totalDays ==> days[k] == formatDay(k + 1)
  {
    days := [];
    var day := 1;
    while day <= totalDays
      invariant 1 <= day <= totalDays + 1
      invariant |days| == day - 1
      invariant forall k :: 0 <= k < day - 1 ==> days[k] == formatDay(k + 1)
    {
      days := days + [formatDay(day)];
      day := day + 1;
    }
  }

  // ---------------------------------------------------------------------------------------
  // Signed deltas and per-day sums
  // ---------------------------------------------------------------------------------------

  /** The effect of one transaction on card `cardId`: minus the amount when the card sent it,
      plus the amount in every other case. */
  function SignedDelta(tx: Transaction, cardId: int): int
  {
    if tx.senderCardId == cardId then -tx.amount else tx.amount
  }

  /** The +recipient/-sender reading of a transaction: +amount when the card received it,
      -amount when the card sent it, and undefined when the card is on neither side or on both. */
  function SideDelta(tx: Transaction, cardId: int): Option<int>
  {
    if tx.recipientCardId == cardId && tx.senderCardId != cardId then Some(tx.amount)
    else if tx.senderCardId == cardId && tx.recipientCardId != cardId then Some(-tx.amount)
    else None
  }

  /** The chart's delta agrees with the +recipient/-sender reading whenever the card is on exactly
      one side; a transaction naming neither side is taken as income and a self-transfer as outgoing. */
  lemma SignedDeltaCases(tx: Transaction, cardId: int)
    ensures SideDelta(tx, cardId).Some? ==> SignedDelta(tx, cardId) == SideDelta(tx, cardId).value
    ensures tx.senderCardId != cardId && tx.recipientCardId != cardId ==>
              SideDelta(tx, cardId).None? && SignedDelta(tx, cardId) == tx.amount
    ensures tx.senderCardId == cardId && tx.recipientCardId == cardId ==>
              SideDelta(tx, cardId).None? && SignedDelta(tx, cardId) == -tx.amount
  {
  }

  /** Net of the signed deltas of the transactions whose label is `day`. */
  function DayNet(txs: seq<Transaction>, cardId: int, labelOf: string -> string, day: string): int
  {
    if txs == [] then 0
    else
      var last := txs[|txs| - 1];
      DayNet(txs[..|txs| - 1], cardId, labelOf, day)
        + (if labelOf(last.createdAt) == day then SignedDelta(last, cardId) else 0)
  }

  /** The labels that occur among the transactions. */
  function LabelsOf(txs: seq<Transaction>, labelOf: string -> string): set<string>
  {
    set i | 0 <= i < |txs| :: labelOf(txs[i].createdAt)
  }

  /** Step 1: bucket the transactions by day label, summing their signed deltas. */
  method AggregatePerDay(txs: seq<Transaction>, cardId: int, labelOf: string -> string)
    returns (dailySums: map<string, int>)
    ensures dailySums.Keys == LabelsOf(txs, labelOf)
    ensures forall day :: Get(dailySums, day).GetOr(0) == DayNet(txs, cardId, labelOf, day)
  {
    dailySums := map[];
    for i := 0 to |txs|
      invariant dailySums.Keys == LabelsOf(txs[..i], labelOf)
      invariant forall day :: Get(dailySums, day).GetOr(0) == DayNet(txs[..i], cardId, labelOf, day)
    {
      var tx := txs[i];
      var dateKey := labelOf(tx.createdAt);
      var amount := SignedDelta(tx, cardId);
      dailySums := dailySums[dateKey := Get(dailySums, dateKey).GetOr(0) + amount];
      assert txs[..i + 1][..i] == txs[..i];
      assert LabelsOf(txs[..i + 1], labelOf) == LabelsOf(txs[..i], labelOf) + {dateKey} by {
        var prefix := txs[..i + 1];
        forall l | l in LabelsOf(prefix, labelOf)
          ensures l in LabelsOf(txs[..i], labelOf) + {dateKey}
        {
          var j :| 0 <= j < |prefix| && labelOf(prefix[j].createdAt) == l;
          if j < i {
            assert txs[..i][j] == prefix[j];
          }
        }
        assert prefix[i] == tx;
      }
    }
    assert txs[..|txs|] == txs;
  }

  // ---------------------------------------------------------------------------------------
  // Reconstruction
  // ---------------------------------------------------------------------------------------

  /** Sum of the day nets of the labels days[lo..hi). */
  function NetBetween(txs: seq<Transaction>, cardId: int, labelOf: string -> string,
                      days: seq<string>, lo: nat, hi: nat): int
    requires hi <= |days|
    decreases hi - lo
  {
    if lo >= hi then 0
    else DayNet(txs, cardId, labelOf, days[lo]) + NetBetween(txs, cardId, labelOf, days, lo + 1, hi)
  }

  /** The balance at the end of day index `k` (0-based): the current balance minus the net of
      every later elapsed day. */
  function BalanceOnDay(txs: seq<Transaction>, cardId: int, labelOf: string -> string,
                        currentBalance: int, currentDay: nat, days: seq<string>, k: nat): int
    requires currentDay <= |days|
  {
    currentBalance - NetBetween(txs, cardId, labelOf, days, k + 1, currentDay)
  }

  /** Steps 2 and 3: walk from the current day back to day 1 recording the running balance,
      then subtracting that day's net, and reverse the recorded values. */
  method CalculateBalanceValuesPerDay(txs: seq<Transaction>, cardId: int, currentBalance: int,
                                      currentDay: nat, days: seq<string>, labelOf: string -> string)
    returns (balances: seq<int>)
    requires currentDay <= |days|
    ensures |balances| == currentDay
    ensures forall k :: 0 <= k < currentDay ==>
              balances[k] == BalanceOnDay(txs, cardId, labelOf, currentBalance, currentDay, days, k)
  {
    var dailySums := AggregatePerDay(txs, cardId, labelOf);
    var balancesReversed: seq<int> := [];
    var runningBalance := currentBalance;
    var i: int := currentDay - 1;
    while i >= 0
      invariant -1 <= i < currentDay
      invariant |balancesReversed| == currentDay - 1 - i
      invariant runningBalance == currentBalance - NetBetween(txs, cardId, labelOf, days, i + 1, currentDay)
      invariant forall j :: 0 <= j < |balancesReversed| ==>
                  balancesReversed[j] == currentBalance - NetBetween(txs, cardId, labelOf, days, currentDay - j, currentDay)
    {
      var dateLabel := days[i];
      var dailyDeviation := Get(dailySums, dateLabel).GetOr(0);  // a missing bucket reads as 0
      balancesReversed := balancesReversed + [runningBalance];
      runningBalance := runningBalance - dailyDeviation;
      i := i - 1;
    }
    balances := Reverse(balancesReversed);
  }

  /** `Array.prototype.reverse` on a sequence. */
  function Reverse(s: seq<int>): (r: seq<int>)
    ensures |r| == |s|
    ensures forall k :: 0 <= k < |s| ==> r[k] == s[|s| - 1 - k]
  {
    if s == [] then [] else Reverse(s[1..]) + [s[0]]
  }

  /** The last elapsed day shows the current balance. */
  lemma LastDayIsCurrentBalance(txs: seq<Transaction>, cardId: int, labelOf: string -> string,
                                currentBalance: int, currentDay: nat, days: seq<string>)
    requires 1 <= currentDay <= |days|
    ensures BalanceOnDay(txs, cardId, labelOf, currentBalance, currentDay, days, currentDay - 1) == currentBalance
  {
  }

  /** Day over day, the balance moves by exactly the net of the later day's bucket. */
  lemma DayOverDayDelta(txs: seq<Transaction>, cardId: int, labelOf: string -> string,
                        currentBalance: int, currentDay: nat, days: seq<string>, i: nat)
    requires currentDay <= |days|
    requires 1 <= i < currentDay
    ensures BalanceOnDay(txs, cardId, labelOf, currentBalance, currentDay, days, i)
              - BalanceOnDay(txs, cardId, labelOf, currentBalance, currentDay, days, i - 1)
            == DayNet(txs, cardId, labelOf, days[i])
  {
  }

  lemma {:induction false} NetBetweenOfNoTransactions(cardId: int, labelOf: string -> string,
                                                      days: seq<string>, lo: nat, hi: nat)
    requires hi <= |days|
    ensures NetBetween([], cardId, labelOf, days, lo, hi) == 0
    decreases hi - lo
  {
    if lo < hi {
      NetBetweenOfNoTransactions(cardId, labelOf, days, lo + 1, hi);
    }
  }

  /** With no transactions every day shows the current balance. */
  lemma NoTransactionsGiveFlatSeries(cardId: int, labelOf: string -> string,
                                     currentBalance: int, currentDay: nat, days: seq<string>)
    requires currentDay <= |days|
    ensures forall k :: 0 <= k < currentDay ==>
              BalanceOnDay([], cardId, labelOf, currentBalance, currentDay, days, k) == currentBalance
  {
    forall k | 0 <= k < currentDay
      ensures BalanceOnDay([], cardId, labelOf, currentBalance, currentDay, days, k) == currentBalance
    {
      NetBetweenOfNoTransactions(cardId, labelOf, days, k + 1, currentDay);
    }
  }

  lemma {:induction false} NetBetweenDependsOnlyOnItsDays(
    txs1: seq<Transaction>, txs2: seq<Transaction>, cardId: int, labelOf: string -> string,
    days: seq<string>, lo: nat, hi: nat)
    requires hi <= |days|
    requires forall j :: lo <= j < hi ==>
               DayNet(txs1, cardId, labelOf, days[j]) == DayNet(txs2, cardId, labelOf, days[j])
    ensures NetBetween(txs1, cardId, labelOf, days, lo, hi) == NetBetween(txs2, cardId, labelOf, days, lo, hi)
    decreases hi - lo
  {
    if lo < hi {
      NetBetweenDependsOnlyOnItsDays(txs1, txs2, cardId, labelOf, days, lo + 1, hi);
    }
  }

  /** Day 1's own bucket is never read: two ledgers whose nets agree on the elapsed days after
      the first give the same series. */
  lemma FirstDayNetNeverMatters(txs1: seq<Transaction>, txs2: seq<Transaction>, cardId: int,
                                labelOf: string -> string, currentBalance: int, currentDay: nat,
                                days: seq<string>)
    requires currentDay <= |days|
    requires forall j :: 1 <= j < currentDay ==>
               DayNet(txs1, cardId, labelOf, days[j]) == DayNet(txs2, cardId, labelOf, days[j])
    ensures forall k :: 0 <= k < currentDay ==>
              BalanceOnDay(txs1, cardId, labelOf, currentBalance, currentDay, days, k)
              == BalanceOnDay(txs2, cardId, labelOf, currentBalance, currentDay, days, k)
  {
    forall k | 0 <= k < currentDay
      ensures BalanceOnDay(txs1, cardId, labelOf, currentBalance, currentDay, days, k)
              == BalanceOnDay(txs2, cardId, labelOf, currentBalance, currentDay, days, k)
    {
      NetBetweenDependsOnlyOnItsDays(txs1, txs2, cardId, labelOf, days, k + 1, currentDay);
    }
  }

  /** A transaction labelled with day 1, or with no elapsed day after it, changes nothing. */
  lemma TransactionOutsideLaterElapsedDaysChangesNothing(
    txs: seq<Transaction>, tx: Transaction, cardId: int, labelOf: string -> string,
    currentBalance: int, currentDay: nat, days: seq<string>)
    requires 1 <= currentDay <= |days|
    requires labelOf(tx.createdAt) !in days[1..currentDay]
    ensures forall k :: 0 <= k < currentDay ==>
              BalanceOnDay(txs + [tx], cardId, labelOf, currentBalance, currentDay, days, k)
              == BalanceOnDay(txs, cardId, labelOf, currentBalance, currentDay, days, k)
  {
    var ext := txs + [tx];
    assert ext[..|ext| - 1] == txs;
    forall j | 1 <= j < currentDay
      ensures DayNet(ext, cardId, labelOf, days[j]) == DayNet(txs, cardId, labelOf, days[j])
    {
      assert days[j] == days[1..currentDay][j - 1];
    }
    FirstDayNetNeverMatters(ext, txs, cardId, labelOf, currentBalance, currentDay, days);
  }

  // ---------------------------------------------------------------------------------------
  // Month deviation
  // ---------------------------------------------------------------------------------------

  /** `balance - (series.at(0) ?? 0)`. */
  function DeviationValue(series: seq<int>, balance: int): int
  {
    balance - (if |series| > 0 then series[0] else 0)
  }

  /** `deviation * 100 / start`, or 0 when the month started at 0. */
  function DeviationPercentage(deviation: int, start: int): (pct: real)
    ensures start == 0 ==> pct == 0.0
    ensures start != 0 ==> pct * (start as real) == (deviation * 100) as real
  {
    if start != 0 then (deviation * 100) as real / start as real else 0.0
  }

  /** The deviation of a reconstructed month is the net of the elapsed days after the first. */
  lemma DeviationIsNetAfterFirstDay(txs: seq<Transaction>, cardId: int, labelOf: string -> string,
                                    currentBalance: int, currentDay: nat, days: seq<string>,
                                    series: seq<int>)
    requires 1 <= currentDay <= |days|
    requires |series| == currentDay
    requires forall k :: 0 <= k < currentDay ==>
               series[k] == BalanceOnDay(txs, cardId, labelOf, currentBalance, currentDay, days, k)
    ensures DeviationValue(series, currentBalance) == NetBetween(txs, cardId, labelOf, days, 1, currentDay)
  {
  }

  /** Sum of the signed deltas of the transactions whose label lies in `labels`. */
  function FlowWithin(txs: seq<Transaction>, cardId: int, labelOf: string -> string, labels: set<string>): int
  {
    if txs == [] then 0
    else
      var last := txs[|txs| - 1];
      FlowWithin(txs[..|txs| - 1], cardId, labelOf, labels)
        + (if labelOf(last.createdAt) in labels then SignedDelta(last, cardId) else 0)
  }

  predicate DistinctLabels(days: seq<string>, lo: nat, hi: nat)
    requires hi <= |days|
  {
    forall i, j :: lo <= i < j < hi ==> days[i] != days[j]
  }

  lemma {:induction false} NetBetweenStep(txs: seq<Transaction>, tx: Transaction, cardId: int,
                                          labelOf: string -> string, days: seq<string>, lo: nat, hi: nat)
    requires hi <= |days|
    requires DistinctLabels(days, lo, hi)
    ensures NetBetween(txs + [tx], cardId, labelOf, days, lo, hi)
            == NetBetween(txs, cardId, labelOf, days, lo, hi)
               + (if labelOf(tx.createdAt) in (set j | lo <= j < hi :: days[j]) then SignedDelta(tx, cardId) else 0)
    decreases hi - lo
  {
    var ext := txs + [tx];
    assert ext[..|ext| - 1] == txs;
    if lo < hi {
      NetBetweenStep(txs, tx, cardId, labelOf, days, lo + 1, hi);
      var here := set j | lo <= j < hi :: days[j];
      var later := set j | lo + 1 <= j < hi :: days[j];
      assert here == later + {days[lo]};
      assert days[lo] !in later;
    }
  }

  /** When the month's labels are distinct, the deviation counts every transaction labelled
      with an elapsed day after the first, each exactly once. */
  lemma {:induction false} NetBetweenIsFlow(txs: seq<Transaction>, cardId: int, labelOf: string -> string,
                                            days: seq<string>, lo: nat, hi: nat)
    requires hi <= |days|
    requires DistinctLabels(days, lo, hi)
    ensures NetBetween(txs, cardId, labelOf, days, lo, hi)
            == FlowWithin(txs, cardId, labelOf, set j | lo <= j < hi :: days[j])
    decreases |txs|
  {
    if txs == [] {
      NetBetweenOfNoTransactions(cardId, labelOf, days, lo, hi);
    } else {
      var prefix := txs[..|txs| - 1];
      var last := txs[|txs| - 1];
      assert prefix + [last] == txs;
      NetBetweenIsFlow(prefix, cardId, labelOf, days, lo, hi);
      NetBetweenStep(prefix, last, cardId, labelOf, days, lo, hi);
    }
  }

  // ---------------------------------------------------------------------------------------
  // Y-axis scaling
  // ---------------------------------------------------------------------------------------

  /** `Math.min(...s)` on a non-empty series. */
  function Minimum(s: seq<int>): (m: int)
    requires s != []
    ensures m in s
    ensures forall i :: 0 <= i < |s| ==> m <= s[i]
  {
    if |s| == 1 then s[0]
    else
      var rest := Minimum(s[1..]);
      if s[0] <= rest then s[0] else rest
  }

  /** `Math.max(...s)` on a non-empty series. */
  function Maximum(s: seq<int>): (m: int)
    requires s != []
    ensures m in s
    ensures forall i :: 0 <= i < |s| ==> s[i] <= m
  {
    if |s| == 1 then s[0]
    else
      var rest := Maximum(s[1..]);
      if s[0] >= rest then s[0] else rest
  }

  datatype Axis = Axis(min: real, max: real)

  /** The y-axis domain: the series range widened by a tenth of its width on each side. An empty
      series has no finite domain. */
  function YAxisBounds(series: seq<int>): (axis: Option<Axis>)
    ensures axis.None? <==> series == []
    ensures axis.Some? ==>
              forall i :: 0 <= i < |series| ==> axis.value.min <= series[i] as real <= axis.value.max
    ensures axis.Some? ==>
              (axis.value.min == axis.value.max <==> forall i :: 0 <= i < |series| ==> series[i] == series[0])
  {
    if series == [] then None
    else
      var yMin := Minimum(series) as real;
      var yMax := Maximum(series) as real;
      var yPadding := (yMax - yMin) * 0.1;
      Some(Axis(yMin - yPadding, yMax + yPadding))
  }

  /** The padding is a tenth of the range on each side; for [80, 100, 120] the domain is [76, 124]. */
  lemma YAxisPadding(series: seq<int>)
    requires series != []
    ensures YAxisBounds(series).Some?
    ensures YAxisBounds(series).value.min == Minimum(series) as real - (Maximum(series) - Minimum(series)) as real / 10.0
    ensures YAxisBounds(series).value.max == Maximum(series) as real + (Maximum(series) - Minimum(series)) as real / 10.0
    ensures series == [80, 100, 120] ==> YAxisBounds(series) == Some(Axis(76.0, 124.0))
  {
    if series == [80, 100, 120] {
      assert Minimum(series) == 80 by {
        assert Minimum(series[1..]) == 100 by { assert series[1..][1..] == [120]; }
      }
      assert Maximum(series) == 120 by {
        assert Maximum(series[1..]) == 120 by { assert series[1..][1..] == [120]; }
      }
      var axis := YAxisBounds(series);
      assert (120.0 - 80.0) * 0.1 == 4.0;
      assert axis.value.min == 80.0 - 4.0;
      assert axis.value.max == 120.0 + 4.0;
    }
  }

  // ---------------------------------------------------------------------------------------
  // Worked example
  // ---------------------------------------------------------------------------------------

  /** The example's timestamps are already day labels. */
  function DayLabelIsTimestamp(createdAt: string): string
  {
    createdAt
  }

  /** Card 1 holds 1000 on day 10; it received 200 on day 9 and sent 50 on day 10. Days 1-8
      show 850, day 9 shows 1050 and day 10 shows 1000. */
  lemma WorkedExample()
    ensures var days := ["d1", "d2", "d3", "d4", "d5", "d6", "d7", "d8", "d9", "d10"];
            var txs := [Transaction(1, 2, 1, "T1", Transfer, 200, "d9"),
                        Transaction(2, 1, 3, "T2", Transfer, 50, "d10")];
            (forall k :: 0 <= k < 8 ==> BalanceOnDay(txs, 1, DayLabelIsTimestamp, 1000, 10, days, k) == 850)
            && BalanceOnDay(txs, 1, DayLabelIsTimestamp, 1000, 10, days, 8) == 1050
            && BalanceOnDay(txs, 1, DayLabelIsTimestamp, 1000, 10, days, 9) == 1000
  {
    var days := ["d1", "d2", "d3", "d4", "d5", "d6", "d7", "d8", "d9", "d10"];
    var txs := [Transaction(1, 2, 1, "T1", Transfer, 200, "d9"),
                Transaction(2, 1, 3, "T2", Transfer, 50, "d10")];
    var labelOf: string -> string := DayLabelIsTimestamp;
    assert txs[..1] == [txs[0]] && txs[..1][..0] == [];
    assert DayNet(txs, 1, labelOf, "d10") == -50;
    assert DayNet(txs, 1, labelOf, "d9") == 200;
    assert NetBetween(txs, 1, labelOf, days, 9, 10) == -50;
    assert NetBetween(txs, 1, labelOf, days, 8, 10) == 150;
    forall k | 0 <= k < 8
      ensures BalanceOnDay(txs, 1, labelOf, 1000, 10, days, k) == 850
    {
      forall j | k + 1 <= j < 8
        ensures DayNet(txs, 1, labelOf, days[j]) == DayNet([], 1, labelOf, days[j])
      {
      }
      NetBetweenDependsOnlyOnItsDays(txs, [], 1, labelOf, days, k + 1, 8);
      NetBetweenOfNoTransactions(1, labelOf, days, k + 1, 8);
      NetBetweenSplit(txs, 1, labelOf, days, k + 1, 8, 10);
    }
  }

  lemma {:induction false} NetBetweenSplit(txs: seq<Transaction>, cardId: int, labelOf: string -> string,
                                           days: seq<string>, lo: nat, mid: nat, hi: nat)
    requires lo <= mid <= hi <= |days|
    ensures NetBetween(txs, cardId, labelOf, days, lo, hi)
            == NetBetween(txs, cardId, labelOf, days, lo, mid) + NetBetween(txs, cardId, labelOf, days, mid, hi)
    decreases mid - lo
  {
    if lo < mid {
      NetBetweenSplit(txs, cardId, labelOf, days, lo + 1, mid, hi);
    }
  }
}
