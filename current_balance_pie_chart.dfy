/**
 * The balance pie chart (src/components/Dashboard/CurrentBalancePieChart.tsx): this month's
 * incomes and expenses of the current card, accumulated over the month's transactions.
 */
module PieChart {
  import opened Wrappers
  import opened Model
  import BalanceHistory

  /** Sum of the amounts the card received. */
  function Income(txs: seq<Transaction>, cardId: int): int
  {
    if txs == [] then 0
    else
      var last := txs[|txs| - 1];
      Income(txs[..|txs| - 1], cardId) + (if last.recipientCardId == cardId then last.amount else 0)
  }

  /** Sum of the amounts the card sent to another card; a self-transfer is not an expense. */
  function Expense(txs: seq<Transaction>, cardId: int): int
  {
    if txs == [] then 0
    else
      var last := txs[|txs| - 1];
      Expense(txs[..|txs| - 1], cardId)
        + (if last.recipientCardId != cardId && last.senderCardId == cardId then last.amount else 0)
  }

  /** The accumulation loop; `data` is absent until the query has answered. */
  method Totals(data: Option<seq<Transaction>>, cardId: int) returns (totalExpense: int, totalIncome: int)
    ensures data.None? ==> totalExpense == 0 && totalIncome == 0
    ensures data.Some? ==> totalIncome == Income(data.value, cardId) && totalExpense == Expense(data.value, cardId)
  {
    totalExpense := 0;
    totalIncome := 0;
    if data.Some? {
      var txs := data.value;
      for i := 0 to |txs|
        invariant totalIncome == Income(txs[..i], cardId)
        invariant totalExpense == Expense(txs[..i], cardId)
      {
        var transaction := txs[i];
        assert txs[..i + 1][..i] == txs[..i];
        if transaction.recipientCardId == cardId {
          totalIncome := totalIncome + transaction.amount;
        } else if transaction.senderCardId == cardId {
          totalExpense := totalExpense + transaction.amount;
        }
      }
      assert txs[..|txs|] == txs;
    }
  }

  /** One more transaction: a self-transfer adds only to incomes, one naming neither side adds
      to nothing. */
  lemma AppendTransaction(txs: seq<Transaction>, tx: Transaction, cardId: int)
    ensures tx.recipientCardId == cardId ==>
              Income(txs + [tx], cardId) == Income(txs, cardId) + tx.amount &&
              Expense(txs + [tx], cardId) == Expense(txs, cardId)
    ensures tx.recipientCardId != cardId && tx.senderCardId == cardId ==>
              Income(txs + [tx], cardId) == Income(txs, cardId) &&
              Expense(txs + [tx], cardId) == Expense(txs, cardId) + tx.amount
    ensures tx.recipientCardId != cardId && tx.senderCardId != cardId ==>
              Income(txs + [tx], cardId) == Income(txs, cardId) &&
              Expense(txs + [tx], cardId) == Expense(txs, cardId)
  {
    assert (txs + [tx])[..|txs|] == txs;
  }

  /** Sum of the balance chart's signed deltas over the transactions. */
  function SignedFlow(txs: seq<Transaction>, cardId: int): int
  {
    if txs == [] then 0
    else SignedFlow(txs[..|txs| - 1], cardId) + BalanceHistory.SignedDelta(txs[|txs| - 1], cardId)
  }

  /** The two charts agree when each transaction names the card on exactly one side: incomes
      minus expenses is the net the balance history applies. */
  lemma {:induction false} PieAgreesWithBalanceHistory(txs: seq<Transaction>, cardId: int)
    requires forall i :: 0 <= i < |txs| ==> (txs[i].senderCardId == cardId) != (txs[i].recipientCardId == cardId)
    ensures Income(txs, cardId) - Expense(txs, cardId) == SignedFlow(txs, cardId)
    decreases |txs|
  {
    if txs != [] {
      var prefix := txs[..|txs| - 1];
      assert forall i :: 0 <= i < |prefix| ==> prefix[i] == txs[i];
      PieAgreesWithBalanceHistory(prefix, cardId);
    }
  }

  /** They disagree on a self-transfer: the pie counts it as income, the history as outgoing. */
  lemma SelfTransferDisagreement(tx: Transaction, cardId: int)
    requires tx.senderCardId == cardId && tx.recipientCardId == cardId && tx.amount > 0
    ensures Income([tx], cardId) - Expense([tx], cardId) == tx.amount
    ensures SignedFlow([tx], cardId) == -tx.amount
  {
    assert [tx][..0] == [];
  }

  datatype Slice = Slice(id: string, legend: string, value: int)  // `label` in the source

  /** `!!currentCard?.id`: the query runs only for a current card with a non-zero id. */
  function QueryEnabled(current: Option<Card>): (enabled: bool)
    ensures enabled ==> current.Some?
    ensures enabled <==> current.Some? && current.value.id != 0
  {
    match current
    case None => false
    case Some(c) => c.id != 0
  }

  /** The chart's data: nothing without a current card, otherwise expenses then incomes. */
  method Render(current: Option<Card>, data: Option<seq<Transaction>>) returns (chartData: Option<seq<Slice>>)
    ensures chartData.None? <==> current.None?
    ensures current.Some? ==>
              var txs := if data.Some? then data.value else [];
              |chartData.value| == 2 &&
              chartData.value[0].id == "expenses" && chartData.value[0].value == Expense(txs, current.value.id) &&
              chartData.value[1].id == "incomes" && chartData.value[1].value == Income(txs, current.value.id)
  {
    if current.None? {
      return None;
    }
    var totalExpense, totalIncome := Totals(data, current.value.id);
    chartData := Some([
      Slice("expenses", "Total expenses this month", totalExpense),
      Slice("incomes", "Total incomes this month", totalIncome)
    ]);
  }
}
