/**
 * The transactions table (src/components/Dashboard/CardTransactionsGrid.tsx): one row per
 * transaction of the requested page, signed from the card's point of view, and the page/page
 * size state the table drives.
 */
module TransactionsGrid {
  import opened Wrappers
  import opened Model
  import BalanceHistory

  datatype InOut = In | Out

  datatype Row = Row(transactionCode: string, cardCode: string, kind: InOut, amount: int, createdAt: string)

  /** `data?.transactions || []`. */
  function PageTransactions(data: Option<PagedTransactionResponse>): seq<Transaction>
  {
    if data.Some? then data.value.transactions else []
  }

  /** The row of one transaction: OUT and negated when the card is the sender, IN otherwise. */
  function ToRow(tx: Transaction, cardId: int, cardCode: string): Row
  {
    var out := tx.senderCardId == cardId;
    Row(tx.code, cardCode, if out then Out else In, if out then tx.amount * -1 else tx.amount, tx.createdAt)
  }

  /** `rowData`: exactly one row per transaction, in the same order. */
  function RowData(txs: seq<Transaction>, cardId: int, cardCode: string): (rows: seq<Row>)
    ensures |rows| == |txs|
    ensures forall i :: 0 <= i < |txs| ==>
              rows[i].transactionCode == txs[i].code && rows[i].cardCode == cardCode &&
              rows[i].createdAt == txs[i].createdAt
    ensures forall i :: 0 <= i < |txs| ==>
              (rows[i].kind == Out <==> txs[i].senderCardId == cardId) &&
              rows[i].amount == (if rows[i].kind == Out then -txs[i].amount else txs[i].amount)
  {
    if txs == [] then []
    else [ToRow(txs[0], cardId, cardCode)] + RowData(txs[1..], cardId, cardCode)
  }

  /** Each row's amount is the signed delta the balance history applies for the same card. */
  lemma RowAmountIsSignedDelta(txs: seq<Transaction>, cardId: int, cardCode: string, i: nat)
    requires i < |txs|
    ensures RowData(txs, cardId, cardCode)[i].amount == BalanceHistory.SignedDelta(txs[i], cardId)
  {
  }

  /** `getRowId`: rows are keyed by transaction code. */
  function RowId(row: Row): string
  {
    row.transactionCode
  }

  /** The grid shows one row per transaction of the page, none without data, each row keyed by
      its transaction's code. */
  lemma RowsOfPage(data: Option<PagedTransactionResponse>, cardId: int, cardCode: string)
    ensures data.None? ==> RowData(PageTransactions(data), cardId, cardCode) == []
    ensures data.Some? ==> |RowData(PageTransactions(data), cardId, cardCode)| == |data.value.transactions|
    ensures forall i :: 0 <= i < |PageTransactions(data)| ==>
              RowId(RowData(PageTransactions(data), cardId, cardCode)[i]) == PageTransactions(data)[i].code
  {
  }

  /** `data?.metadata.totalElements || 0`. */
  function RowCount(data: Option<PagedTransactionResponse>): (n: int)
    ensures data.None? ==> n == 0
    ensures data.Some? ==> n == data.value.metadata.totalElements
  {
    if data.Some? && data.value.metadata.totalElements != 0 then data.value.metadata.totalElements else 0
  }

  /** `getRowClassName`: rows alternate between "even" and "odd" within a page. */
  function RowClassName(indexRelativeToCurrentPage: nat): (cls: string)
    ensures cls == "even" || cls == "odd"
    ensures cls == "even" <==> indexRelativeToCurrentPage % 2 == 0
  {
    if indexRelativeToCurrentPage % 2 == 0 then "even" else "odd"
  }

  lemma AdjacentRowsAlternate(i: nat)
    ensures RowClassName(i) != RowClassName(i + 1)
  {
  }

  datatype PaginationModel = PaginationModel(page: int, pageSize: int)

  /** The table's pagination state. */
  class Pagination {
    var page: int
    var pageSize: int

    constructor ()
      ensures page == 0 && pageSize == 20
    {
      page := 0;
      pageSize := 20;
    }

    /** `onPaginationModelChange`: both values come from the table's model. */
    method OnPaginationModelChange(model: PaginationModel)
      modifies this
      ensures page == model.page && pageSize == model.pageSize
    {
      page := model.page;
      pageSize := model.pageSize;
    }
  }
}
