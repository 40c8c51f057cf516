/**
 * The records the dashboard receives from the server (src/model/Transaction.ts) and the card
 * record the components read (id, code, balance). Amounts are integers in minor currency units.
 */
module Model {
  import opened Wrappers

  datatype TransactionType = Transfer

  datatype Transaction = Transaction(
    id: int,
    senderCardId: int,
    recipientCardId: int,
    code: string,
    kind: TransactionType,
    amount: int,
    createdAt: string)

  datatype PaginationMetadata = PaginationMetadata(
    currentPage: int,
    pageSize: int,
    totalElements: int,
    totalPages: int,
    hasNext: bool,
    hasPrevious: bool)

  datatype PagedTransactionResponse = PagedTransactionResponse(
    transactions: seq<Transaction>,
    metadata: PaginationMetadata)

  datatype Card = Card(id: int, code: string, balance: int)

  /** Index of the first card whose code is `code`, or |cards| when there is none. */
  function IndexOfCode(cards: seq<Card>, code: string): (k: nat)
    ensures k <= |cards|
    ensures k < |cards| ==> cards[k].code == code
    ensures forall j :: 0 <= j < k ==> cards[j].code != code
  {
    if cards == [] then 0
    else if cards[0].code == code then 0
    else 1 + IndexOfCode(cards[1..], code)
  }

  /** `cards.find(c => c.code === code)`: the first card with that code, if any. */
  function FindByCode(cards: seq<Card>, code: string): (r: Option<Card>)
    ensures r.None? <==> forall j :: 0 <= j < |cards| ==> cards[j].code != code
    ensures r.Some? ==> r.value.code == code && r.value in cards
    ensures r.Some? ==> exists k :: 0 <= k < |cards| && cards[k] == r.value &&
                                    forall j :: 0 <= j < k ==> cards[j].code != code
  {
    var k := IndexOfCode(cards, code);
    if k < |cards| then Some(cards[k]) else None
  }
}
