/**
 * The card context (src/components/Context/CardContext.tsx): the list of the user's cards, the
 * current card, and the default rule that, while no card is current, picks the card with the
 * largest balance from a copy of the list sorted by descending balance.
 */
module CardContext {
  import opened Wrappers
  import opened Model

  // ---------------------------------------------------------------------------------------
  // The stable descending sort of the default rule
  // ---------------------------------------------------------------------------------------

  /** Inserts `c` before the first card whose balance does not exceed its own. */
  function InsertByBalance(c: Card, sorted: seq<Card>): (r: seq<Card>)
    ensures multiset(r) == multiset(sorted) + multiset{c}
    ensures |r| == |sorted| + 1
  {
    if sorted == [] || sorted[0].balance <= c.balance then [c] + sorted
    else
      assert sorted == [sorted[0]] + sorted[1..];
      [sorted[0]] + InsertByBalance(c, sorted[1..])
  }

  /** `[...cards].sort((a, b) => b.balance - a.balance)`: a stable sort by descending balance,
      built by inserting each card in front of the cards that come after it in the list. */
  function SortByBalanceDesc(cards: seq<Card>): (sorted: seq<Card>)
    ensures multiset(sorted) == multiset(cards)
    ensures |sorted| == |cards|
  {
    if cards == [] then []
    else
      assert cards == [cards[0]] + cards[1..];
      InsertByBalance(cards[0], SortByBalanceDesc(cards[1..]))
  }

  predicate DescendingByBalance(s: seq<Card>)
  {
    forall i, j :: 0 <= i < j < |s| ==> s[i].balance >= s[j].balance
  }

  /** Inserting a card no richer than `bound` into cards no richer than `bound` gives cards no
      richer than `bound`. */
  lemma {:induction false} InsertBounded(c: Card, sorted: seq<Card>, bound: int)
    requires c.balance <= bound
    requires forall i :: 0 <= i < |sorted| ==> sorted[i].balance <= bound
    ensures forall i :: 0 <= i < |InsertByBalance(c, sorted)| ==> InsertByBalance(c, sorted)[i].balance <= bound
    decreases |sorted|
  {
    if sorted != [] && sorted[0].balance > c.balance {
      InsertBounded(c, sorted[1..], bound);
    }
  }

  lemma {:induction false} InsertKeepsDescending(c: Card, sorted: seq<Card>)
    requires DescendingByBalance(sorted)
    ensures DescendingByBalance(InsertByBalance(c, sorted))
    decreases |sorted|
  {
    if sorted == [] || sorted[0].balance <= c.balance {
    } else {
      InsertKeepsDescending(c, sorted[1..]);
      InsertBounded(c, sorted[1..], sorted[0].balance);
      var tail := InsertByBalance(c, sorted[1..]);
      var r := [sorted[0]] + tail;
      assert r == InsertByBalance(c, sorted);
      forall i, j | 0 <= i < j < |r|
        ensures r[i].balance >= r[j].balance
      {
        assert r[j] == tail[j - 1];
        if i > 0 {
          assert r[i] == tail[i - 1];
        }
      }
    }
  }

  /** The copy is sorted by descending balance. */
  lemma {:induction false} SortIsDescending(cards: seq<Card>)
    ensures DescendingByBalance(SortByBalanceDesc(cards))
    decreases |cards|
  {
    if cards != [] {
      SortIsDescending(cards[1..]);
      InsertKeepsDescending(cards[0], SortByBalanceDesc(cards[1..]));
    }
  }

  /** Index of the first card holding the largest balance. */
  function FirstMaxIndex(cards: seq<Card>): (k: nat)
    requires cards != []
    ensures k < |cards|
    ensures forall i :: 0 <= i < |cards| ==> cards[i].balance <= cards[k].balance
    ensures forall i :: 0 <= i < k ==> cards[i].balance < cards[k].balance
  {
    if |cards| == 1 then 0
    else
      var k := FirstMaxIndex(cards[1..]);
      if cards[0].balance >= cards[1 + k].balance then 0 else 1 + k
  }

  /** The head of the sorted copy is the first card with the largest balance: ties go to the
      earliest card in list order. */
  lemma {:induction false} SortedHeadIsFirstMax(cards: seq<Card>)
    requires cards != []
    ensures SortByBalanceDesc(cards)[0] == cards[FirstMaxIndex(cards)]
    decreases |cards|
  {
    if |cards| > 1 {
      SortedHeadIsFirstMax(cards[1..]);
      var rest := SortByBalanceDesc(cards[1..]);
      assert rest[0] == cards[1..][FirstMaxIndex(cards[1..])];
    }
  }

  // ---------------------------------------------------------------------------------------
  // The default rule
  // ---------------------------------------------------------------------------------------

  /** The current card after the default rule's effect has run on `cards` and `current`. */
  function DefaultSelection(cards: seq<Card>, current: Option<Card>): (next: Option<Card>)
    ensures cards == [] || current.Some? ==> next == current
    ensures cards != [] && current.None? ==>
              next.Some? && next.value in cards &&
              (forall i :: 0 <= i < |cards| ==> cards[i].balance <= next.value.balance) &&
              next.value == cards[FirstMaxIndex(cards)]
  {
    if |cards| > 0 && current.None? then
      SortedHeadIsFirstMax(cards);
      var sorted := SortByBalanceDesc(cards);
      Some(sorted[0])
    else current
  }

  /** The rule reaches a fixed point after one run, and fires again whenever the current card is
      set back to null while cards are loaded. */
  lemma DefaultSelectionSettles(cards: seq<Card>, current: Option<Card>, chosen: Card)
    ensures DefaultSelection(cards, DefaultSelection(cards, current)) == DefaultSelection(cards, current)
    ensures cards != [] ==> DefaultSelection(cards, Some(chosen)) == Some(chosen)
    ensures cards != [] ==> DefaultSelection(cards, None) == Some(cards[FirstMaxIndex(cards)])
  {
  }

  /** Balances 100, 500, 500: the card at index 1 is chosen. */
  lemma DefaultSelectionExample(a: Card, b: Card, c: Card)
    requires a.balance == 100 && b.balance == 500 && c.balance == 500
    ensures DefaultSelection([a, b, c], None) == Some(b)
  {
    var cards := [a, b, c];
    assert cards[1..][1..] == [c];
    assert FirstMaxIndex(cards[1..]) == 0;
  }

  /** The state of the cards query; while loading or failed the list reads as empty. */
  datatype CardsQuery = Loading | Failed | Loaded(cards: seq<Card>)

  function CardsOf(q: CardsQuery): seq<Card>
  {
    if q.Loaded? then q.cards else []
  }

  /** No card is chosen while the list is loading or failed. */
  lemma NoSelectionWithoutCards(q: CardsQuery)
    requires !q.Loaded?
    ensures DefaultSelection(CardsOf(q), None) == None
  {
  }

  // ---------------------------------------------------------------------------------------
  // The provider's state
  // ---------------------------------------------------------------------------------------

  class CardProvider {
    var cards: seq<Card>
    var currentCard: Option<Card>

    constructor (q: CardsQuery)
      ensures cards == CardsOf(q) && currentCard == None
    {
      cards := CardsOf(q);
      currentCard := None;
    }

    /** The query settles with a new result. */
    method QuerySettled(q: CardsQuery)
      modifies this
      ensures cards == CardsOf(q) && currentCard == old(currentCard)
    {
      cards := CardsOf(q);
    }

    /** `setCurrentCard` as handed to the consumers. */
    method SetCurrentCard(c: Option<Card>)
      modifies this
      ensures currentCard == c && cards == old(cards)
    {
      currentCard := c;
    }

    /** The effect on [cards, currentCard]: sorts a copy, so the list itself keeps its order. */
    method DefaultSelectionEffect()
      modifies this
      ensures cards == old(cards)
      ensures currentCard == DefaultSelection(old(cards), old(currentCard))
    {
      if |cards| > 0 && currentCard.None? {
        var sorted := SortByBalanceDesc(cards);
        SortedHeadIsFirstMax(cards);
        currentCard := Some(sorted[0]);
      }
    }
  }

  /** `useCardContext`: the context value, or the error thrown outside a provider. */
  function UseCardContext(provided: Option<CardProvider>): (r: Result<CardProvider>)
    ensures r.Err? <==> provided.None?
    ensures r.Ok? ==> r.value == provided.value
    ensures r.Err? ==> r.error == "useCardContext must be used within CardProvider"
  {
    match provided
    case Some(p) => Ok(p)
    case None => Err("useCardContext must be used within CardProvider")
  }
}
