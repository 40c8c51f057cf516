/**
 * The card selector in the side menu (src/components/SideMenu/SelectContent.tsx): choosing a
 * card by its code, the "add-card" entry that navigates to the add-card page, the effect that
 * selects the first card whenever the list changes, and the value the selector displays.
 */
module SelectContent {
  import opened Wrappers
  import opened Model
  import opened CardContext

  /** The selector's value is a number or a string. */
  datatype SelectValue = Text(text: string) | Number(number: int)

  const AddCardValue: string := "add-card"
  const AddCardPath: string := "/addcard"

  /** The current card after `handleChange(value)`. */
  function SelectionAfterChange(cards: seq<Card>, current: Option<Card>, value: SelectValue): (next: Option<Card>)
    ensures value == Text(AddCardValue) || value.Number? ==> next == current
    ensures next != current ==>
              value.Text? && next.Some? && next.value.code == value.text && next.value in cards
    ensures value.Text? && value.text != AddCardValue ==>
              next == (if exists i :: 0 <= i < |cards| && cards[i].code == value.text
                       then Some(cards[IndexOfCode(cards, value.text)]) else current)
  {
    if value == Text(AddCardValue) then current
    else if value.Text? then
      var found := FindByCode(cards, value.text);
      if found.Some? then found else current
    else current
  }

  /** `handleChange`: "add-card" navigates away; a known code becomes the current card. */
  method HandleChange(provider: CardProvider, value: SelectValue) returns (navigateTo: Option<string>)
    modifies provider
    ensures provider.cards == old(provider.cards)
    ensures navigateTo == (if value == Text(AddCardValue) then Some(AddCardPath) else None)
    ensures provider.currentCard == SelectionAfterChange(old(provider.cards), old(provider.currentCard), value)
  {
    if value == Text(AddCardValue) {
      navigateTo := Some(AddCardPath);
      return;
    }
    navigateTo := None;
    if value.Text? {
      var newCard := FindByCode(provider.cards, value.text);
      if newCard.Some? {
        provider.SetCurrentCard(newCard);
      }
    }
  }

  /** The effect on [cards]: a non-empty list makes its first card current. */
  method FirstCardEffect(provider: CardProvider)
    modifies provider
    ensures provider.cards == old(provider.cards)
    ensures provider.currentCard ==
              (if |old(provider.cards)| > 0 then Some(old(provider.cards)[0]) else old(provider.currentCard))
  {
    if |provider.cards| > 0 {
      provider.SetCurrentCard(Some(provider.cards[0]));
    }
  }

  /** `currentCard?.code ?? ""`. */
  function DisplayedValue(current: Option<Card>): string
  {
    if current.Some? then current.value.code else ""
  }

  /** Choosing a known code displays that code; an unknown code leaves the display as it was. */
  lemma SelectorShowsChosenCode(cards: seq<Card>, current: Option<Card>, code: string)
    requires code != AddCardValue
    ensures (exists i :: 0 <= i < |cards| && cards[i].code == code) ==>
              DisplayedValue(SelectionAfterChange(cards, current, Text(code))) == code
    ensures (forall i :: 0 <= i < |cards| ==> cards[i].code != code) ==>
              DisplayedValue(SelectionAfterChange(cards, current, Text(code))) == DisplayedValue(current)
  {
  }

  /** A card whose code is "add-card" can never be chosen from the selector. */
  lemma AddCardCodeIsNeverSelected(cards: seq<Card>, current: Option<Card>)
    ensures SelectionAfterChange(cards, current, Text(AddCardValue)) == current
  {
  }
}
