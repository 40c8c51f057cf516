/**
 * The payment page (src/components/NewPayment/NewPayment.tsx) and its request
 * (`balanceOperation` in src/api/card-aggregate-api.ts): the field rules, the sender selector,
 * the guard inside `onSubmit` and what the handler leaves on screen.
 */
module NewPayment {
  import opened Wrappers
  import opened Model
  import opened Forms
  import Auth

  /** The form's values; an empty amount field is `None`. */
  datatype NewPaymentInput = NewPaymentInput(senderCard: Option<Card>, recipientCard: string, amount: Option<real>)

  /** The values the form starts from, and goes back to on reset: the card selected when the
      page was opened, no recipient, amount 0. */
  function DefaultInput(currentCard: Option<Card>): (input: NewPaymentInput)
    ensures input.senderCard == currentCard && input.recipientCard == "" && input.amount == Some(0.0)
  {
    NewPaymentInput(currentCard, "", Some(0.0))
  }

  const SenderRequired: string := "Please select a card"
  const RecipientRequired: string := "Card number is required"
  const RecipientPattern: string := "Card number must be 13–19 digits"
  const AmountRequired: string := "Amount is required"
  const AmountMin: string := "Amount must be greater than 0"
  const MissingCards: string := "Both sender and recipient cards are required."
  const PaidMessage: string := "Payment has been executed successfully!"
  const FailurePrefix: string := "Failed to process payment. Please try again. Error: "
  const TransferType: string := "TRANSFER"

  // ---------------------------------------------------------------------------------------
  // Field rules
  // ---------------------------------------------------------------------------------------

  /** The sender: required, so no card selected fails. */
  function SenderError(sender: Option<Card>): (r: Option<string>)
    ensures r.None? <==> sender.Some?
    ensures r.Some? ==> r.value == SenderRequired
  {
    if sender.None? then Some(SenderRequired) else None
  }

  /** The recipient: required, then 13 to 19 ASCII digits. */
  function RecipientError(value: string): (r: Option<string>)
    ensures value == "" ==> r == Some(RecipientRequired)
    ensures r.None? <==> 13 <= |value| <= 19 && AllAsciiDigits(value)
    ensures value != "" && r.Some? ==> r.value == RecipientPattern
  {
    DigitsFieldError(value, RecipientRequired, 13, 19, RecipientPattern)
  }

  /** The amount: required, then at least 1. */
  function AmountError(amount: Option<real>): (r: Option<string>)
    ensures r.None? <==> amount.Some? && amount.value >= 1.0
    ensures amount.None? ==> r == Some(AmountRequired)
    ensures amount.Some? && r.Some? ==> r.value == AmountMin
  {
    match amount
    case None => Some(AmountRequired)
    case Some(value) => if value < 1.0 then Some(AmountMin) else None
  }

  /** `handleSubmit` calls `onSubmit` only when no rule fails. */
  predicate Valid(input: NewPaymentInput)
  {
    SenderError(input.senderCard).None? && RecipientError(input.recipientCard).None? &&
    AmountError(input.amount).None?
  }

  /** The form is accepted exactly with a selected card, a 13-19 digit recipient and an amount
      of at least 1. */
  lemma ValidExactly(input: NewPaymentInput)
    ensures Valid(input) <==>
              input.senderCard.Some? &&
              13 <= |input.recipientCard| <= 19 && AllAsciiDigits(input.recipientCard) &&
              input.amount.Some? && input.amount.value >= 1.0
  {
  }

  /** The starting values never pass: the recipient is empty and the amount is 0. */
  lemma DefaultsAreRejected(currentCard: Option<Card>)
    ensures RecipientError(DefaultInput(currentCard).recipientCard) == Some(RecipientRequired)
    ensures AmountError(DefaultInput(currentCard).amount) == Some(AmountMin)
    ensures !Valid(DefaultInput(currentCard))
  {
  }

  // ---------------------------------------------------------------------------------------
  // The sender selector
  // ---------------------------------------------------------------------------------------

  /** The selector's value: the selected card's code, "" ("Choose a card") when there is none. */
  function SelectedId(sender: Option<Card>): (id: string)
    ensures sender.Some? ==> id == sender.value.code
    ensures sender.None? ==> id == ""
  {
    match sender
    case Some(card) => card.code
    case None => ""
  }

  /** The selector's `onChange`: the first card with the chosen code, or none. */
  function SelectSender(cards: seq<Card>, value: string): (sender: Option<Card>)
    ensures sender.None? <==> forall j :: 0 <= j < |cards| ==> cards[j].code != value
    ensures sender.Some? ==> sender.value in cards && SelectedId(sender) == value
  {
    FindByCode(cards, value)
  }

  /** Choosing a listed card shows its code; choosing "Choose a card" clears the sender, and
      the required rule then fails, unless some card's code is itself "". */
  lemma SelectorShowsChoice(cards: seq<Card>, value: string)
    ensures (exists j :: 0 <= j < |cards| && cards[j].code == value) ==> SelectedId(SelectSender(cards, value)) == value
    ensures (forall j :: 0 <= j < |cards| ==> cards[j].code != "") ==>
              SenderError(SelectSender(cards, "")) == Some(SenderRequired)
  {
  }

  // ---------------------------------------------------------------------------------------
  // The request and the submit handler
  // ---------------------------------------------------------------------------------------

  /** `!data.senderCard?.code || !data.recipientCard`. */
  predicate GuardFires(input: NewPaymentInput)
  {
    input.senderCard.None? || input.senderCard.value.code == "" || input.recipientCard == ""
  }

  /** Once the field rules pass, the guard can fire only for a selected card whose code is "". */
  lemma GuardOnValidInput(input: NewPaymentInput)
    requires Valid(input)
    ensures GuardFires(input) <==> input.senderCard.value.code == ""
  {
  }

  /** The POST's body and header; the token is read from storage and sent even when absent. */
  datatype BalanceRequest = BalanceRequest(senderCardNumber: string, recipientCardNumber: string,
                                           amount: real, kind: string, authorization: Option<string>)

  function RequestFor(storage: Auth.Storage, input: NewPaymentInput): (request: BalanceRequest)
    requires !GuardFires(input) && input.amount.Some?
    ensures request.senderCardNumber == input.senderCard.value.code && request.senderCardNumber != ""
    ensures request.recipientCardNumber == input.recipientCard && request.recipientCardNumber != ""
    ensures request.amount == input.amount.value && request.kind == TransferType
    ensures request.authorization == Get(storage, Auth.JwtKey)
  {
    BalanceRequest(input.senderCard.value.code, input.recipientCard, input.amount.value, TransferType,
                   Get(storage, Auth.JwtKey))
  }

  /** How the POST ended: it threw (network failure or a non-2xx status), with the error's text,
      or it answered a status. */
  datatype PostOutcome = PostThrew(message: string) | PostAnswered(status: int)

  /** `balanceOperation`: a thrown error propagates (there is no catch), an answer becomes
      `status === 201`. */
  function BalanceOperation(post: PostOutcome): (r: Result<bool>)
    ensures r.Err? <==> post.PostThrew?
    ensures r.Err? ==> r.error == post.message
    ensures r.Ok? ==> (r.value <==> post.status == 201)
  {
    match post
    case PostThrew(message) => Err(message)
    case PostAnswered(status) => Ok(status == 201)
  }

  /** What `onSubmit` leaves on screen: the guard's message, the success message with a reset
      when `balanceOperation` returns (whatever it returns), or the prefixed error text. */
  function OnSubmitOutcome(input: NewPaymentInput, post: PostOutcome): (f: Feedback)
    ensures GuardFires(input) ==> f == Feedback(Some(MissingCards), None, false)
    ensures !GuardFires(input) ==>
              (f.success.Some? <==> post.PostAnswered?) &&
              (f.success.Some? ==> f.success.value == PaidMessage) &&
              (f.reset <==> post.PostAnswered?) &&
              (post.PostThrew? ==> f.error == Some(FailurePrefix + post.message))
    ensures f.error.Some? <==> f.success.None?
  {
    if GuardFires(input) then Feedback(Some(MissingCards), None, false)
    else
      match BalanceOperation(post)
      case Ok(_) => Feedback(None, Some(PaidMessage), true)
      case Err(message) => Feedback(Some(FailurePrefix + message), None, false)
  }

  /** A payment is reported as executed only when a request with both card numbers was sent and
      the server answered; the answer's status is not looked at. */
  lemma {:induction false} SuccessMeansSentAndAnswered(input: NewPaymentInput, post: PostOutcome)
    requires Valid(input)
    ensures OnSubmitOutcome(input, post).success.Some? <==>
              input.senderCard.value.code != "" && post.PostAnswered?
    ensures OnSubmitOutcome(input, PostAnswered(200)).success == OnSubmitOutcome(input, PostAnswered(201)).success
  {
    GuardOnValidInput(input);
  }

  class NewPaymentForm {
    const defaults: NewPaymentInput
    var values: NewPaymentInput
    var error: Option<string>
    var success: Option<string>

    /** The form opens on the current card of the card context. */
    constructor (currentCard: Option<Card>)
      ensures defaults == DefaultInput(currentCard) && values == defaults
      ensures error == None && success == None
    {
      defaults := DefaultInput(currentCard);
      values := DefaultInput(currentCard);
      error := None;
      success := None;
    }

    /** Picking an entry of the sender selector. */
    method ChooseSender(cards: seq<Card>, value: string)
      modifies this
      ensures values == old(values).(senderCard := SelectSender(cards, value))
      ensures error == old(error) && success == old(success)
    {
      values := values.(senderCard := SelectSender(cards, value));
    }

    /** `onSubmit`: both messages are cleared, the guard is checked, the request is sent and the
        outcome shown; `request` is what was sent, if anything. */
    method OnSubmit(storage: Auth.Storage, post: PostOutcome) returns (request: Option<BalanceRequest>)
      modifies this
      requires values.amount.Some?
      ensures request.Some? <==> !GuardFires(old(values))
      ensures request.Some? ==> request.value == RequestFor(storage, old(values))
      ensures var f := OnSubmitOutcome(old(values), post);
              error == f.error && success == f.success &&
              values == (if f.reset then defaults else old(values))
    {
      error := None;
      success := None;
      if GuardFires(values) {
        error := Some(MissingCards);
        return None;
      }
      request := Some(RequestFor(storage, values));
      var result := BalanceOperation(post);
      match result {
        case Ok(_) =>
          values := defaults;
          success := Some(PaidMessage);
        case Err(message) =>
          error := Some(FailurePrefix + message);
      }
    }

    /** `handleSubmit(onSubmit)`: the handler runs only when every rule passes. */
    method HandleSubmit(storage: Auth.Storage, post: PostOutcome) returns (request: Option<BalanceRequest>)
      modifies this
      ensures !Valid(old(values)) ==> request.None? && values == old(values) && error == old(error) && success == old(success)
      ensures Valid(old(values)) ==>
                (request.Some? <==> old(values).senderCard.value.code != "") &&
                var f := OnSubmitOutcome(old(values), post);
                error == f.error && success == f.success &&
                values == (if f.reset then defaults else old(values))
    {
      request := None;
      if Valid(values) {
        GuardOnValidInput(values);
        request := OnSubmit(storage, post);
      }
    }
  }
}
