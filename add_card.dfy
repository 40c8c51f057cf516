/**
 * The add-card page (src/components/AddCard/AddCard.tsx) and its request (`addCard` in
 * src/api/card-api.ts): the field rules, the year-month value of the expiry picker, the request
 * and what `onSubmit` leaves on screen.
 */
module AddCard {
  import opened Wrappers
  import opened Forms
  import Auth

  datatype NewCardInput = NewCardInput(cardNumber: string, expiration: string, cvv: string,
                                       cardHolder: string, saveCard: bool)

  const DefaultInput: NewCardInput := NewCardInput("", "", "", "", false)

  const CardNumberRequired: string := "Card number is required"
  const CardNumberPattern: string := "Card number must be 13–19 digits"
  const ExpirationRequired: string := "Expiry date is required"
  const CvvRequired: string := "CVC is required"
  const CvvPattern: string := "CVC must be exactly 3 digits"
  const AddedMessage: string := "Card has been added successfully!"
  const FailurePrefix: string := "Failed to add card. Please try again. Error: "
  const NoTokenMessage: string := "No auth token found"
  const CardPlaceholder: string := "1234 5678 9012 3456"

  // ---------------------------------------------------------------------------------------
  // Field rules
  // ---------------------------------------------------------------------------------------

  /** The card number: required, then 13 to 19 ASCII digits. */
  function CardNumberError(value: string): (r: Option<string>)
    ensures value == "" ==> r == Some(CardNumberRequired)
    ensures r.None? <==> 13 <= |value| <= 19 && AllAsciiDigits(value)
    ensures value != "" && r.Some? ==> r.value == CardNumberPattern
  {
    DigitsFieldError(value, CardNumberRequired, 13, 19, CardNumberPattern)
  }

  /** The expiry: required only. */
  function ExpirationError(value: string): (r: Option<string>)
    ensures r.None? <==> value != ""
    ensures r.Some? ==> r.value == ExpirationRequired
  {
    if value == "" then Some(ExpirationRequired) else None
  }

  /** The CVC: required, then exactly 3 ASCII digits. */
  function CvvError(value: string): (r: Option<string>)
    ensures value == "" ==> r == Some(CvvRequired)
    ensures r.None? <==> |value| == 3 && AllAsciiDigits(value)
    ensures value != "" && r.Some? ==> r.value == CvvPattern
  {
    DigitsFieldError(value, CvvRequired, 3, 3, CvvPattern)
  }

  /** `handleSubmit` calls `onSubmit` only when no rule fails; the card holder has no rule. */
  predicate Valid(input: NewCardInput)
  {
    CardNumberError(input.cardNumber).None? && ExpirationError(input.expiration).None? &&
    CvvError(input.cvv).None?
  }

  /** The form is accepted exactly for 13-19 digit card numbers, a chosen expiry and a 3-digit
      CVC, whatever the card holder and the save flag. */
  lemma ValidExactly(input: NewCardInput)
    ensures Valid(input) <==>
              13 <= |input.cardNumber| <= 19 && AllAsciiDigits(input.cardNumber) &&
              input.expiration != "" &&
              |input.cvv| == 3 && AllAsciiDigits(input.cvv)
    ensures forall holder: string, save: bool :: Valid(input) == Valid(input.(cardHolder := holder, saveCard := save))
  {
  }

  /** The field's own placeholder, with its spaces, is rejected by the pattern. */
  lemma {:induction false} PlaceholderIsRejected()
    ensures CardNumberError(CardPlaceholder) == Some(CardNumberPattern)
  {
    assert CardPlaceholder[4] == ' ';
    assert !AllAsciiDigits(CardPlaceholder);
  }

  /** The defaults fail the three required rules. */
  lemma DefaultsAreIncomplete()
    ensures CardNumberError(DefaultInput.cardNumber) == Some(CardNumberRequired)
    ensures ExpirationError(DefaultInput.expiration) == Some(ExpirationRequired)
    ensures CvvError(DefaultInput.cvv) == Some(CvvRequired)
  {
  }

  // ---------------------------------------------------------------------------------------
  // The expiry picker's value, "YYYY-MM"
  // ---------------------------------------------------------------------------------------

  datatype YearMonth = YearMonth(year: nat, month: nat)

  predicate InRange(ym: YearMonth)
  {
    ym.year <= 9999 && 1 <= ym.month <= 12
  }

  function DigitChar(d: nat): char
    requires d < 10
  {
    ('0' as int + d) as char
  }

  function DigitValue(c: char): nat
    requires IsAsciiDigit(c)
  {
    c as int - '0' as int
  }

  /** `format("YYYY-MM")`: the four-digit year, a dash, the two-digit month. */
  function FormatYearMonth(ym: YearMonth): (s: string)
    requires InRange(ym)
    ensures |s| == 7 && s[4] == '-'
    ensures forall i :: 0 <= i < 7 && i != 4 ==> IsAsciiDigit(s[i])
  {
    var y := ym.year;
    [DigitChar(y / 10 / 10 / 10), DigitChar(y / 10 / 10 % 10), DigitChar(y / 10 % 10), DigitChar(y % 10),
     '-', DigitChar(ym.month / 10), DigitChar(ym.month % 10)]
  }

  /** Reads a "YYYY-MM" value back; anything else, or a month outside 1-12, gives nothing. */
  function ParseYearMonth(s: string): (r: Option<YearMonth>)
    ensures r.Some? ==> InRange(r.value)
  {
    if |s| == 7 && s[4] == '-' && IsAsciiDigit(s[0]) && IsAsciiDigit(s[1]) && IsAsciiDigit(s[2]) &&
       IsAsciiDigit(s[3]) && IsAsciiDigit(s[5]) && IsAsciiDigit(s[6])
    then
      var year := 1000 * DigitValue(s[0]) + 100 * DigitValue(s[1]) + 10 * DigitValue(s[2]) + DigitValue(s[3]);
      var month := 10 * DigitValue(s[5]) + DigitValue(s[6]);
      if 1 <= month <= 12 then Some(YearMonth(year, month)) else None
    else None
  }

  lemma DigitRoundTrip(d: nat)
    requires d < 10
    ensures IsAsciiDigit(DigitChar(d)) && DigitValue(DigitChar(d)) == d
  {
  }

  lemma CharRoundTrip(c: char)
    requires IsAsciiDigit(c)
    ensures DigitValue(c) < 10 && DigitChar(DigitValue(c)) == c
  {
  }

  lemma Step10(q: nat, r: nat)
    requires r < 10
    ensures (10 * q + r) / 10 == q && (10 * q + r) % 10 == r
  {
  }

  /** Four digits read as a year and cut back into digits give the same digits. */
  lemma {:induction false} DigitsOfYear(d0: nat, d1: nat, d2: nat, d3: nat)
    requires d0 < 10 && d1 < 10 && d2 < 10 && d3 < 10
    ensures var y := 1000 * d0 + 100 * d1 + 10 * d2 + d3;
            y <= 9999 && y / 10 / 10 / 10 == d0 && y / 10 / 10 % 10 == d1 && y / 10 % 10 == d2 && y % 10 == d3
  {
    var y := 1000 * d0 + 100 * d1 + 10 * d2 + d3;
    assert y == 10 * (100 * d0 + 10 * d1 + d2) + d3;
    Step10(100 * d0 + 10 * d1 + d2, d3);
    assert 100 * d0 + 10 * d1 + d2 == 10 * (10 * d0 + d1) + d2;
    Step10(10 * d0 + d1, d2);
    Step10(d0, d1);
  }

  /** A year up to 9999 is the sum of its four digits. */
  lemma YearOfDigits(y: nat)
    requires y <= 9999
    ensures y / 10 / 10 / 10 < 10
    ensures y == 1000 * (y / 10 / 10 / 10) + 100 * (y / 10 / 10 % 10) + 10 * (y / 10 % 10) + y % 10
  {
  }

  /** Reading back a formatted value gives the year and month that were picked. */
  lemma {:induction false} ParseFormatRoundTrip(ym: YearMonth)
    requires InRange(ym)
    ensures ParseYearMonth(FormatYearMonth(ym)) == Some(ym)
  {
    var y := ym.year;
    var m := ym.month;
    var s := FormatYearMonth(ym);
    YearOfDigits(y);
    DigitRoundTrip(y / 10 / 10 / 10);
    DigitRoundTrip(y / 10 / 10 % 10);
    DigitRoundTrip(y / 10 % 10);
    DigitRoundTrip(y % 10);
    DigitRoundTrip(m / 10);
    DigitRoundTrip(m % 10);
    assert DigitValue(s[0]) == y / 10 / 10 / 10 && DigitValue(s[1]) == y / 10 / 10 % 10;
    assert DigitValue(s[2]) == y / 10 % 10 && DigitValue(s[3]) == y % 10;
    assert 10 * DigitValue(s[5]) + DigitValue(s[6]) == m;
  }

  /** A well-formed value is the format of what it reads as. */
  lemma {:induction false} FormatParseRoundTrip(s: string)
    requires ParseYearMonth(s).Some?
    ensures FormatYearMonth(ParseYearMonth(s).value) == s
  {
    var ym := ParseYearMonth(s).value;
    CharRoundTrip(s[0]);
    CharRoundTrip(s[1]);
    CharRoundTrip(s[2]);
    CharRoundTrip(s[3]);
    CharRoundTrip(s[5]);
    CharRoundTrip(s[6]);
    DigitsOfYear(DigitValue(s[0]), DigitValue(s[1]), DigitValue(s[2]), DigitValue(s[3]));
    Step10(DigitValue(s[5]), DigitValue(s[6]));
    var f := FormatYearMonth(ym);
    assert f[0] == s[0] && f[1] == s[1] && f[2] == s[2] && f[3] == s[3];
    assert f[5] == s[5] && f[6] == s[6];
    assert forall i :: 0 <= i < 7 ==> f[i] == s[i];
  }

  /** What the expiry picker hands to its `onChange`: nothing after it is cleared, a month, or
      an invalid date, which a partly typed date gives. */
  datatype PickerValue = Cleared | Month(ym: YearMonth) | InvalidDate

  /** The text an invalid date formats to. */
  const InvalidDateText: string := "Invalid Date"

  /** The picker's `onChange`: a picked month becomes its "YYYY-MM" text, a cleared picker "",
      and an invalid date the text "Invalid Date", which is no year-month. */
  function ExpirationOnChange(picked: PickerValue): (value: string)
    requires picked.Month? ==> InRange(picked.ym)
    ensures value == "" <==> picked.Cleared?
    ensures picked.Month? ==> ParseYearMonth(value) == Some(picked.ym)
    ensures picked.InvalidDate? ==> value == InvalidDateText && ParseYearMonth(value).None?
  {
    match picked
    case Cleared => ""
    case Month(ym) =>
      ParseFormatRoundTrip(ym);
      FormatYearMonth(ym)
    case InvalidDate => InvalidDateText
  }

  /** Clearing the picker brings back the required error; a month or an invalid date
      satisfies it. */
  lemma ClearedPickerIsRequired(picked: PickerValue)
    requires picked.Month? ==> InRange(picked.ym)
    ensures ExpirationError(ExpirationOnChange(picked)).Some? <==> picked.Cleared?
  {
  }

  // ---------------------------------------------------------------------------------------
  // The request and the submit handler
  // ---------------------------------------------------------------------------------------

  /** The body of the POST: the holder's name and the save flag are not sent. */
  datatype CardRequest = CardRequest(username: Option<string>, cardNumber: string, expiration: string, cvv: string)

  function RequestBody(storage: Auth.Storage, input: NewCardInput): CardRequest
  {
    CardRequest(Get(storage, Auth.UserKey), input.cardNumber, input.expiration, input.cvv)
  }

  /** What is sent does not depend on the holder's name or the save flag, and carries the stored
      user name, or null when there is none. */
  lemma RequestIgnoresHolder(storage: Auth.Storage, input: NewCardInput, holder: string, save: bool)
    ensures RequestBody(storage, input.(cardHolder := holder, saveCard := save)) == RequestBody(storage, input)
    ensures RequestBody(storage, input).username.Some? <==> Auth.UserKey in storage
  {
  }

  /** A partly typed date passes the rules and is sent as the text "Invalid Date". */
  lemma InvalidDateIsSent(storage: Auth.Storage, input: NewCardInput)
    requires input.expiration == ExpirationOnChange(InvalidDate)
    ensures ExpirationError(input.expiration).None?
    ensures Valid(input) <==> CardNumberError(input.cardNumber).None? && CvvError(input.cvv).None?
    ensures RequestBody(storage, input).expiration == InvalidDateText
    ensures ParseYearMonth(RequestBody(storage, input).expiration).None?
  {
  }

  /** How the POST ended: it threw (network failure or a non-2xx status) or answered a status. */
  datatype PostOutcome = PostFailed | PostAnswered(status: int)

  /** `addCard`: throws without a token; otherwise true exactly on status 201, and false, not an
      error, when the POST fails. */
  function AddCardApi(storage: Auth.Storage, post: PostOutcome): (r: Result<bool>)
    ensures r.Err? <==> Get(storage, Auth.JwtKey) in {None, Some("")}
    ensures r.Err? ==> r.error == NoTokenMessage
    ensures r.Ok? ==> (r.value <==> post == PostAnswered(201))
  {
    var token := Get(storage, Auth.JwtKey);
    if token.None? || token.value == "" then Err(NoTokenMessage)
    else
      match post
      case PostFailed => Ok(false)
      case PostAnswered(status) => Ok(status == 201)
  }

  /** What `onSubmit` leaves as written: any answer from `addCard` counts as success; only a
      thrown error is shown, as "Error: " + its message after the prefix. */
  function OnSubmitOutcome(result: Result<bool>): (f: Feedback)
    ensures f.success.Some? <==> result.Ok?
    ensures f.reset <==> result.Ok?
    ensures result.Ok? ==> f == Feedback(None, Some(AddedMessage), true)
    ensures result.Err? ==> f.error == Some(FailurePrefix + "Error: " + result.error)
  {
    match result
    case Ok(_) => Feedback(None, Some(AddedMessage), true)
    case Err(message) => Feedback(Some(FailurePrefix + "Error: " + message), None, false)
  }

  /** A POST that fails is still reported as an added card. */
  lemma FailedPostIsReportedAsAdded(storage: Auth.Storage)
    requires Auth.JwtKey in storage && storage[Auth.JwtKey] != ""
    ensures AddCardApi(storage, PostFailed) == Ok(false)
    ensures OnSubmitOutcome(AddCardApi(storage, PostFailed)).success == Some(AddedMessage)
  {
  }

  /** The handler as evidently intended: a `false` answer is a failure too. */
  function IntendedOnSubmitOutcome(result: Result<bool>): (f: Feedback)
    ensures f.success.Some? <==> result == Ok(true)
    ensures f.error.Some? <==> !f.success.Some?
    ensures f.reset <==> f.success.Some?
  {
    match result
    case Ok(true) => Feedback(None, Some(AddedMessage), true)
    case Ok(false) => Feedback(Some(FailurePrefix + "the card was not created"), None, false)
    case Err(message) => Feedback(Some(FailurePrefix + "Error: " + message), None, false)
  }

  /** With the intended handler, success is shown exactly when the server created the card. */
  lemma IntendedSuccessMeansCreated(storage: Auth.Storage, post: PostOutcome)
    ensures IntendedOnSubmitOutcome(AddCardApi(storage, post)).success.Some? <==>
              Get(storage, Auth.JwtKey) !in {None, Some("")} && post == PostAnswered(201)
  {
  }

  class AddCardForm {
    var values: NewCardInput
    var error: Option<string>
    var success: Option<string>

    constructor ()
      ensures values == DefaultInput && error == None && success == None
    {
      values := DefaultInput;
      error := None;
      success := None;
    }

    /** The expiry picker's `onChange`: only the expiry value changes. */
    method PickExpiration(picked: PickerValue)
      requires picked.Month? ==> InRange(picked.ym)
      modifies this
      ensures values == old(values).(expiration := ExpirationOnChange(picked))
      ensures error == old(error) && success == old(success)
    {
      values := values.(expiration := ExpirationOnChange(picked));
    }

    /** `onSubmit`: both messages are cleared, then set from the request's result; a reset
        brings the defaults back. `request` is the POST that was sent, if any: there is one
        exactly when a token is stored. */
    method OnSubmit(storage: Auth.Storage, post: PostOutcome) returns (request: Option<CardRequest>)
      modifies this
      ensures request.Some? <==> AddCardApi(storage, post).Ok?
      ensures request.Some? ==> request.value == RequestBody(storage, old(values))
      ensures var f := OnSubmitOutcome(AddCardApi(storage, post));
              error == f.error && success == f.success &&
              values == (if f.reset then DefaultInput else old(values))
    {
      error := None;
      success := None;
      var token := Get(storage, Auth.JwtKey);
      request := if token.None? || token.value == "" then None else Some(RequestBody(storage, values));
      var result := AddCardApi(storage, post);
      match result {
        case Ok(_) =>
          values := DefaultInput;
          success := Some(AddedMessage);
        case Err(message) =>
          error := Some(FailurePrefix + "Error: " + message);
      }
    }

    /** `handleSubmit(onSubmit)`: the handler runs only when every rule passes. */
    method HandleSubmit(storage: Auth.Storage, post: PostOutcome) returns (submitted: bool, request: Option<CardRequest>)
      modifies this
      ensures submitted == Valid(old(values))
      ensures !submitted ==> request.None? && values == old(values) && error == old(error) && success == old(success)
      ensures submitted ==> (request.Some? <==> AddCardApi(storage, post).Ok?)
      ensures request.Some? ==> request.value == RequestBody(storage, old(values))
      ensures submitted ==>
                var f := OnSubmitOutcome(AddCardApi(storage, post));
                error == f.error && success == f.success &&
                values == (if f.reset then DefaultInput else old(values))
    {
      submitted, request := Valid(values), None;
      if submitted {
        request := OnSubmit(storage, post);
      }
    }
  }
}
