/** The sale dialog (src/components/SellModal.tsx): a text field that only ever holds
    decimal digits, and a submit handler that checks the typed amount against the stock
    before handing it to the caller. */
module SellModal {
  import opened Parts

  const NotPositiveMessage := "A quantidade deve ser maior que zero"
  const ExceedsStockMessage := "Quantidade maior que o estoque disponível"

  datatype SaleError = NotPositive | ExceedsStock

  function Message(e: SaleError): string
  {
    match e
    case NotPositive => NotPositiveMessage
    case ExceedsStock => ExceedsStockMessage
  }

  predicate IsDigit(c: char)
  {
    '0' <= c <= '9'
  }

  predicate OnlyDigits(s: string)
  {
    forall i :: 0 <= i < |s| ==> IsDigit(s[i])
  }

  /** What the input filter lets into the field: `value === '' || /^\d+$/.test(value)`. */
  predicate AcceptedInput(s: string)
  {
    s == "" || (|s| > 0 && OnlyDigits(s))
  }

  /** The number a string of decimal digits denotes (`Number(s)`, with `Number('') == 0`). */
  function DecimalValue(s: string): nat
    requires OnlyDigits(s)
  {
    if s == [] then 0 else 10 * DecimalValue(s[..|s| - 1]) + (s[|s| - 1] as int - '0' as int)
  }

  /** The usual decimal spelling of `n`. */
  function DecimalDigits(n: nat): (s: string)
    ensures |s| > 0 && OnlyDigits(s)
  {
    var d := ['0' + (n % 10) as char];
    if n < 10 then d else DecimalDigits(n / 10) + d
  }

  /** Reading back the spelling of a number gives the number. */
  lemma {:induction false} DecimalRoundTrip(n: nat)
    ensures DecimalValue(DecimalDigits(n)) == n
  {
    var s := DecimalDigits(n);
    if n >= 10 {
      DecimalRoundTrip(n / 10);
      assert s[..|s| - 1] == DecimalDigits(n / 10);
    }
  }

  /** A digit string denotes zero exactly when all of its digits are '0'. */
  lemma {:induction false} ZeroIffAllZeros(s: string)
    requires OnlyDigits(s)
    ensures DecimalValue(s) == 0 <==> forall i :: 0 <= i < |s| ==> s[i] == '0'
  {
    if s != [] {
      var init := s[..|s| - 1];
      ZeroIffAllZeros(init);
      if DecimalValue(s) == 0 {
        forall i | 0 <= i < |s| ensures s[i] == '0' {
          if i < |s| - 1 { assert s[i] == init[i]; }
        }
      }
    }
  }

  /** The two guards of `handleSubmit`, in their order: zero first, then stock. */
  function Validate(input: string, stock: int): (r: Result<nat, SaleError>)
    requires AcceptedInput(input)
    ensures r.Success? ==> 1 <= r.value <= stock
  {
    var n := DecimalValue(input);
    if input == "" || n <= 0 then Failure(NotPositive)
    else if n > stock then Failure(ExceedsStock)
    else Success(n)
  }

  /** Which inputs each outcome of the validation belongs to, stated on the digits typed. */
  lemma ValidateSpec(input: string, stock: int)
    requires AcceptedInput(input)
    ensures Validate(input, stock) == Failure(NotPositive) <==> forall i :: 0 <= i < |input| ==> input[i] == '0'
    ensures Validate(input, stock) == Failure(ExceedsStock) <==>
      (exists i :: 0 <= i < |input| && input[i] != '0') && DecimalValue(input) > stock
    ensures Validate(input, stock).Success? <==>
      (exists i :: 0 <= i < |input| && input[i] != '0') && DecimalValue(input) <= stock
    ensures Validate(input, stock).Success? ==> Validate(input, stock).value == DecimalValue(input)
  {
    ZeroIffAllZeros(input);
  }

  /** Selling the whole stock, typed as a number, is accepted whenever there is stock. */
  lemma SellingWholeStockIsAccepted(stock: nat)
    requires stock >= 1
    ensures Validate(DecimalDigits(stock), stock) == Success(stock)
  {
    DecimalRoundTrip(stock);
  }

  /** The dialog's state: the part being sold, the text of the quantity field and the error line. */
  class Modal {
    const part: Part
    var quantity: string
    var error: string

    predicate Valid()
      reads this
    {
      AcceptedInput(quantity)
    }

    constructor (part: Part)
      ensures Valid()
      ensures this.part == part && quantity == "" && error == ""
    {
      this.part := part;
      quantity := "";
      error := "";
    }

    /** Submitting: on a failed guard the error line is set and nothing is confirmed;
        otherwise the amount is passed on (`onConfirm`) and the error line is left alone. */
    method HandleSubmit() returns (confirmed: Option<nat>)
      requires Valid()
      modifies this`error
      ensures confirmed.Some? ==> 1 <= confirmed.value <= part.quantity
      ensures match Validate(quantity, part.quantity)
        case Success(q) => confirmed == Some(q) && error == old(error)
        case Failure(e) => confirmed == None && error == Message(e)
    {
      var outcome := Validate(quantity, part.quantity);
      match outcome {
        case Success(q) =>
          confirmed := Some(q);
        case Failure(e) =>
          error := Message(e);
          confirmed := None;
      }
    }

    /** Typing: an empty or all-digit value replaces the field and clears the error;
        anything else is ignored. */
    method HandleQuantityChange(value: string)
      requires Valid()
      modifies this`quantity, this`error
      ensures Valid()
      ensures AcceptedInput(value) ==> quantity == value && error == ""
      ensures !AcceptedInput(value) ==> quantity == old(quantity) && error == old(error)
    {
      if AcceptedInput(value) {
        quantity := value;
        error := "";
      }
    }
  }
}
