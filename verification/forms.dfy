/**
 * The guards the view component runs before acting on a form: sign-up and
 * login (both copies), the new-product form, and the payment-method answer
 * at checkout.
 */
module Forms {
  import opened Wrappers
  import opened ClientModel

  /** What a guard decides: go ahead, or show this alert and stop. */
  datatype Verdict = Accept | Reject(alert: string)

  const FillAll := "Please fill all fields"
  const Mismatch := "Passwords do not match"
  const TooShort := "Password must be at least 6 characters long"
  const MinPasswordLength := 6

  /** The sign-up branch of the frontend copy's handleAuth. */
  function SignupCheck(fullName: string, email: string, password: string, confirm: string, role: string)
    : (v: Verdict)
    ensures v == Accept <==>
      fullName != "" && email != "" && password != "" && confirm != "" && role != "" &&
      password == confirm && |password| >= MinPasswordLength
    ensures v.Reject? && v.alert == Mismatch ==> password != confirm
    ensures v.Reject? && v.alert == TooShort ==> |password| < MinPasswordLength
  {
    if fullName == "" || email == "" || password == "" || confirm == "" || role == "" then Reject(FillAll)
    else if password != confirm then Reject(Mismatch)
    else if |password| < MinPasswordLength then Reject(TooShort)
    else Accept
  }

  /** The login branch of the frontend copy's handleAuth. */
  function LoginCheck(email: string, password: string): (v: Verdict)
    ensures v == Accept <==> email != "" && password != ""
  {
    if email == "" || password == "" then Reject(FillAll) else Accept
  }

  /** The root copy's handleAuth. */
  function RootAuthCheck(username: string, password: string, role: string): (v: Verdict)
    ensures v == Accept <==> username != "" && password != "" && role != ""
  {
    if username == "" || password == "" || role == "" then Reject(FillAll) else Accept
  }

  const MissingProductField := "Please fill all fields including product photo"

  /** The guard of addProduct: name, price and photo must all be filled in. */
  function DraftCheck(draft: ProductDraft): (v: Verdict)
    ensures v == Accept <==> draft.name != "" && draft.price != "" && draft.image != ""
  {
    if draft.name == "" || draft.price == "" || draft.image == "" then Reject(MissingProductField) else Accept
  }

  /**
   * The property names every object literal inherits from `Object.prototype`;
   * reading any of them from the payment-method table gives a truthy value.
   */
  const InheritedKeys: set<string> := {
    "constructor", "__proto__", "__defineGetter__", "__defineSetter__", "__lookupGetter__",
    "__lookupSetter__", "hasOwnProperty", "isPrototypeOf", "propertyIsEnumerable",
    "toLocaleString", "toString", "valueOf"
  }

  /** The payment-method table read by its own keys: '1' M-Pesa, '2' Ecocash, '3' Cash. */
  function OwnMethod(key: string): Option<string> {
    if key == "1" then Some("M-Pesa")
    else if key == "2" then Some("Ecocash")
    else if key == "3" then Some("Cash")
    else None
  }

  /** A `prompt` answer as a property key: cancelling yields `null`, read as the key "null". */
  function KeyOf(answer: Option<string>): string {
    if answer.None? then "null" else answer.value
  }

  /** The checkout guard as written: a truthy lookup, so inherited property names pass as well. */
  function PaymentAcceptedAsWritten(answer: Option<string>): (b: bool)
    ensures PaymentAccepted(answer) ==> b
    ensures KeyOf(answer) in InheritedKeys ==> b
    ensures b && !PaymentAccepted(answer) ==> KeyOf(answer) in InheritedKeys
  {
    OwnMethod(KeyOf(answer)).Some? || KeyOf(answer) in InheritedKeys
  }

  /** Typing "constructor" at the prompt passes the check as written although it names no payment method. */
  lemma ConstructorPassesAsWritten()
    ensures PaymentAcceptedAsWritten(Some("constructor"))
    ensures !PaymentAccepted(Some("constructor"))
  {
    assert "constructor" in InheritedKeys;
  }

  /** The intended check: only the answers '1', '2' and '3' name a payment method. */
  function PaymentMethod(answer: Option<string>): (m: Option<string>)
    ensures m.Some? <==> answer == Some("1") || answer == Some("2") || answer == Some("3")
  {
    if answer.None? then None else OwnMethod(answer.value)
  }

  function PaymentAccepted(answer: Option<string>): (b: bool)
    ensures b <==> answer == Some("1") || answer == Some("2") || answer == Some("3")
  {
    PaymentMethod(answer).Some?
  }
}
