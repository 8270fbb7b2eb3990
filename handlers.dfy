/**
 * The decisions the form handlers make. Each handler is modelled as the list
 * of effects it produces: the request it sends, the toast it shows, the page
 * it navigates to. The network round trip is a parameter: either the reply
 * arrived and its JSON body was read, or the request or the body failed.
 */
module Handlers {
  import opened Wrappers

  datatype Severity = Success | Error

  /** The request bodies the modelled handlers send. */
  datatype Payload =
    | LoginBody(email: string, password: string)
    | PaymentBody(paymentMethod: string, productId: int, buyerId: int)

  datatype Effect =
    | Toast(message: string, severity: Severity)
    | Post(endpoint: string, body: Payload)
    | DeleteRequest(productId: int)
    | Navigate(url: string)
    | ShowReceipt(transactionId: Option<string>)
    | Alert(text: Option<string>)
    | Reload

  /** A reply's status and the JSON fields the handlers look at; an absent field is `None`. */
  datatype Reply = Reply(
    ok: bool,
    userType: Option<string>,
    error: Option<string>,
    transactionId: Option<string>,
    message: Option<string>)

  /** How a request ended: a reply with a readable JSON body, or a failure of the connection or of the body. */
  datatype Outcome = Replied(reply: Reply) | Unreachable

  const ConnectionError: Effect := Toast("Error connecting to server.", Error)

  /** Requests among the effects. */
  predicate IsRequest(e: Effect)
  {
    e.Post? || e.DeleteRequest?
  }

  /** How many requests a list of effects sends. */
  function RequestCount(effects: seq<Effect>): nat
  {
    if effects == [] then 0
    else (if IsRequest(effects[0]) then 1 else 0) + RequestCount(effects[1..])
  }

  /** Requests of two runs of effects add up. */
  lemma {:induction false} RequestCountConcat(a: seq<Effect>, b: seq<Effect>)
    ensures RequestCount(a + b) == RequestCount(a) + RequestCount(b)
    decreases |a|
  {
    if a == [] {
      assert a + b == b;
    } else {
      assert (a + b)[0] == a[0];
      assert (a + b)[1..] == a[1..] + b;
      RequestCountConcat(a[1..], b);
    }
  }

  /** Effects none of which is a request send no request. */
  lemma {:induction false} NoRequests(effects: seq<Effect>)
    requires forall i :: 0 <= i < |effects| ==> !IsRequest(effects[i])
    ensures RequestCount(effects) == 0
    decreases |effects|
  {
    if effects != [] {
      NoRequests(effects[1..]);
    }
  }

  /** A single effect sends one request when it is one. */
  lemma SingleRequest(e: Effect)
    ensures RequestCount([e]) == if IsRequest(e) then 1 else 0
  {
    assert [e][1..] == [];
  }

  /** The message of a failed reply: the server's `error` field, or `fallback` when that is absent or empty. */
  function ErrorText(error: Option<string>, fallback: string): (r: string)
    ensures error.Some? && error.value != "" ==> r == error.value
    ensures error.None? || error.value == "" ==> r == fallback
  {
    if error.Some? && error.value != "" then error.value else fallback
  }

  /** Where a successful login goes: the farmer dashboard exactly when `user_type` is the string "farmer". */
  function LoginTarget(userType: Option<string>): (url: string)
    ensures url == "/farmer" <==> userType == Some("farmer")
    ensures url == "/buyer" <==> userType != Some("farmer")
  {
    if userType == Some("farmer") then "/farmer" else "/buyer"
  }

  /** What the login form does with the reply to its request. */
  function LoginReaction(outcome: Outcome): (effects: seq<Effect>)
    ensures forall i :: 0 <= i < |effects| ==> !IsRequest(effects[i])
  {
    match outcome
    case Unreachable => [ConnectionError]
    case Replied(reply) =>
      if reply.ok then [Toast("Login successful!", Success), Navigate(LoginTarget(reply.userType))]
      else [Toast(ErrorText(reply.error, "Login failed"), Error)]
  }

  /** The login form's submit handler. */
  function LoginEffects(email: string, password: string, outcome: Outcome): (effects: seq<Effect>)
    ensures RequestCount(effects) == 1
    ensures effects[0] == Post("/api/login", LoginBody(email, password))
    ensures Navigate("/farmer") in effects <==>
      outcome.Replied? && outcome.reply.ok && outcome.reply.userType == Some("farmer")
    ensures Navigate("/buyer") in effects <==>
      outcome.Replied? && outcome.reply.ok && outcome.reply.userType != Some("farmer")
  {
    var request := [Post("/api/login", LoginBody(email, password))];
    SingleRequest(request[0]);
    NoRequests(LoginReaction(outcome));
    RequestCountConcat(request, LoginReaction(outcome));
    request + LoginReaction(outcome)
  }

  /** What the payment form does with the reply to its request. */
  function PaymentReaction(outcome: Outcome): (effects: seq<Effect>)
    ensures forall i :: 0 <= i < |effects| ==> !IsRequest(effects[i])
  {
    match outcome
    case Unreachable => [ConnectionError]
    case Replied(reply) =>
      if reply.ok then [ShowReceipt(reply.transactionId), Toast("Payment successful!", Success)]
      else [Toast(ErrorText(reply.error, "Payment failed"), Error)]
  }

  /**
   * The payment form's submit handler. `checked` is the value of the checked
   * payment-method radio button, if any. Without one, the handler shows an
   * error and sends nothing; with one, it sends a payment for the demo
   * product 1 and buyer 1.
   */
  function PaymentEffects(checked: Option<string>, outcome: Outcome): (effects: seq<Effect>)
    ensures checked.None? ==> effects == [Toast("Select a payment method.", Error)]
    ensures RequestCount(effects) == if checked.None? then 0 else 1
    ensures checked.Some? ==> effects[0] == Post("/api/payments", PaymentBody(checked.value, 1, 1))
    ensures (exists t :: ShowReceipt(t) in effects) <==>
      checked.Some? && outcome.Replied? && outcome.reply.ok
  {
    match checked
    case None =>
      SingleRequest(Toast("Select a payment method.", Error));
      [Toast("Select a payment method.", Error)]
    case Some(m) =>
      var request := [Post("/api/payments", PaymentBody(m, 1, 1))];
      SingleRequest(request[0]);
      NoRequests(PaymentReaction(outcome));
      RequestCountConcat(request, PaymentReaction(outcome));
      assert outcome.Replied? && outcome.reply.ok ==>
        ShowReceipt(outcome.reply.transactionId) in request + PaymentReaction(outcome);
      request + PaymentReaction(outcome)
  }

  /**
   * Deleting a product from the farmer's list: nothing unless the user confirms;
   * then one delete request for that id, and, once the reply is read, its
   * message and a page reload. A failed request is not caught, so nothing follows it.
   */
  function DeleteEffects(id: int, confirmed: bool, outcome: Outcome): (effects: seq<Effect>)
    ensures RequestCount(effects) == if confirmed then 1 else 0
    ensures confirmed ==> effects[0] == DeleteRequest(id)
    ensures Reload in effects <==> confirmed && outcome.Replied?
  {
    if !confirmed then []
    else
      match outcome
      case Unreachable =>
        SingleRequest(DeleteRequest(id));
        [DeleteRequest(id)]
      case Replied(reply) =>
        SingleRequest(DeleteRequest(id));
        NoRequests([Alert(reply.message), Reload]);
        RequestCountConcat([DeleteRequest(id)], [Alert(reply.message), Reload]);
        [DeleteRequest(id)] + [Alert(reply.message), Reload]
  }
}
