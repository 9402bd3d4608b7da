/**
 * The payment dispatcher (js/payment.js): the method table, the `paymentState` record, the
 * mock and Midtrans paths with their callbacks, and transaction ids.
 *
 * The asynchronous parts are represented by what they end in: `DemoAction` is what the user
 * does in the demo modal, `SnapEvent` how the token request and the Snap widget end, and
 * `Settlement` how the returned promise ends.
 */
module Payment {
  import opened Common

  /** An entry of `PAYMENT_METHODS`. */
  datatype MethodInfo = MethodInfo(name: string, code: string, fee: real)

  const MethodCodes: set<string> := {"transfer", "ewallet", "creditcard", "virtual", "mock"}

  /** `PAYMENT_METHODS`: five methods keyed by their code. */
  function PaymentMethods(): (t: map<string, MethodInfo>)
    ensures t.Keys == MethodCodes
    ensures forall c :: c in t ==> t[c].code == c && t[c].fee >= 0.0
  {
    map[
      "transfer" := MethodInfo("Transfer Bank", "transfer", 0.0),
      "ewallet" := MethodInfo("E-Wallet (GCash, Dana, OVO)", "ewallet", 0.0),
      "creditcard" := MethodInfo("Kartu Kredit", "creditcard", 2.5),
      "virtual" := MethodInfo("Virtual Account", "virtual", 0.0),
      "mock" := MethodInfo("Demo Payment (Testing)", "mock", 0.0)]
  }

  /**
   * Property names every plain JavaScript object inherits from `Object.prototype`; looking
   * one of them up in `PAYMENT_METHODS` yields a function, not `undefined`.
   */
  const InheritedKeys: set<string> := {
    "constructor", "hasOwnProperty", "isPrototypeOf", "propertyIsEnumerable", "toString",
    "toLocaleString", "valueOf", "__proto__", "__defineGetter__", "__defineSetter__",
    "__lookupGetter__", "__lookupSetter__"}

  /** `validatePaymentMethod` as written: `method && PAYMENT_METHODS[method] !== undefined`. */
  function ValidatePaymentMethodAsWritten(m: string): (ok: bool)
    ensures ValidatePaymentMethod(m) ==> ok
    ensures ok <==> ValidatePaymentMethod(m) || (m != "" && m in InheritedKeys)
  {
    m != "" && (m in PaymentMethods() || m in InheritedKeys)
  }

  /** The check as written accepts `"toString"`, which is no payment method. */
  lemma AsWrittenAcceptsInheritedName()
    ensures ValidatePaymentMethodAsWritten("toString") && "toString" !in PaymentMethods()
  {
  }

  /** `validatePaymentMethod` as intended: an own key of the method table. */
  function ValidatePaymentMethod(m: string): (ok: bool)
    ensures ok <==> m in MethodCodes
    ensures ok ==> m != "" && PaymentMethods()[m].code == m
  {
    m in PaymentMethods()
  }

  /** The two checks differ exactly on the inherited property names. */
  lemma ValidatorsDifferOnlyOnInheritedNames(m: string)
    ensures ValidatePaymentMethodAsWritten(m) != ValidatePaymentMethod(m) <==> m in InheritedKeys
  {
  }

  // ---------------------------------------------------------------------------------------
  // Transaction ids: `WW-${Date.now()}-${Math.floor(Math.random() * 10000)}`

  predicate IsDigit(c: char)
  {
    '0' <= c <= '9'
  }

  predicate AllDigits(s: string)
  {
    forall i :: 0 <= i < |s| ==> IsDigit(s[i])
  }

  /** The decimal text of a non-negative integer, as a template literal prints it. */
  function DecimalString(n: nat): (s: string)
    ensures |s| > 0 && AllDigits(s)
  {
    if n < 10 then [('0' as int + n) as char]
    else DecimalString(n / 10) + [('0' as int + n % 10) as char]
  }

  /** The value of a string of decimal digits. */
  function ParseDecimal(s: string): nat
    requires AllDigits(s)
  {
    if |s| == 0 then 0
    else 10 * ParseDecimal(s[..|s| - 1]) + (s[|s| - 1] as int - '0' as int)
  }

  lemma {:induction false} DecimalRoundTrip(n: nat)
    ensures ParseDecimal(DecimalString(n)) == n
  {
    var s := DecimalString(n);
    if n >= 10 {
      DecimalRoundTrip(n / 10);
      assert s[..|s| - 1] == DecimalString(n / 10);
    }
  }

  /** `Math.floor(Math.random() * 10000)` for a draw in [0, 1). */
  function RandomSuffix(draw: real): (r: nat)
    requires 0.0 <= draw < 1.0
    ensures r <= 9999
  {
    (draw * 10000.0).Floor
  }

  /** The text of a transaction id. */
  function FormatTransactionId(timestamp: nat, suffix: nat): string
  {
    "WW-" + DecimalString(timestamp) + "-" + DecimalString(suffix)
  }

  /** `generateTransactionId` with the clock and the random draw as inputs. */
  function GenerateTransactionId(now: nat, draw: real): (id: string)
    requires 0.0 <= draw < 1.0
    ensures exists suffix: nat :: suffix <= 9999 && ParseTransactionId(id) == Some((now, suffix))
  {
    var suffix := RandomSuffix(draw);
    TransactionIdRoundTrip(now, suffix);
    FormatTransactionId(now, suffix)
  }

  /** Reads a transaction id back into its timestamp and random suffix. */
  function ParseTransactionId(s: string): Option<(nat, nat)>
  {
    if |s| < 3 || s[..3] != "WW-" then None
    else
      var rest := s[3..];
      var k := IndexOf(rest, '-');
      if k == |rest| then None
      else if AllDigits(rest[..k]) && AllDigits(rest[k + 1..]) && k > 0 && k + 1 < |rest|
      then Some((ParseDecimal(rest[..k]), ParseDecimal(rest[k + 1..])))
      else None
  }

  /** Every transaction id reads back as the timestamp and suffix it was made from. */
  lemma TransactionIdRoundTrip(timestamp: nat, suffix: nat)
    ensures ParseTransactionId(FormatTransactionId(timestamp, suffix)) == Some((timestamp, suffix))
  {
    var a, b := DecimalString(timestamp), DecimalString(suffix);
    var s := FormatTransactionId(timestamp, suffix);
    assert s[..3] == "WW-";
    var rest := s[3..];
    assert rest == a + "-" + b;
    var k := IndexOf(rest, '-');
    assert rest[|a|] == '-';
    assert k == |a|;
    assert rest[..k] == a;
    assert rest[k + 1..] == b;
    DecimalRoundTrip(timestamp);
    DecimalRoundTrip(suffix);
  }

  /** Ids differ whenever the timestamp or the suffix differs; equal pairs collide. */
  lemma TransactionIdsDistinct(t1: nat, s1: nat, t2: nat, s2: nat)
    ensures FormatTransactionId(t1, s1) == FormatTransactionId(t2, s2) <==> t1 == t2 && s1 == s2
  {
    TransactionIdRoundTrip(t1, s1);
    TransactionIdRoundTrip(t2, s2);
  }

  // ---------------------------------------------------------------------------------------
  // paymentState and processPayment

  datatype Status = Pending | Success

  /** The `paymentState` record. */
  datatype PaymentState = PaymentState(totalCost: int, paymentMethod: Option<string>, transactionId: Option<string>, status: Status)

  const InitialState: PaymentState := PaymentState(0, None, None, Pending)

  /** The order summary the form hands over. */
  datatype Order = Order(wasteType: string, weight: Option<real>, location: string, totalCost: int)

  /** What the user does in the demo payment modal. */
  datatype DemoAction = Confirm | Cancel | CloseButton | Backdrop

  /** How the snap-token request and the Snap widget end. */
  datatype SnapEvent =
    | TokenRequestFailed
    | SnapMissing
    | SnapSuccess(transactionId: string)
    | SnapPending
    | SnapError
    | SnapClosed

  /** How a promise ends: fulfilled with a value, rejected with a reason, or never. */
  datatype Settlement = Fulfilled(value: bool) | Rejected(reason: string) | Unsettled

  /** `processMockPayment`: only the confirm button fulfils; every other way out leaves the promise pending. */
  function MockPayment(s: PaymentState, demo: DemoAction, now: nat, draw: real): (r: (PaymentState, Settlement))
    requires 0.0 <= draw < 1.0
    ensures r.1 == Fulfilled(true) || r.1 == Unsettled
    ensures r.1 == Fulfilled(true) <==> demo == Confirm
    ensures r.1 == Unsettled ==> r.0 == s
    ensures r.1 == Fulfilled(true) ==>
      r.0 == s.(transactionId := Some(GenerateTransactionId(now, draw)), status := Success)
  {
    if demo == Confirm then (s.(transactionId := Some(GenerateTransactionId(now, draw)), status := Success), Fulfilled(true))
    else (s, Unsettled)
  }

  /** `processMidtransPayment`: success and pending fulfil with true, everything else rejects. */
  function MidtransPayment(s: PaymentState, snap: SnapEvent): (r: (PaymentState, Settlement))
    ensures r.1 != Unsettled && r.1 != Fulfilled(false)
    ensures r.1 == Fulfilled(true) <==> snap.SnapSuccess? || snap.SnapPending?
    ensures !snap.SnapSuccess? ==> r.0 == s
    ensures snap.SnapSuccess? ==> r.0 == s.(transactionId := Some(snap.transactionId), status := Success)
  {
    match snap
    case TokenRequestFailed => (s, Rejected("Failed to get snap token"))
    case SnapMissing => (s, Rejected("Midtrans Snap not loaded"))
    case SnapSuccess(id) => (s.(transactionId := Some(id), status := Success), Fulfilled(true))
    case SnapPending => (s, Fulfilled(true))
    case SnapError => (s, Rejected("Payment failed"))
    case SnapClosed => (s, Rejected("Payment cancelled"))
  }

  /**
   * `processPayment`: a missing method fulfils false and changes nothing; otherwise record the
   * method and the order's cost, dispatch on `'mock'`, and turn a rejection into false.
   */
  function ProcessOutcome(s: PaymentState, order: Order, code: string, demo: DemoAction, snap: SnapEvent,
                          now: nat, draw: real): (r: (PaymentState, Settlement))
    requires 0.0 <= draw < 1.0
    ensures !r.1.Rejected?
    ensures code == "" ==> r == (s, Fulfilled(false))
    ensures code != "" ==> r.0.paymentMethod == Some(code) && r.0.totalCost == order.totalCost
    ensures code != "" && r.1 != Fulfilled(true) ==>
      r.0 == s.(paymentMethod := Some(code), totalCost := order.totalCost)
    ensures code == "mock" && demo == Confirm ==>
      r.0 == s.(paymentMethod := Some(code), totalCost := order.totalCost,
                transactionId := Some(GenerateTransactionId(now, draw)), status := Success)
    ensures code != "" && code != "mock" && snap.SnapSuccess? ==>
      r.0 == s.(paymentMethod := Some(code), totalCost := order.totalCost,
                transactionId := Some(snap.transactionId), status := Success)
    ensures code != "" && code != "mock" && snap.SnapPending? ==>
      r.0 == s.(paymentMethod := Some(code), totalCost := order.totalCost)
  {
    if code == "" then (s, Fulfilled(false))
    else
      var s' := s.(paymentMethod := Some(code), totalCost := order.totalCost);
      var (s'', end) := if code == "mock" then MockPayment(s', demo, now, draw) else MidtransPayment(s', snap);
      (s'', if end.Rejected? then Fulfilled(false) else end)
  }

  /** The promise of `processPayment` fulfils with true exactly on a demo confirmation or a Snap success or pending. */
  lemma ProcessOutcomeSucceeds(s: PaymentState, order: Order, code: string, demo: DemoAction, snap: SnapEvent, now: nat, draw: real)
    requires 0.0 <= draw < 1.0
    ensures ProcessOutcome(s, order, code, demo, snap, now, draw).1 == Fulfilled(true)
        <==> code != "" && (if code == "mock" then demo == Confirm else snap.SnapSuccess? || snap.SnapPending?)
    ensures ProcessOutcome(s, order, code, demo, snap, now, draw).1 == Unsettled <==> code == "mock" && demo != Confirm
  {
  }

  /**
   * A demo confirmation stores a well-formed id for the current time and marks success; the
   * method fee is never added to the cost.
   */
  lemma MockConfirmRecordsId(s: PaymentState, order: Order, now: nat, draw: real)
    requires 0.0 <= draw < 1.0
    ensures var (s', end) := ProcessOutcome(s, order, "mock", Confirm, TokenRequestFailed, now, draw);
      && end == Fulfilled(true) && s'.status == Success && s'.totalCost == order.totalCost
      && s'.transactionId.Some?
      && exists suffix: nat :: suffix <= 9999 && ParseTransactionId(s'.transactionId.value) == Some((now, suffix))
  {
  }

  /** Unrecognised method codes are not rejected: they take the Midtrans path and can succeed. */
  lemma UnknownMethodReachesGateway(s: PaymentState, order: Order, code: string, id: string, now: nat, draw: real)
    requires code != "" && !ValidatePaymentMethod(code)
    requires 0.0 <= draw < 1.0
    ensures ProcessOutcome(s, order, code, Cancel, SnapSuccess(id), now, draw)
         == (PaymentState(order.totalCost, Some(code), Some(id), Success), Fulfilled(true))
  {
  }

  /** A pending Snap payment fulfils true but leaves status and transaction id as they were. */
  lemma PendingLeavesStatus(s: PaymentState, order: Order, code: string, now: nat, draw: real)
    requires code != "" && code != "mock"
    requires 0.0 <= draw < 1.0
    ensures var (s', end) := ProcessOutcome(s, order, code, Cancel, SnapPending, now, draw);
      end == Fulfilled(true) && s'.status == s.status && s'.transactionId == s.transactionId
  {
  }

  /**
   * `paymentState` is never reset: an attempt that does not fulfil with true keeps the previous
   * attempt's transaction id and status, so a success recorded earlier survives a failed or
   * cancelled attempt with a new method and cost.
   */
  lemma FailedAttemptKeepsEarlierResult(s: PaymentState, order: Order, code: string, demo: DemoAction,
                                        snap: SnapEvent, now: nat, draw: real)
    requires 0.0 <= draw < 1.0
    ensures var (s', end) := ProcessOutcome(s, order, code, demo, snap, now, draw);
      end != Fulfilled(true) ==> s'.transactionId == s.transactionId && s'.status == s.status
    ensures var (s', end) := ProcessOutcome(s, order, code, demo, snap, now, draw);
      s'.status == Success <==> s.status == Success || (end == Fulfilled(true) && (code == "mock" || !snap.SnapPending?))
  {
  }

  /** The `paymentState` object, updated in place by the dispatcher and its callbacks. */
  class PaymentGateway {
    var totalCost: int
    var paymentMethod: Option<string>
    var transactionId: Option<string>
    var status: Status

    constructor ()
      ensures State() == InitialState
    {
      totalCost, paymentMethod, transactionId, status := 0, None, None, Pending;
    }

    /** `getPaymentStatus`. */
    function State(): PaymentState
      reads this
    {
      PaymentState(totalCost, paymentMethod, transactionId, status)
    }

    method ProcessMockPayment(demo: DemoAction, now: nat, draw: real) returns (end: Settlement)
      requires 0.0 <= draw < 1.0
      modifies this
      ensures (State(), end) == MockPayment(old(State()), demo, now, draw)
    {
      if demo != Confirm {
        // cancel, close and backdrop only remove the modal
        return Unsettled;
      }
      transactionId := Some(GenerateTransactionId(now, draw));
      status := Success;
      return Fulfilled(true);
    }

    method ProcessMidtransPayment(snap: SnapEvent) returns (end: Settlement)
      modifies this
      ensures (State(), end) == MidtransPayment(old(State()), snap)
    {
      match snap
      case TokenRequestFailed =>
        end := Rejected("Failed to get snap token");
      case SnapMissing =>
        end := Rejected("Midtrans Snap not loaded");
      case SnapSuccess(id) =>
        transactionId := Some(id);
        status := Success;
        end := Fulfilled(true);
      case SnapPending =>
        end := Fulfilled(true);
      case SnapError =>
        end := Rejected("Payment failed");
      case SnapClosed =>
        end := Rejected("Payment cancelled");
    }

    /** `window.processPayment`. */
    method ProcessPayment(order: Order, code: string, demo: DemoAction, snap: SnapEvent, now: nat, draw: real)
      returns (end: Settlement)
      requires 0.0 <= draw < 1.0
      modifies this
      ensures (State(), end) == ProcessOutcome(old(State()), order, code, demo, snap, now, draw)
    {
      if code == "" {
        return Fulfilled(false);
      }
      paymentMethod := Some(code);
      totalCost := order.totalCost;
      if code == "mock" {
        end := ProcessMockPayment(demo, now, draw);
      } else {
        end := ProcessMidtransPayment(snap);
      }
      if end.Rejected? {
        end := Fulfilled(false);
      }
    }
  }
}
