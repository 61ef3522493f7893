/**
 * The checkout page: a three-step flow (shipping, payment, confirmation)
 * with a row of step indicators above the card of the current step.
 */
module Checkout {
  import opened Collections

  datatype Step = Shipping | Payment | Confirmation

  /** The position of a step in the flow, counting from 1. */
  function Rank(s: Step): (r: nat)
    ensures 1 <= r <= 3
    ensures r == 1 <==> s == Shipping
    ensures r == 3 <==> s == Confirmation
  {
    match s
    case Shipping => 1
    case Payment => 2
    case Confirmation => 3
  }

  // ---------------------------------------------------------------------
  // Transitions
  // ---------------------------------------------------------------------

  /** What the user can do: submit one of the two forms, or press Back. */
  datatype Action = SubmitShipping | SubmitPayment | Back

  /**
   * The actions the card of a step offers: the shipping form's submit, the
   * payment form's submit and its Back button, and nothing on the
   * confirmation card (its two buttons only navigate away).
   */
  function Offered(s: Step): (actions: set<Action>)
    ensures s == Confirmation <==> actions == {}
    ensures Back in actions <==> s == Payment
  {
    match s
    case Shipping => {SubmitShipping}
    case Payment => {SubmitPayment, Back}
    case Confirmation => {}
  }

  /** The step a handler sets, whatever the current step. */
  function Target(a: Action): Step {
    match a
    case SubmitShipping => Payment
    case SubmitPayment => Confirmation
    case Back => Shipping
  }

  /**
   * One user action: an offered action runs its handler; anything else
   * cannot happen and changes nothing. The flow moves at most one step
   * forward at a time, only Back moves it backwards (to shipping), and
   * confirmation is entered only by submitting payment.
   */
  function Next(s: Step, a: Action): (t: Step)
    ensures t != s ==> a in Offered(s)
    ensures Rank(t) <= Rank(s) + 1
    ensures Rank(t) < Rank(s) ==> t == Shipping && a == Back
    ensures t == Confirmation ==> s == Confirmation || (s == Payment && a == SubmitPayment)
  {
    if a in Offered(s) then Target(a) else s
  }

  /** A run of actions from a step. */
  function Run(s: Step, actions: seq<Action>): Step
    decreases |actions|
  {
    if actions == [] then s else Run(Next(s, actions[0]), actions[1..])
  }

  /** The handlers of the shipping and payment cards, step by step. */
  lemma HandlerTable()
    ensures Next(Shipping, SubmitShipping) == Payment
    ensures Next(Payment, SubmitPayment) == Confirmation
    ensures Next(Payment, Back) == Shipping
    ensures forall a :: Next(Confirmation, a) == Confirmation
    ensures Next(Shipping, SubmitPayment) == Shipping && Next(Shipping, Back) == Shipping
    ensures Next(Payment, SubmitShipping) == Payment
  {
  }

  /** Once confirmed, no series of actions leaves the confirmation step. */
  lemma {:induction false} ConfirmationIsTerminal(actions: seq<Action>)
    ensures Run(Confirmation, actions) == Confirmation
    decreases |actions|
  {
    if actions != [] {
      assert Next(Confirmation, actions[0]) == Confirmation;
      ConfirmationIsTerminal(actions[1..]);
    }
  }

  /** Confirmation is reached only through the payment step's submit. */
  lemma {:induction false} ConfirmationNeedsPayment(s: Step, actions: seq<Action>)
    requires s != Confirmation
    requires Run(s, actions) == Confirmation
    ensures SubmitPayment in actions
    decreases |actions|
  {
    if actions != [] {
      var t := Next(s, actions[0]);
      if actions[0] != SubmitPayment {
        ConfirmationNeedsPayment(t, actions[1..]);
        assert SubmitPayment in actions[1..];
      }
    }
  }

  /**
   * From the start, confirmation needs the shipping submit and, later, the
   * payment submit.
   */
  lemma {:induction false} ConfirmationNeedsBothSubmits(actions: seq<Action>)
    requires Run(Shipping, actions) == Confirmation
    ensures exists i, j :: 0 <= i < j < |actions| && actions[i] == SubmitShipping && actions[j] == SubmitPayment
    decreases |actions|
  {
    if actions != [] {
      var rest := actions[1..];
      if actions[0] == SubmitShipping {
        ConfirmationNeedsPayment(Payment, rest);
        var j :| 0 <= j < |rest| && rest[j] == SubmitPayment;
        assert actions[0] == SubmitShipping && actions[j + 1] == SubmitPayment;
      } else {
        assert Next(Shipping, actions[0]) == Shipping;
        ConfirmationNeedsBothSubmits(rest);
        var i, j :| 0 <= i < j < |rest| && rest[i] == SubmitShipping && rest[j] == SubmitPayment;
        assert actions[i + 1] == SubmitShipping && actions[j + 1] == SubmitPayment;
      }
    }
  }

  // ---------------------------------------------------------------------
  // What is rendered
  // ---------------------------------------------------------------------

  /** The cards rendered below the indicators: one guard per step. */
  function CardsShown(s: Step): seq<Step> {
    (if s == Shipping then [Shipping] else [])
    + (if s == Payment then [Payment] else [])
    + (if s == Confirmation then [Confirmation] else [])
  }

  /** Exactly one card is rendered, the one of the current step. */
  lemma ExactlyOneCard(s: Step)
    ensures CardsShown(s) == [s]
  {
  }

  /** The three circles' highlight conditions, as written on the page. */
  function Highlighted(s: Step): (h: seq<bool>)
    ensures |h| == 3
  {
    [ s == Shipping || s == Payment || s == Confirmation,
      s == Payment || s == Confirmation,
      s == Confirmation ]
  }

  /**
   * The circles are highlighted up to and including the current step, so
   * one, two and three are lit in step order.
   */
  lemma HighlightsFollowRank(s: Step)
    ensures forall i :: 0 <= i < 3 ==> (Highlighted(s)[i] <==> i < Rank(s))
    ensures CountTrue(Highlighted(s)) == Rank(s)
  {
    var h := Highlighted(s);
    assert CountTrue(h[2..]) == (if h[2] then 1 else 0) by {
      assert h[2..][1..] == [];
    }
    assert CountTrue(h[1..]) == (if h[1] then 1 else 0) + CountTrue(h[2..]) by {
      assert h[1..][1..] == h[2..];
    }
  }

  /** What a circle shows: its number or a check mark. */
  datatype Badge = Numeral(n: nat) | CheckMark

  /** The circles' contents, as written on the page (the third always shows 3). */
  function Badges(s: Step): (b: seq<Badge>)
    ensures |b| == 3
  {
    [ if s == Shipping then Numeral(1) else CheckMark,
      if s == Payment then Numeral(2) else if s == Confirmation then CheckMark else Numeral(2),
      Numeral(3) ]
  }

  /**
   * A circle shows a check mark exactly when its step lies behind the current
   * one (the last circle never does), and its own number otherwise.
   */
  lemma BadgesFollowRank(s: Step)
    ensures forall i :: 0 <= i < 3 ==>
      Badges(s)[i] == if i + 1 < Rank(s) then CheckMark else Numeral(i + 1)
    ensures Badges(s)[0] == Numeral(1) <==> s == Shipping
    ensures Badges(s)[1] == CheckMark <==> s == Confirmation
  {
  }

  // ---------------------------------------------------------------------
  // The page state
  // ---------------------------------------------------------------------

  class CheckoutPage {
    var step: Step

    /** The page opens on the shipping step. */
    constructor ()
      ensures step == Shipping
    {
      step := Shipping;
    }

    /** `handleShippingSubmit`: on to payment. */
    method HandleShippingSubmit()
      modifies this
      ensures step == Payment
    {
      step := Payment;
    }

    /** `handlePaymentSubmit`: on to confirmation. */
    method HandlePaymentSubmit()
      modifies this
      ensures step == Confirmation
    {
      step := Confirmation;
    }

    /** The payment card's Back button: back to shipping. */
    method HandleBack()
      modifies this
      ensures step == Shipping
    {
      step := Shipping;
    }

    /** One user action on the rendered page. */
    method Perform(a: Action)
      modifies this
      ensures step == Next(old(step), a)
      ensures old(step) == Confirmation ==> step == Confirmation
    {
      if a in Offered(step) {
        match a
        case SubmitShipping => HandleShippingSubmit();
        case SubmitPayment => HandlePaymentSubmit();
        case Back => HandleBack();
      }
    }
  }
}
