/** The checkout wizard: three steps (shipping, payment, review), the form
    state with its required fields, the transitions of each step's controls,
    the step indicator, the "card ending in" line and the fixed summary. */
module Checkout {
  import opened Wrappers
  import Seqs
  import opened Text
  import Cart

  /** `CheckoutStep`. */
  datatype Step = Shipping | Payment | Review

  /** The step the page opens on. */
  const InitialStep: Step := Shipping

  /** Position of a step in the wizard, from 0. */
  function StepIndex(s: Step): nat
  {
    match s
    case Shipping => 0
    case Payment => 1
    case Review => 2
  }

  // ----- Form state -----

  /** The inputs of the shipping form. */
  datatype ShippingField = FirstName | LastName | Address | Apartment | City | State | ZipCode | Phone | Email

  datatype ShippingInfo = ShippingInfo(
    firstName: string,
    lastName: string,
    address: string,
    apartment: string,
    city: string,
    state: string,
    zipCode: string,
    phone: string,
    email: string)

  /** The form opens with every field empty. */
  const EmptyShipping: ShippingInfo := ShippingInfo("", "", "", "", "", "", "", "", "")

  /** The value an input displays. */
  function ShippingValue(info: ShippingInfo, f: ShippingField): string
  {
    match f
    case FirstName => info.firstName
    case LastName => info.lastName
    case Address => info.address
    case Apartment => info.apartment
    case City => info.city
    case State => info.state
    case ZipCode => info.zipCode
    case Phone => info.phone
    case Email => info.email
  }

  /** An input's `onChange`: the spread copy with one field replaced. */
  function SetShipping(info: ShippingInfo, f: ShippingField, v: string): (r: ShippingInfo)
    ensures ShippingValue(r, f) == v
    ensures forall g :: g != f ==> ShippingValue(r, g) == ShippingValue(info, g)
  {
    match f
    case FirstName => info.(firstName := v)
    case LastName => info.(lastName := v)
    case Address => info.(address := v)
    case Apartment => info.(apartment := v)
    case City => info.(city := v)
    case State => info.(state := v)
    case ZipCode => info.(zipCode := v)
    case Phone => info.(phone := v)
    case Email => info.(email := v)
  }

  /** The inputs marked `required`, in form order; the apartment line is optional. */
  const RequiredShippingFields: seq<ShippingField> :=
    [FirstName, LastName, Address, City, State, ZipCode, Phone, Email]

  /** The required inputs that are still empty, in form order. */
  function MissingShipping(info: ShippingInfo): seq<ShippingField>
  {
    Seqs.Filter(RequiredShippingFields, (f: ShippingField) => ShippingValue(info, f) == "")
  }

  /** The browser lets the shipping form submit: every field but the apartment is filled in. */
  function ShippingValid(info: ShippingInfo): (r: bool)
    ensures r <==> MissingShipping(info) == []
    ensures r <==> forall f :: f != Apartment ==> ShippingValue(info, f) != ""
  {
    MissingShippingEmptyIff(info);
    MissingShipping(info) == []
  }

  /** No required input is missing exactly when every field but the apartment is filled in. */
  lemma MissingShippingEmptyIff(info: ShippingInfo)
    ensures MissingShipping(info) == [] <==> forall f :: f != Apartment ==> ShippingValue(info, f) != ""
  {
    Seqs.FilterEmptyIff(RequiredShippingFields, (f: ShippingField) => ShippingValue(info, f) == "");
    if MissingShipping(info) == [] {
      forall f | f != Apartment
        ensures ShippingValue(info, f) != ""
      {
        var k := RequiredPosition(f);
      }
    }
  }

  /** Where a field other than the apartment sits in the required list. */
  lemma RequiredPosition(f: ShippingField) returns (k: nat)
    requires f != Apartment
    ensures k < |RequiredShippingFields| && RequiredShippingFields[k] == f
  {
    k := if f == FirstName then 0 else if f == LastName then 1 else if f == Address then 2
      else if f == City then 3 else if f == State then 4 else if f == ZipCode then 5
      else if f == Phone then 6 else 7;
  }

  /** Whatever the apartment line holds, it does not decide whether the form submits. */
  lemma ApartmentOptional(info: ShippingInfo, v: string)
    ensures ShippingValid(SetShipping(info, Apartment, v)) == ShippingValid(info)
  {
    assert forall f :: f != Apartment ==> ShippingValue(SetShipping(info, Apartment, v), f) == ShippingValue(info, f);
  }

  /** The payment method radio group. */
  datatype PaymentMethod = CreditCard | BankTransfer

  /** The method preselected when the page opens. */
  const InitialMethod: PaymentMethod := CreditCard

  /** The inputs of the card block. */
  datatype CardField = Number | NameOnCard | Expiry | Cvc

  datatype CardInfo = CardInfo(number: string, name: string, expiry: string, cvc: string)

  const EmptyCard: CardInfo := CardInfo("", "", "", "")

  function CardValue(card: CardInfo, f: CardField): string
  {
    match f
    case Number => card.number
    case NameOnCard => card.name
    case Expiry => card.expiry
    case Cvc => card.cvc
  }

  /** A card input's `onChange`: the spread copy with one field replaced. */
  function SetCard(card: CardInfo, f: CardField, v: string): (r: CardInfo)
    ensures CardValue(r, f) == v
    ensures forall g :: g != f ==> CardValue(r, g) == CardValue(card, g)
  {
    match f
    case Number => card.(number := v)
    case NameOnCard => card.(name := v)
    case Expiry => card.(expiry := v)
    case Cvc => card.(cvc := v)
  }

  /** The required inputs the payment form renders: the four card inputs
      for a card, nothing for a bank transfer (which shows only text). */
  function RequiredCardFields(m: PaymentMethod): seq<CardField>
  {
    if m == CreditCard then [Number, NameOnCard, Expiry, Cvc] else []
  }

  function MissingCard(m: PaymentMethod, card: CardInfo): seq<CardField>
  {
    Seqs.Filter(RequiredCardFields(m), (f: CardField) => CardValue(card, f) == "")
  }

  /** The browser lets the payment form submit: a card needs all four card
      inputs filled in, a bank transfer submits whatever they hold. */
  function PaymentValid(m: PaymentMethod, card: CardInfo): (r: bool)
    ensures r <==> MissingCard(m, card) == []
    ensures r <==> (m == CreditCard ==> forall f :: CardValue(card, f) != "")
  {
    MissingCardEmptyIff(m, card);
    MissingCard(m, card) == []
  }

  /** The card inputs are required exactly for a card payment. */
  lemma MissingCardEmptyIff(m: PaymentMethod, card: CardInfo)
    ensures MissingCard(m, card) == [] <==> (m == CreditCard ==> forall f :: CardValue(card, f) != "")
  {
    var required := RequiredCardFields(m);
    Seqs.FilterEmptyIff(required, (f: CardField) => CardValue(card, f) == "");
    if m == CreditCard && MissingCard(m, card) == [] {
      forall f
        ensures CardValue(card, f) != ""
      {
        var k := match f case Number => 0 case NameOnCard => 1 case Expiry => 2 case Cvc => 3;
        assert required[k] == f;
      }
    }
  }

  /** Everything the wizard's forms hold. */
  datatype Form = Form(shipping: ShippingInfo, payWith: PaymentMethod, card: CardInfo)

  const InitialForm: Form := Form(EmptyShipping, InitialMethod, EmptyCard)

  // ----- Transitions -----

  /** The controls of the three step views. */
  datatype Control =
    | ContinueToPayment   // submit of the shipping form
    | BackToShipping      // "Back" in the payment view
    | ContinueToReview    // submit of the payment form
    | EditShipping        // "Edit" beside the shipping summary
    | EditPayment         // "Edit" beside the payment summary
    | PlaceOrder

  /** The controls each step's view draws. */
  predicate Rendered(s: Step, c: Control)
  {
    match s
    case Shipping => c == ContinueToPayment
    case Payment => c == BackToShipping || c == ContinueToReview
    case Review => c == EditShipping || c == EditPayment || c == PlaceOrder
  }

  /** The step after activating control `c` on step `s`, or None when step
      `s` does not draw `c`. A submit whose form has an empty required input
      is stopped by the browser and leaves the step as it is; "Place order"
      only notifies and schedules navigation, so the step stays. */
  function Next(s: Step, c: Control, form: Form): (r: Option<Step>)
    ensures r.None? <==> !Rendered(s, c)
    ensures r.Some? && StepIndex(r.value) > StepIndex(s) ==> StepIndex(r.value) == StepIndex(s) + 1
    ensures r == Some(Payment) && s == Shipping <==> c == ContinueToPayment && s == Shipping && ShippingValid(form.shipping)
    ensures r == Some(Review) && s == Payment <==> c == ContinueToReview && s == Payment && PaymentValid(form.payWith, form.card)
    ensures r.Some? && StepIndex(r.value) < StepIndex(s) ==> c in {BackToShipping, EditShipping, EditPayment}
    ensures s == Payment && c == BackToShipping ==> r == Some(Shipping)
    ensures s == Review && c == EditShipping ==> r == Some(Shipping)
    ensures s == Review && c == EditPayment ==> r == Some(Payment)
    ensures s == Review && c == PlaceOrder ==> r == Some(Review)
  {
    match (s, c)
    case (Shipping, ContinueToPayment) =>
      Some(if ShippingValid(form.shipping) then Payment else Shipping)
    case (Payment, ContinueToReview) =>
      Some(if PaymentValid(form.payWith, form.card) then Review else Payment)
    case (Payment, BackToShipping) => Some(Shipping)
    case (Review, EditShipping) => Some(Shipping)
    case (Review, EditPayment) => Some(Payment)
    case (Review, PlaceOrder) => Some(Review)
    case _ => None
  }

  // ----- Sessions -----

  /** What the shopper does on the page: type into a shipping or card input,
      pick a payment method, or activate one of the views' controls. */
  datatype Event =
    | TypeShipping(field: ShippingField, text: string)
    | TypeCard(cardField: CardField, cardText: string)
    | ChooseMethod(choice: PaymentMethod)
    | Activate(control: Control)

  /** The page's state: the step on screen and everything its forms hold. */
  datatype Session = Session(step: Step, form: Form)

  /** The page as it opens: the shipping step with every input empty. */
  const InitialSession: Session := Session(InitialStep, InitialForm)

  /** Whether the view on screen draws the input or control an event uses:
      the shipping inputs on the shipping step, the radio group on the
      payment step, and the card inputs there only while a card is chosen. */
  predicate Drawn(st: Session, e: Event)
  {
    match e
    case TypeShipping(_, _) => st.step == Shipping
    case TypeCard(_, _) => st.step == Payment && st.form.payWith == CreditCard
    case ChooseMethod(_) => st.step == Payment
    case Activate(c) => Rendered(st.step, c)
  }

  /** One event. Typing and choosing change only the form, activating a
      control changes only the step, and nothing that is not drawn can be used. */
  function Apply(st: Session, e: Event): (r: Session)
    ensures !Drawn(st, e) ==> r == st
    ensures e.Activate? ==> r.form == st.form
    ensures e.Activate? && Drawn(st, e) ==> Next(st.step, e.control, st.form) == Some(r.step)
    ensures !e.Activate? ==> r.step == st.step
    ensures e.TypeShipping? && Drawn(st, e) ==>
      ShippingValue(r.form.shipping, e.field) == e.text &&
      (forall g :: g != e.field ==> ShippingValue(r.form.shipping, g) == ShippingValue(st.form.shipping, g)) &&
      r.form.payWith == st.form.payWith && r.form.card == st.form.card
    ensures e.TypeCard? && Drawn(st, e) ==>
      CardValue(r.form.card, e.cardField) == e.cardText &&
      (forall g :: g != e.cardField ==> CardValue(r.form.card, g) == CardValue(st.form.card, g)) &&
      r.form.payWith == st.form.payWith && r.form.shipping == st.form.shipping
    ensures e.ChooseMethod? && Drawn(st, e) ==>
      r.form == st.form.(payWith := e.choice)
  {
    if !Drawn(st, e) then st
    else match e
      case TypeShipping(f, v) => st.(form := st.form.(shipping := SetShipping(st.form.shipping, f, v)))
      case TypeCard(f, v) => st.(form := st.form.(card := SetCard(st.form.card, f, v)))
      case ChooseMethod(m) => st.(form := st.form.(payWith := m))
      case Activate(c) => st.(step := Next(st.step, c, st.form).value)
  }

  /** The sessions passed through while the events `evs` happen in turn, starting at `st`. */
  function Run(st: Session, evs: seq<Event>): (r: seq<Session>)
    ensures |r| == |evs| + 1 && r[0] == st
    ensures forall i :: 0 <= i < |evs| ==> r[i + 1] == Apply(r[i], evs[i])
    decreases |evs|
  {
    if evs == [] then [st] else [st] + Run(Apply(st, evs[0]), evs[1..])
  }

  /** Along any session, review is never entered straight from shipping. */
  lemma NoSkipAlongRun(st: Session, evs: seq<Event>)
    ensures forall i :: 0 < i < |Run(st, evs)| && Run(st, evs)[i].step == Review ==>
      Run(st, evs)[i - 1].step != Shipping
  {
    var r := Run(st, evs);
    forall i | 0 < i < |r| && r[i].step == Review
      ensures r[i - 1].step != Shipping
    {
      assert r[i] == Apply(r[i - 1], evs[i - 1]);
    }
  }

  /** Every session from the opening page that reaches review went through
      payment before, whatever the shopper typed in between. */
  lemma ReviewOnlyThroughPayment(evs: seq<Event>, j: nat)
    requires j < |Run(InitialSession, evs)| && Run(InitialSession, evs)[j].step == Review
    ensures exists i :: 0 < i < j && Run(InitialSession, evs)[i].step == Payment
  {
    NoSkipAlongRun(InitialSession, evs);
    ReachedThroughPayment(Run(InitialSession, evs), j);
  }

  lemma {:induction false} ReachedThroughPayment(r: seq<Session>, j: nat)
    requires |r| > 0 && r[0].step == Shipping
    requires forall i :: 0 < i < |r| && r[i].step == Review ==> r[i - 1].step != Shipping
    requires j < |r| && r[j].step == Review
    ensures exists i :: 0 < i < j && r[i].step == Payment
    decreases j
  {
    if r[j - 1].step == Review {
      ReachedThroughPayment(r, j - 1);
    } else {
      assert r[j - 1].step == Payment;
    }
  }

  /** The shopper types the eight required shipping inputs, continues, picks
      bank transfer and continues. */
  function FillAndSubmit(info: ShippingInfo): seq<Event>
  {
    [TypeShipping(FirstName, info.firstName), TypeShipping(LastName, info.lastName),
     TypeShipping(Address, info.address), TypeShipping(City, info.city),
     TypeShipping(State, info.state), TypeShipping(ZipCode, info.zipCode),
     TypeShipping(Phone, info.phone), TypeShipping(Email, info.email),
     Activate(ContinueToPayment), ChooseMethod(BankTransfer), Activate(ContinueToReview)]
  }

  /** The shipping form with the required inputs typed in from `info` and the apartment left empty. */
  function Typed(info: ShippingInfo): ShippingInfo
  {
    info.(apartment := "")
  }

  /** The first four inputs typed in. */
  lemma FillFirstHalf(info: ShippingInfo)
    ensures Run(InitialSession, FillAndSubmit(info))[4] ==
      Session(Shipping, Form(ShippingInfo(info.firstName, info.lastName, info.address, "", info.city, "", "", "", ""), CreditCard, EmptyCard))
  {
    var evs := FillAndSubmit(info);
    var r := Run(InitialSession, evs);
    assert r[1] == Apply(r[0], evs[0]);
    assert r[1] == Session(Shipping, Form(ShippingInfo(info.firstName, "", "", "", "", "", "", "", ""), CreditCard, EmptyCard));
    assert r[2] == Apply(r[1], evs[1]);
    assert r[2] == Session(Shipping, Form(ShippingInfo(info.firstName, info.lastName, "", "", "", "", "", "", ""), CreditCard, EmptyCard));
    assert r[3] == Apply(r[2], evs[2]);
    assert r[3] == Session(Shipping, Form(ShippingInfo(info.firstName, info.lastName, info.address, "", "", "", "", "", ""), CreditCard, EmptyCard));
    assert r[4] == Apply(r[3], evs[3]);
    assert r[4] == Session(Shipping, Form(ShippingInfo(info.firstName, info.lastName, info.address, "", info.city, "", "", "", ""), CreditCard, EmptyCard));
  }

  /** All eight required inputs typed in. */
  lemma FillSecondHalf(info: ShippingInfo)
    ensures Run(InitialSession, FillAndSubmit(info))[8] == Session(Shipping, Form(Typed(info), CreditCard, EmptyCard))
  {
    var evs := FillAndSubmit(info);
    var r := Run(InitialSession, evs);
    FillFirstHalf(info);
    assert r[5] == Apply(r[4], evs[4]);
    assert r[5] == Session(Shipping, Form(ShippingInfo(info.firstName, info.lastName, info.address, "", info.city, info.state, "", "", ""), CreditCard, EmptyCard));
    assert r[6] == Apply(r[5], evs[5]);
    assert r[6] == Session(Shipping, Form(ShippingInfo(info.firstName, info.lastName, info.address, "", info.city, info.state, info.zipCode, "", ""), CreditCard, EmptyCard));
    assert r[7] == Apply(r[6], evs[6]);
    assert r[7] == Session(Shipping, Form(ShippingInfo(info.firstName, info.lastName, info.address, "", info.city, info.state, info.zipCode, info.phone, ""), CreditCard, EmptyCard));
    assert r[8] == Apply(r[7], evs[7]);
    assert r[8] == Session(Shipping, Form(ShippingInfo(info.firstName, info.lastName, info.address, "", info.city, info.state, info.zipCode, info.phone, info.email), CreditCard, EmptyCard));
  }

  /** From the opening page, typing non-empty required inputs and submitting
      both forms passes through payment and ends on review. */
  lemma HappyPath(info: ShippingInfo)
    requires forall f :: f != Apartment ==> ShippingValue(info, f) != ""
    ensures Run(InitialSession, FillAndSubmit(info))[9].step == Payment
    ensures Run(InitialSession, FillAndSubmit(info))[|FillAndSubmit(info)|].step == Review
  {
    var evs := FillAndSubmit(info);
    var r := Run(InitialSession, evs);
    FillSecondHalf(info);
    TypedValid(info);
    assert r[9] == Apply(r[8], evs[8]);
    assert r[10] == Apply(r[9], evs[9]);
    assert PaymentValid(BankTransfer, EmptyCard);
    assert r[11] == Apply(r[10], evs[10]);
  }

  /** Typing non-empty values into the required inputs makes the shipping form submittable. */
  lemma TypedValid(info: ShippingInfo)
    requires forall f :: f != Apartment ==> ShippingValue(info, f) != ""
    ensures ShippingValid(Typed(info))
  {
    var filled := Typed(info);
    forall f | f != Apartment
      ensures ShippingValue(filled, f) != ""
    {
      assert ShippingValue(filled, f) == ShippingValue(info, f);
    }
  }

  /** "Back" always returns to shipping, whatever the payment form holds. */
  lemma BackAlwaysReturns(form: Form)
    ensures Run(Session(Payment, form), [Activate(BackToShipping)]) == [Session(Payment, form), Session(Shipping, form)]
  {
  }

  // ----- Step indicator -----

  /** How a step's circle is drawn: highlighted with its number, checked, or plain with its number. */
  datatype Badge = Current | Completed | Upcoming

  /** The circle for position `p` while the wizard is on step `s`. */
  function Indicator(s: Step, p: Step): (b: Badge)
    ensures b == Current <==> s == p
    ensures b == Completed <==> StepIndex(p) < StepIndex(s)
    ensures b == Upcoming <==> StepIndex(s) < StepIndex(p)
  {
    match p
    case Shipping => if s == Shipping then Current else Completed
    case Payment => if s == Payment then Current else if s == Review then Completed else Upcoming
    case Review => if s == Review then Current else Upcoming
  }

  /** Which circles show a check mark: the first off the first step, the second on review, the third never. */
  lemma IndicatorChecks(s: Step)
    ensures Indicator(s, Shipping) == Completed <==> s != Shipping
    ensures Indicator(s, Payment) == Completed <==> s == Review
    ensures Indicator(s, Review) != Completed
  {
  }

  // ----- Review -----

  /** The payment line of the review. */
  datatype PaymentLine = CardEnding(digits: string) | BankTransferLine

  /** A card shows the last four characters of its number (`slice(-4)`). */
  function PaymentShown(m: PaymentMethod, card: CardInfo): (r: PaymentLine)
    ensures r.CardEnding? <==> m == CreditCard
    ensures r.CardEnding? ==> |r.digits| == (if |card.number| < 4 then |card.number| else 4)
    ensures r.CardEnding? ==> card.number == card.number[..|card.number| - |r.digits|] + r.digits
  {
    if m == CreditCard then CardEnding(SliceFromEnd(card.number, 4)) else BankTransferLine
  }

  // ----- Summary -----

  /** The checkout's summary, computed from a fixed subtotal rather than the cart. */
  function FixedSummary(): (t: Cart.Totals)
    ensures t == Cart.Summarize(1429.98)
    ensures t == Cart.Totals(1429.98, 5.99, 100.0986, 1536.0686)
  {
    var subtotal := 1429.98;
    var shipping := 5.99;
    var tax := subtotal * 0.07;
    Cart.Totals(subtotal, shipping, tax, subtotal + shipping + tax)
  }
}
