/** The customer flow of the LondonHome app: choosing a service, reviewing
    the order, and confirming it, which pays from the wallet, earns loyalty
    points and records the booking. `Next` is the flow as a reducer over the
    customer state; `CustomerSession` is the same state held in fields that
    the handlers update in place. */
module Customer {
  import opened Types
  import opened Catalog

  /** The page shown inside the Discover tab. */
  datatype FlowStep = HomeStep | BookingStep | ConfirmedStep

  /** What confirming an order did: booked it, or returned early. */
  datatype FinalizeOutcome = Booked | NoServiceSelected | InsufficientFunds

  /** The state of the customer view that the booking flow reads and writes. */
  datatype CustomerState = CustomerState(
    activeTab: CustomerTab,
    user: UserProfile,
    bookings: seq<Booking>,
    selected: Option<Service>,
    step: FlowStep)

  /** The user's actions on the booking flow. Booking and transaction ids are
      supplied by the caller. */
  datatype Action =
    | Book(service: Service)
    | BackToServices
    | Finalize(bookingId: string, transactionId: string)
    | TrackActiveTasks
    | SelectTab(tab: CustomerTab)

  /** The share of the list price a Gold member saves, as shown on the review
      screen. */
  function GoldSavings(price: real): real {
    price * 0.15
  }

  /** The price charged: Gold members pay 85% of the list price, Basic
      members the list price. */
  function FinalPrice(membership: Membership, price: real): (r: real)
    ensures 0.0 <= price ==> 0.0 <= r <= price
    ensures membership == Gold ==> r == price - GoldSavings(price)
    ensures membership == Basic ==> r == price
  {
    if membership == Gold then price * 0.85 else price
  }

  /** The booking recorded when an order is confirmed. */
  function NewBooking(service: Service, price: real, id: string): Booking {
    Booking(id, service.id, service.name, "Tomorrow", "10:00", Pending, price,
            "12 Sloane St, London", None, None, None, None, None)
  }

  /** The wallet debit recorded when an order is confirmed. */
  function BookingDebit(service: Service, price: real, id: string): Transaction {
    Transaction(id, Debit, price, "Booking: " + service.name, "Just now")
  }

  /** The price of the selected service for this user. */
  function Charge(st: CustomerState): real
    requires st.selected.Some?
  {
    FinalPrice(st.user.membership, st.selected.value.price)
  }

  /** Whether confirming now books the order or returns early, and why. */
  function Outcome(st: CustomerState): (r: FinalizeOutcome)
    ensures r == NoServiceSelected <==> st.selected.None?
    ensures r == InsufficientFunds <==> st.selected.Some? && st.user.walletBalance < Charge(st)
  {
    match st.selected
    case None => NoServiceSelected
    case Some(_) =>
      if st.user.walletBalance < Charge(st) then InsufficientFunds
      else Booked
  }

  /** The state after one user action. */
  function Next(st: CustomerState, a: Action): CustomerState {
    match a
    case Book(service) => st.(selected := Some(service), step := BookingStep)
    case BackToServices => st.(step := HomeStep)
    case TrackActiveTasks => st.(step := HomeStep, activeTab := Tasks)
    case SelectTab(tab) => st.(activeTab := tab, step := HomeStep)
    case Finalize(bookingId, transactionId) =>
      if Outcome(st) != Booked then st
      else
        var service := st.selected.value;
        var price := Charge(st);
        st.(user := st.user.(walletBalance := st.user.walletBalance - price,
                             points := st.user.points + 50,
                             transactions := [BookingDebit(service, price, transactionId)] + st.user.transactions),
            bookings := [NewBooking(service, price, bookingId)] + st.bookings,
            step := ConfirmedStep)
  }

  /** The state after a sequence of user actions, first action first. */
  function Run(st: CustomerState, actions: seq<Action>): CustomerState
    decreases |actions|
  {
    if actions == [] then st else Run(Next(st, actions[0]), actions[1..])
  }

  /** The customer view as it first appears: the Discover tab's home page,
      nothing selected. */
  function Initial(user: UserProfile, bookings: seq<Booking>): CustomerState {
    CustomerState(Discover, user, bookings, None, HomeStep)
  }

  // ---------------------------------------------------------------------
  // Confirming an order

  /** An order that is not booked changes nothing at all. */
  lemma FinalizeRefusedChangesNothing(st: CustomerState, bookingId: string, transactionId: string)
    requires Outcome(st) != Booked
    ensures Next(st, Finalize(bookingId, transactionId)) == st
  {
  }

  /** A booked order debits exactly the final price (so a balance that covered
      it stays non-negative), adds exactly 50 points whatever the tier and the
      price, puts one debit for that price in front of the unchanged history,
      one pending booking in front of the unchanged booking list, and shows
      the confirmation page. */
  lemma FinalizeBooked(st: CustomerState, bookingId: string, transactionId: string)
    requires Outcome(st) == Booked
    ensures var st' := Next(st, Finalize(bookingId, transactionId));
      var service := st.selected.value;
      var price := Charge(st);
      && st'.user.walletBalance + price == st.user.walletBalance
      && (0.0 <= st.user.walletBalance ==> 0.0 <= st'.user.walletBalance)
      && st'.user.points == st.user.points + 50
      && |st'.user.transactions| == |st.user.transactions| + 1
      && st'.user.transactions[1..] == st.user.transactions
      && st'.user.transactions[0].kind == Debit
      && st'.user.transactions[0].amount == price
      && st'.user.transactions[0].description == "Booking: " + service.name
      && st'.user.transactions[0].id == transactionId
      && |st'.bookings| == |st.bookings| + 1
      && st'.bookings[1..] == st.bookings
      && st'.bookings[0].status == Pending
      && st'.bookings[0].totalPrice == price
      && st'.bookings[0].serviceId == service.id
      && st'.bookings[0].serviceName == service.name
      && st'.bookings[0].id == bookingId
      && st'.user.name == st.user.name && st'.user.membership == st.user.membership
      && st'.selected == st.selected && st'.activeTab == st.activeTab
      && st'.step == ConfirmedStep
  {
    var st' := Next(st, Finalize(bookingId, transactionId));
    assert st'.user.transactions[1..] == st.user.transactions;
    assert st'.bookings[1..] == st.bookings;
  }

  /** Confirming succeeds exactly when a service is selected and the balance
      covers its final price; an equal balance is enough. */
  lemma BookedIffAffordable(st: CustomerState)
    ensures Outcome(st) == Booked <==>
      st.selected.Some? && Charge(st) <= st.user.walletBalance
  {
  }

  // ---------------------------------------------------------------------
  // The wallet reconciles with the bookings

  /** The sum of the amounts of a run of transactions. */
  function Total(ts: seq<Transaction>): real {
    if ts == [] then 0.0 else ts[0].amount + Total(ts[1..])
  }

  /** A booking and the debit that paid for it. */
  predicate PaidBy(b: Booking, t: Transaction) {
    && b.status == Pending
    && t.kind == Debit
    && t.amount == b.totalPrice
    && t.description == "Booking: " + b.serviceName
  }

  /** Since `start`, the flow has only ever booked and paid: the `n` bookings
      made since then sit in front of the old ones, each paid by the debit at
      the same position in front of the old history; the balance has gone
      down by exactly those debits, and the points up by 50 for each. Name and
      tier never change. */
  predicate Reconciled(start: CustomerState, st: CustomerState) {
    var n := |st.bookings| - |start.bookings|;
    && 0 <= n
    && |st.user.transactions| == |start.user.transactions| + n
    && st.bookings[n..] == start.bookings
    && st.user.transactions[n..] == start.user.transactions
    && (forall k :: 0 <= k < n ==> PaidBy(st.bookings[k], st.user.transactions[k]))
    && st.user.walletBalance == start.user.walletBalance - Total(st.user.transactions[..n])
    && st.user.points == start.user.points + 50 * n
    && st.user.name == start.user.name
    && st.user.membership == start.user.membership
  }

  /** A page other than the home page always has a service selected. */
  predicate WellFormed(st: CustomerState) {
    st.selected.None? ==> st.step == HomeStep
  }

  /** Every action keeps the state well formed and reconciled. */
  lemma NextPreserves(start: CustomerState, st: CustomerState, a: Action)
    requires WellFormed(st) && Reconciled(start, st)
    ensures WellFormed(Next(st, a)) && Reconciled(start, Next(st, a))
  {
    if a.Finalize? && Outcome(st) == Booked {
      BookedPreserves(start, st, a.bookingId, a.transactionId);
    }
  }

  /** A booked order keeps the state reconciled: the new booking and the new
      debit match, and the balance and points move by one booking's worth. */
  lemma BookedPreserves(start: CustomerState, st: CustomerState, bookingId: string, transactionId: string)
    requires Reconciled(start, st) && Outcome(st) == Booked
    ensures Reconciled(start, Next(st, Finalize(bookingId, transactionId)))
  {
    var st' := Next(st, Finalize(bookingId, transactionId));
    var n := |st.bookings| - |start.bookings|;
    var bs, bs' := st.bookings, st'.bookings;
    var ts, ts' := st.user.transactions, st'.user.transactions;
    assert bs' == [bs'[0]] + bs && ts' == [ts'[0]] + ts;
    assert bs'[n + 1..] == bs[n..];
    assert ts'[n + 1..] == ts[n..];
    assert PaidBy(bs'[0], ts'[0]);
    assert forall k :: 1 <= k < n + 1 ==> PaidBy(bs'[k], ts'[k]) by {
      forall k | 1 <= k < n + 1 ensures PaidBy(bs'[k], ts'[k]) {
        assert bs'[k] == bs[k - 1] && ts'[k] == ts[k - 1];
      }
    }
    assert Total(ts'[..n + 1]) == ts'[0].amount + Total(ts[..n]) by {
      assert ts'[..n + 1] == [ts'[0]] + ts[..n];
      assert ([ts'[0]] + ts[..n])[1..] == ts[..n];
    }
  }

  /** Whatever the user does from the initial view, every booking made has
      been paid for by its own debit, and the wallet and points add up. */
  lemma {:induction false} RunReconciled(start: CustomerState, st: CustomerState, actions: seq<Action>)
    requires WellFormed(st) && Reconciled(start, st)
    ensures WellFormed(Run(st, actions)) && Reconciled(start, Run(st, actions))
    decreases |actions|
  {
    if actions != [] {
      NextPreserves(start, st, actions[0]);
      RunReconciled(start, Next(st, actions[0]), actions[1..]);
    }
  }

  /** The initial view is reconciled with itself. */
  lemma InitialReconciled(user: UserProfile, bookings: seq<Booking>)
    ensures WellFormed(Initial(user, bookings)) && Reconciled(Initial(user, bookings), Initial(user, bookings))
  {
    var st := Initial(user, bookings);
    assert st.user.transactions[..0] == [];
  }

  /** No action ever makes a non-negative balance negative. */
  lemma {:induction false} RunKeepsBalanceNonNegative(st: CustomerState, actions: seq<Action>)
    requires 0.0 <= st.user.walletBalance
    ensures 0.0 <= Run(st, actions).user.walletBalance
    decreases |actions|
  {
    if actions != [] {
      var st' := Next(st, actions[0]);
      assert 0.0 <= st'.user.walletBalance;
      RunKeepsBalanceNonNegative(st', actions[1..]);
    }
  }

  // ---------------------------------------------------------------------
  // The seeded customer

  /** The customer the app starts with. */
  const SeedUser: UserProfile := UserProfile(
    "Sarah", Gold, 245.50, 1250,
    [ Transaction("T1", Debit, 15.30, "Cleaning Discount Applied", "Today"),
      Transaction("T2", Credit, 100.00, "Wallet Top-up", "Yesterday") ])

  /** A Gold member booking Regular Cleaning at 18 pays 15.30, leaving the
      seeded wallet at 230.20 with 1300 points. */
  lemma SeedBookingExample()
    ensures var st := Run(Initial(SeedUser, []), [Book(RegularCleaning), Finalize("LH-1000", "TX-00000")]);
      && st.user.walletBalance == 230.20
      && st.user.points == 1300
      && st.user.transactions ==
           [Transaction("TX-00000", Debit, 15.30, "Booking: Regular Cleaning", "Just now")] + SeedUser.transactions
      && st.bookings == [NewBooking(RegularCleaning, 15.30, "LH-1000")]
      && st.step == ConfirmedStep
  {
    var st0 := Initial(SeedUser, []);
    var st1 := Next(st0, Book(RegularCleaning));
    var finalize := Finalize("LH-1000", "TX-00000");
    var st2 := Next(st1, finalize);
    assert Charge(st1) == 15.30;
    assert "Booking: " + RegularCleaning.name == "Booking: Regular Cleaning";
    assert Run(st0, [Book(RegularCleaning), finalize]) == st2 by {
      assert [Book(RegularCleaning), finalize][1..] == [finalize];
      assert Run(st1, [finalize]) == Run(st2, []);
    }
  }

  /** A Basic member with 50 in the wallet cannot book the Boiler Service
      at 85: nothing changes. */
  lemma InsufficientFundsExample()
    ensures var st := Initial(UserProfile("Sam", Basic, 50.0, 0, []), []).(selected := Some(BoilerService), step := BookingStep);
      Outcome(st) == InsufficientFunds && Next(st, Finalize("LH-1001", "TX-00001")) == st
  {
  }

  // ---------------------------------------------------------------------
  // The customer view's state, updated in place

  class CustomerSession {
    var activeTab: CustomerTab
    var user: UserProfile
    var bookings: seq<Booking>
    var selected: Option<Service>
    var step: FlowStep
    /** The state the session was opened with. */
    ghost const start: CustomerState

    function State(): CustomerState
      reads this
    {
      CustomerState(activeTab, user, bookings, selected, step)
    }

    ghost predicate Valid()
      reads this
    {
      WellFormed(State()) && Reconciled(start, State())
    }

    /** Opens the customer view on the Discover tab's home page. */
    constructor(user0: UserProfile, bookings0: seq<Booking>)
      ensures Valid()
      ensures State() == Initial(user0, bookings0) && start == State()
    {
      activeTab := Discover;
      user := user0;
      bookings := bookings0;
      selected := None;
      step := HomeStep;
      start := Initial(user0, bookings0);
      new;
      InitialReconciled(user0, bookings0);
    }

    /** Picks a service from the list and opens its review page. */
    method HandleBook(service: Service)
      requires Valid()
      modifies this
      ensures Valid()
      ensures selected == Some(service) && step == BookingStep
      ensures activeTab == old(activeTab) && user == old(user) && bookings == old(bookings)
      ensures State() == Next(old(State()), Book(service))
    {
      NextPreserves(start, State(), Book(service));
      selected := Some(service);
      step := BookingStep;
    }

    /** The review page's back button. */
    method BackToServices()
      requires Valid()
      modifies this
      ensures Valid()
      ensures step == HomeStep
      ensures activeTab == old(activeTab) && user == old(user) && bookings == old(bookings)
      ensures selected == old(selected)
      ensures State() == Next(old(State()), Action.BackToServices)
    {
      NextPreserves(start, State(), Action.BackToServices);
      step := HomeStep;
    }

    /** The confirmation page's "Track Active Tasks" button. */
    method TrackActiveTasks()
      requires Valid()
      modifies this
      ensures Valid()
      ensures step == HomeStep && activeTab == Tasks
      ensures user == old(user) && bookings == old(bookings) && selected == old(selected)
      ensures State() == Next(old(State()), Action.TrackActiveTasks)
    {
      NextPreserves(start, State(), Action.TrackActiveTasks);
      step := HomeStep;
      activeTab := Tasks;
    }

    /** A bottom-navigation tab: switches tab and returns the Discover tab to
      its home page. */
    method SelectTab(tab: CustomerTab)
      requires Valid()
      modifies this
      ensures Valid()
      ensures activeTab == tab && step == HomeStep
      ensures user == old(user) && bookings == old(bookings) && selected == old(selected)
      ensures State() == Next(old(State()), Action.SelectTab(tab))
    {
      NextPreserves(start, State(), Action.SelectTab(tab));
      activeTab := tab;
      step := HomeStep;
    }

    /** "Confirm & Pay with Wallet". With no service selected, or a balance
        below the final price, nothing changes; otherwise the wallet is
        debited, 50 points are added, the debit and the new pending booking
        are put first in their lists, and the confirmation page is shown. */
    method FinalizeBooking(bookingId: string, transactionId: string) returns (outcome: FinalizeOutcome)
      requires Valid()
      modifies this
      ensures Valid()
      ensures outcome == Outcome(old(State()))
      ensures outcome == NoServiceSelected <==> old(selected).None?
      ensures outcome == InsufficientFunds <==>
        old(selected).Some? && old(user.walletBalance) < Charge(old(State()))
      ensures outcome != Booked ==> State() == old(State())
      ensures outcome == Booked ==>
        var service := old(selected).value;
        var price := Charge(old(State()));
        && user == old(user).(walletBalance := old(user.walletBalance) - price,
                              points := old(user.points) + 50,
                              transactions := [BookingDebit(service, price, transactionId)] + old(user.transactions))
        && bookings == [NewBooking(service, price, bookingId)] + old(bookings)
        && step == ConfirmedStep
        && selected == old(selected) && activeTab == old(activeTab)
      ensures State() == Next(old(State()), Finalize(bookingId, transactionId))
    {
      ghost var pre := State();
      NextPreserves(start, pre, Finalize(bookingId, transactionId));
      if selected.None? {
        return NoServiceSelected;
      }
      var service := selected.value;
      var finalPrice := if user.membership == Gold then service.price * 0.85 else service.price;
      if user.walletBalance < finalPrice {
        return InsufficientFunds;
      }
      var newBooking := NewBooking(service, finalPrice, bookingId);
      var newTransaction := BookingDebit(service, finalPrice, transactionId);
      user := user.(walletBalance := user.walletBalance - finalPrice,
                    points := user.points + 50,
                    transactions := [newTransaction] + user.transactions);
      bookings := [newBooking] + bookings;
      step := ConfirmedStep;
      assert State() == Next(pre, Finalize(bookingId, transactionId));
      outcome := Booked;
    }
  }
}
