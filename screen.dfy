/**
  What the app shows: the active tab, the course-detail sheet and the payment
  sheet with its simulated checkout. The checkout's two delays are events
  here: `TimerProcessingDone` is the end of the first wait, `TimerSuccessDone`
  the callback of the second.
 */
module Screen {
  import opened Types

  datatype Tab = Home | Explore | Learn | Profile

  /** `Error` is part of the status type but no handler ever sets it. */
  datatype PaymentStatus = Idle | Processing | Success | Error

  datatype ViewState = ViewState(
    tab: Tab,
    detail: Option<Course>,
    payOpen: bool,
    payingFor: Option<Course>,
    status: PaymentStatus,
    gateway: Option<string>)

  datatype Event =
    | SelectTab(t: Tab)
    | ShowDetail(c: Course)
    | ShowDetailFromHome(c: Course)
    | CloseDetail
    | Purchase(c: Course)
    | ChooseGateway(g: string)
    | TimerProcessingDone
    | TimerSuccessDone
    | CloseBackdrop

  /** The state the app starts in. */
  const Init: ViewState := ViewState(Home, None, false, None, Idle, None)

  /** The payment sheet is rendered only while it is open and has a course to pay for. */
  predicate SheetShown(s: ViewState) {
    s.payOpen && s.payingFor.Some?
  }

  /**
    When an event can happen. The gateway buttons exist only on a shown sheet
    in the idle status; the first wait ends only while processing, and the
    second callback is pending only in the success status.
   */
  predicate Enabled(s: ViewState, e: Event): (b: bool)
    ensures !e.ChooseGateway? && !e.TimerProcessingDone? && !e.TimerSuccessDone? ==> b
    ensures Inv(s) && b && (e.TimerProcessingDone? || e.TimerSuccessDone?) ==>
              s.gateway.Some? && s.payingFor.Some?
    ensures Inv(s) && b && e.ChooseGateway? ==> s.gateway.None?
  {
    match e
    case ChooseGateway(_) => SheetShown(s) && s.status == Idle
    case TimerProcessingDone => s.status == Processing
    case TimerSuccessDone => s.status == Success
    case _ => true
  }

  /**
    The effect of one event on the view state. Only the navigation events
    change the tab, only buying changes the course paid for, only the gateway
    and the two timers change the status, and no event enters the error
    status; the backdrop does nothing while a payment is processing.
   */
  function Step(s: ViewState, e: Event): (r: ViewState)
    ensures r.tab != s.tab ==> e.SelectTab? || e.ShowDetailFromHome?
    ensures r.payingFor != s.payingFor ==> e.Purchase?
    ensures r.status != s.status ==> e.ChooseGateway? || e.TimerProcessingDone? || e.TimerSuccessDone?
    ensures r.status == Error ==> s.status == Error
    ensures e.CloseBackdrop? && s.status == Processing ==> r == s
  {
    match e
    case SelectTab(t) => s.(tab := t)
    case ShowDetail(c) => s.(detail := Some(c))
    case ShowDetailFromHome(c) => s.(tab := Explore, detail := Some(c))
    case CloseDetail => s.(detail := None)
    case Purchase(c) => s.(payingFor := Some(c), payOpen := true)
    case ChooseGateway(g) => s.(gateway := Some(g), status := Processing)
    case TimerProcessingDone => s.(status := Success)
    case TimerSuccessDone => s.(payOpen := false, status := Idle, gateway := None, detail := None)
    case CloseBackdrop => if s.status != Processing then s.(payOpen := false) else s
  }

  /**
    What holds in every state the app can reach: the error status is never
    entered, a gateway is recorded exactly while a checkout is under way, a
    checkout in progress keeps its sheet open, and an open sheet or a started
    checkout always has a course to pay for.
   */
  ghost predicate Inv(s: ViewState) {
    && s.status != Error
    && (s.status == Idle <==> s.gateway.None?)
    && (s.status == Processing ==> s.payOpen)
    && (s.payOpen ==> s.payingFor.Some?)
    && (s.status != Idle ==> s.payingFor.Some?)
  }

  lemma InitInv()
    ensures Inv(Init)
  {
  }

  /** Every enabled event keeps the invariant. */
  lemma StepInv(s: ViewState, e: Event)
    requires Inv(s) && Enabled(s, e)
    ensures Inv(Step(s, e))
  {
  }

  /** Applies the events in order. */
  function Run(s: ViewState, es: seq<Event>): ViewState
    decreases |es|
  {
    if es == [] then s else Run(Step(s, es[0]), es[1..])
  }

  /** Each event is enabled in the state the events before it lead to. */
  predicate ValidRun(s: ViewState, es: seq<Event>)
    decreases |es|
  {
    es == [] || (Enabled(s, es[0]) && ValidRun(Step(s, es[0]), es[1..]))
  }

  /** Any sequence of enabled events keeps the invariant. */
  lemma {:induction false} RunInv(s: ViewState, es: seq<Event>)
    requires Inv(s) && ValidRun(s, es)
    ensures Inv(Run(s, es))
    decreases |es|
  {
    if es != [] {
      StepInv(s, es[0]);
      RunInv(Step(s, es[0]), es[1..]);
    }
  }

  /** Whatever the user and the timers do, the error status is never entered. */
  lemma NeverError(es: seq<Event>)
    requires ValidRun(Init, es)
    ensures Run(Init, es).status != Error
  {
    InitInv();
    RunInv(Init, es);
  }

  /** The backdrop cannot close the sheet while a payment is processing. */
  lemma BackdropBlockedWhileProcessing(s: ViewState)
    requires s.status == Processing
    ensures Step(s, CloseBackdrop) == s
  {
  }

  /** Outside processing, the backdrop closes the sheet and changes nothing else. */
  lemma BackdropClosesOtherwise(s: ViewState)
    requires s.status != Processing
    ensures Step(s, CloseBackdrop) == s.(payOpen := false)
    ensures !Step(s, CloseBackdrop).payOpen
  {
  }

  /** Closing the detail sheet leaves the payment state alone. */
  lemma CloseDetailKeepsPayment(s: ViewState)
    ensures var t := Step(s, CloseDetail);
      t.detail.None? && t.payOpen == s.payOpen && t.payingFor == s.payingFor &&
      t.status == s.status && t.gateway == s.gateway
  {
  }

  /** Buying opens the sheet for the course and keeps the detail sheet underneath. */
  lemma PurchaseKeepsDetail(s: ViewState, c: Course)
    ensures var t := Step(s, Purchase(c));
      SheetShown(t) && t.payingFor == Some(c) && t.detail == s.detail && t.status == s.status
  {
  }

  /**
    A whole checkout from the detail sheet: buying, choosing a gateway and the
    two waits. Each event is enabled when it comes; the status goes through
    processing and success with the gateway recorded; at the end both sheets
    are closed, the status is idle and no gateway is recorded.
   */
  lemma {:induction false} Checkout(s: ViewState, c: Course, g: string)
    requires Inv(s) && s.status == Idle && s.detail == Some(c)
    ensures var s1 := Step(s, Purchase(c));
      var s2 := Step(s1, ChooseGateway(g));
      var s3 := Step(s2, TimerProcessingDone);
      var t := Step(s3, TimerSuccessDone);
      && ValidRun(s, [Purchase(c), ChooseGateway(g), TimerProcessingDone, TimerSuccessDone])
      && Run(s, [Purchase(c), ChooseGateway(g), TimerProcessingDone, TimerSuccessDone]) == t
      && SheetShown(s1) && s1.detail == Some(c)
      && s2.status == Processing && s2.gateway == Some(g)
      && s3.status == Success && s3.gateway == Some(g)
      && t.status == Idle && t.gateway.None? && t.detail.None? && !t.payOpen
      && t.payingFor == Some(c) && t.tab == s.tab
  {
    var es := [Purchase(c), ChooseGateway(g), TimerProcessingDone, TimerSuccessDone];
    var s1 := Step(s, es[0]);
    var s2 := Step(s1, es[1]);
    var s3 := Step(s2, es[2]);
    var t := Step(s3, es[3]);
    assert es[1..] == [es[1], es[2], es[3]];
    assert es[1..][1..] == [es[2], es[3]];
    assert es[1..][1..][1..] == [es[3]];
    assert [es[3]][1..] == [] && [es[2], es[3]][1..] == [es[3]];
    assert Run(t, []) == t && ValidRun(t, []);
    assert ValidRun(s3, [es[3]]) && Run(s3, [es[3]]) == t;
    assert ValidRun(s2, [es[2], es[3]]) && Run(s2, [es[2], es[3]]) == t;
    assert ValidRun(s1, es[1..]) && Run(s1, es[1..]) == t;
  }

  /**
    The screen's view state as fields that its handlers set one by one; each
    handler has the effect `Step` gives to its event.
   */
  class View {
    var tab: Tab
    var detail: Option<Course>
    var payOpen: bool
    var payingFor: Option<Course>
    var status: PaymentStatus
    var gateway: Option<string>

    function State(): ViewState
      reads this
    {
      ViewState(tab, detail, payOpen, payingFor, status, gateway)
    }

    ghost predicate Valid()
      reads this
    {
      Inv(State())
    }

    constructor ()
      ensures Valid() && State() == Init
    {
      tab, detail, payOpen, payingFor, status, gateway := Home, None, false, None, Idle, None;
    }

    /** A tab of the navigation bar. */
    method SelectTab(t: Tab)
      requires Valid()
      modifies this
      ensures Valid() && State() == Step(old(State()), Event.SelectTab(t))
    {
      tab := t;
    }

    /** A course card on the explore screen. */
    method ShowDetail(c: Course)
      requires Valid()
      modifies this
      ensures Valid() && State() == Step(old(State()), Event.ShowDetail(c))
    {
      detail := Some(c);
    }

    /** A course card on the home screen: switches to explore and opens the course. */
    method ShowDetailFromHome(c: Course)
      requires Valid()
      modifies this
      ensures Valid() && State() == Step(old(State()), Event.ShowDetailFromHome(c))
    {
      tab := Explore;
      detail := Some(c);
    }

    /** The detail sheet's backdrop or close button. */
    method CloseDetail()
      requires Valid()
      modifies this
      ensures Valid() && State() == Step(old(State()), Event.CloseDetail)
    {
      detail := None;
    }

    /** `handlePurchase`: opens the payment sheet for the course. */
    method Purchase(c: Course)
      requires Valid()
      modifies this
      ensures Valid() && State() == Step(old(State()), Event.Purchase(c))
    {
      payingFor := Some(c);
      payOpen := true;
    }

    /** The first half of `processPayment`: records the gateway and starts processing. */
    method ChooseGateway(g: string)
      requires Valid() && Enabled(State(), Event.ChooseGateway(g))
      modifies this
      ensures Valid() && State() == Step(old(State()), Event.ChooseGateway(g))
    {
      gateway := Some(g);
      status := Processing;
    }

    /** The end of the first wait of `processPayment`. */
    method TimerProcessingDone()
      requires Valid() && Enabled(State(), Event.TimerProcessingDone)
      modifies this
      ensures Valid() && State() == Step(old(State()), Event.TimerProcessingDone)
    {
      status := Success;
    }

    /** The callback of the second wait: closes both sheets and resets the checkout. */
    method TimerSuccessDone()
      requires Valid() && Enabled(State(), Event.TimerSuccessDone)
      modifies this
      ensures Valid() && State() == Step(old(State()), Event.TimerSuccessDone)
    {
      payOpen := false;
      status := Idle;
      gateway := None;
      detail := None;
    }

    /** The payment sheet's backdrop: closes the sheet unless a payment is processing. */
    method CloseBackdrop()
      requires Valid()
      modifies this
      ensures Valid() && State() == Step(old(State()), Event.CloseBackdrop)
    {
      if status != Processing {
        payOpen := false;
      }
    }
  }
}
