/**
 * The component's three pieces of UI state (the relief flag, the active
 * tab and the open transaction detail), the handlers that change them, and
 * which screen the active tab selects.
 */
module ViewState {
  import opened Wrappers
  import opened FinancialState
  import opened ActivityFeed

  /** The five sections of the bottom navigation bar, in its order. */
  datatype Tab = Activity | Payments | Rewards | Services | More

  /** The string each nav button stores as the active tab; it selects exactly that tab's screen. */
  function TabId(t: Tab): (id: string)
    ensures ScreensShown(id) == [ScreenFor(t)]
  {
    match t
    case Activity => "activity"
    case Payments => "payments"
    case Rewards => "rewards"
    case Services => "services"
    case More => "more"
  }

  /** The nav buttons from left to right; each one selects its own tab. */
  const NavBar: seq<Tab> := [Activity, Payments, Rewards, Services, More]

  datatype Screen = ActivityScreen | PaymentsScreen | Placeholder(title: string)

  /**
   * The screens rendered in the scrollable area for a given active-tab
   * string: five independent conditionals, each comparing the string with
   * one literal.
   */
  function ScreensShown(activeTab: string): (r: seq<Screen>)
    ensures |r| <= 1
  {
    (if activeTab == "activity" then [ActivityScreen] else [])
    + (if activeTab == "payments" then [PaymentsScreen] else [])
    + (if activeTab == "rewards" then [Placeholder("Rewards")] else [])
    + (if activeTab == "services" then [Placeholder("Services")] else [])
    + (if activeTab == "more" then [Placeholder("More")] else [])
  }

  /** The screen a tab is meant to show. */
  function ScreenFor(t: Tab): Screen {
    match t
    case Activity => ActivityScreen
    case Payments => PaymentsScreen
    case Rewards => Placeholder("Rewards")
    case Services => Placeholder("Services")
    case More => Placeholder("More")
  }

  /** Every tab selects exactly its own screen, and different tabs select different screens. */
  lemma OneScreenPerTab(t: Tab, u: Tab)
    ensures ScreensShown(TabId(t)) == [ScreenFor(t)]
    ensures t != u ==> ScreenFor(t) != ScreenFor(u)
  {
    match t
    case Activity =>
    case Payments =>
    case Rewards =>
    case Services =>
    case More =>
  }

  /** A string that is none of the five identifiers would leave the content area empty. */
  lemma UnknownIdShowsNothing(activeTab: string)
    requires forall t: Tab :: TabId(t) != activeTab
    ensures ScreensShown(activeTab) == []
  {
    assert TabId(Activity) != activeTab && TabId(Payments) != activeTab && TabId(Rewards) != activeTab;
    assert TabId(Services) != activeTab && TabId(More) != activeTab;
  }

  /**
   * The nav bar has one button per tab, and no tab twice; `Rendered` uses it
   * to show that every nav button is always on screen.
   */
  lemma NavBarCoversEachTabOnce(t: Tab)
    ensures t in NavBar
    ensures forall i, j | 0 <= i < j < |NavBar| :: NavBar[i] != NavBar[j]
  {
  }

  /** The UI state of the component; its initial value is `Initial`. */
  datatype View = View(reliefActive: bool, activeTab: Tab, txnDetail: Option<Detail>)

  const Initial := View(false, Activity, None)

  /** A user tap on one of the controls that has a handler. */
  datatype Event =
    | TapActivateRelief      // the "Activate Debt Relief Program" button
    | TapNav(tab: Tab)       // a button of the bottom navigation bar
    | TapRow(row: nat)       // a row of the activity list, counted from the top

  /**
   * Whether the control an event comes from is on screen in `v`: the nav bar
   * always is; the relief button only on the activity screen before relief;
   * a feed row only on the activity screen, and only if the feed has it.
   */
  predicate Rendered(a: Account, v: View, e: Event)
    ensures e.TapNav? ==> Rendered(a, v, e)
    ensures Rendered(a, v, e) && e.TapActivateRelief? ==> v.activeTab == Activity && !v.reliefActive
    ensures Rendered(a, v, e) && e.TapRow? ==>
              v.activeTab == Activity && e.row < (if v.reliefActive then 3 else 2)
  {
    match e
    case TapActivateRelief => v.activeTab == Activity && !v.reliefActive
    case TapNav(t) => NavBarCoversEachTabOnce(t); t in NavBar
    case TapRow(i) =>
      var rows := Feed(a, v.reliefActive);
      assert |rows| == if v.reliefActive then 3 else 2;
      v.activeTab == Activity && i < |rows|
  }

  /** The state after the handler of `e` has run. */
  function Step(a: Account, v: View, e: Event): (w: View)
    requires Rendered(a, v, e)
    ensures v.reliefActive ==> w.reliefActive
    ensures w.txnDetail != v.txnDetail ==> w.txnDetail == Some(Bailout) && w.reliefActive
    ensures e.TapActivateRelief? ==> w.reliefActive
    ensures e.TapNav? ==> w.activeTab == e.tab
    ensures e.TapNav? ==> w.reliefActive == v.reliefActive && w.txnDetail == v.txnDetail
    ensures !e.TapNav? ==> w.activeTab == v.activeTab
    ensures !e.TapActivateRelief? ==> w.reliefActive == v.reliefActive
    ensures !e.TapRow? ==> w.txnDetail == v.txnDetail
    ensures e.TapRow? && v.reliefActive && e.row == 0 ==> w.txnDetail == Some(Bailout)
    ensures e.TapRow? && !(v.reliefActive && e.row == 0) ==> w == v
  {
    match e
    case TapActivateRelief => v.(reliefActive := true)
    case TapNav(t) => v.(activeTab := t)
    case TapRow(i) =>
      var row := Feed(a, v.reliefActive)[i];
      if row.onTap.Some? then v.(txnDetail := row.onTap) else v
  }

  /** The open detail can only be the relief transaction's, and only when relief is active. */
  predicate Consistent(v: View) {
    v.txnDetail.Some? ==> v.reliefActive
  }

  /** Each event of `es` is on screen when it happens. */
  predicate Replayable(a: Account, v: View, es: seq<Event>)
    decreases |es|
  {
    es == [] || (Rendered(a, v, es[0]) && Replayable(a, Step(a, v, es[0]), es[1..]))
  }

  /** The state after the events `es`, in order. */
  function Run(a: Account, v: View, es: seq<Event>): View
    requires Replayable(a, v, es)
    decreases |es|
  {
    if es == [] then v else Run(a, Step(a, v, es[0]), es[1..])
  }

  /** The tab selected by the last nav tap of `es`, or `current` if there is none. */
  function LastSelected(es: seq<Event>, current: Tab): Tab
    decreases |es|
  {
    if es == [] then current
    else LastSelected(es[1..], if es[0].TapNav? then es[0].tab else current)
  }

  lemma StepKeepsConsistent(a: Account, v: View, e: Event)
    requires Consistent(v) && Rendered(a, v, e)
    ensures Consistent(Step(a, v, e))
  {
  }

  lemma {:induction false} RunKeepsConsistent(a: Account, v: View, es: seq<Event>)
    requires Consistent(v) && Replayable(a, v, es)
    ensures Consistent(Run(a, v, es))
    decreases |es|
  {
    if es != [] {
      StepKeepsConsistent(a, v, es[0]);
      RunKeepsConsistent(a, Step(a, v, es[0]), es[1..]);
    }
  }

  /** In every state the user can reach, an open detail implies that relief is active. */
  lemma ReachableIsConsistent(a: Account, es: seq<Event>)
    requires Replayable(a, Initial, es)
    ensures Consistent(Run(a, Initial, es))
  {
    RunKeepsConsistent(a, Initial, es);
  }

  /** Relief, once active, stays active whatever the user does next. */
  lemma {:induction false} ReliefStaysActive(a: Account, v: View, es: seq<Event>)
    requires v.reliefActive && Replayable(a, v, es)
    ensures Run(a, v, es).reliefActive
    decreases |es|
  {
    if es != [] {
      ReliefStaysActive(a, Step(a, v, es[0]), es[1..]);
    }
  }

  /** Once relief is active, every later state shows the same derived figures. */
  lemma FiguresFixedAfterRelief(a: Account, v: View, es: seq<Event>)
    requires a.creditLimit > 0.0
    requires v.reliefActive && Replayable(a, v, es)
    ensures Derive(a, Run(a, v, es).reliefActive) == Derive(a, v.reliefActive)
  {
    ReliefStaysActive(a, v, es);
  }

  /**
   * Activating relief again is a no-op: the button is no longer on screen,
   * and the setter's effect would leave the state as it is.
   */
  lemma ActivationIdempotent(a: Account, v: View)
    requires v.reliefActive
    ensures !Rendered(a, v, TapActivateRelief)
    ensures v.(reliefActive := true) == v
  {
  }

  /** The active tab is always the one the user tapped last in the nav bar. */
  lemma {:induction false} TabIsLastSelected(a: Account, v: View, es: seq<Event>)
    requires Replayable(a, v, es)
    ensures Run(a, v, es).activeTab == LastSelected(es, v.activeTab)
    decreases |es|
  {
    if es != [] {
      TabIsLastSelected(a, Step(a, v, es[0]), es[1..]);
    }
  }

  /** The component's state as an object: one field per `useState` cell. */
  class Dashboard {
    const account: Account
    var reliefActive: bool
    var activeTab: Tab
    var txnDetail: Option<Detail>

    function State(): View
      reads this
    {
      View(reliefActive, activeTab, txnDetail)
    }

    ghost predicate Valid()
      reads this
    {
      WellFormed(account) && Consistent(State())
    }

    constructor ()
      ensures Valid()
      ensures account == Mock && State() == Initial
    {
      account := Mock;
      reliefActive := false;
      activeTab := Activity;
      txnDetail := None;
    }

    /** The handler of the "Activate Debt Relief Program" button. */
    method ActivateRelief()
      requires Valid() && Rendered(account, State(), TapActivateRelief)
      modifies this
      ensures Valid()
      ensures State() == Step(account, old(State()), TapActivateRelief)
      ensures reliefActive && activeTab == old(activeTab) && txnDetail == old(txnDetail)
    {
      reliefActive := true;
    }

    /** The handler of the nav button for `t`. */
    method SelectTab(t: Tab)
      requires Valid()
      modifies this
      ensures Valid()
      ensures State() == Step(account, old(State()), TapNav(t))
      ensures activeTab == t && reliefActive == old(reliefActive) && txnDetail == old(txnDetail)
    {
      activeTab := t;
    }

    /** A tap on row `i` of the activity list; only the relief row has a handler. */
    method TapActivityRow(i: nat)
      requires Valid() && Rendered(account, State(), TapRow(i))
      modifies this
      ensures Valid()
      ensures State() == Step(account, old(State()), TapRow(i))
      ensures reliefActive == old(reliefActive) && activeTab == old(activeTab)
      ensures txnDetail == if reliefActive && i == 0 then Some(Bailout) else old(txnDetail)
    {
      var row := Feed(account, reliefActive)[i];
      if row.onTap.Some? {
        txnDetail := row.onTap;
      }
    }

    /** The figures the screens show in the current state. */
    function Figures(): (s: Snapshot)
      reads this
      requires Valid()
      ensures s.currentBalance >= 0.0 && s.availableCredit >= 0.0
      ensures 0.0 <= s.usagePct <= 100.0
      ensures s.minimumPaymentDue == if reliefActive then 0.0 else account.minDueBeforeRelief
    {
      Derive(account, reliefActive)
    }
  }

  /** A session on the dashboard: open it, activate relief, read the figures before and after. */
  method ActivationScenario() returns (before: Snapshot, after: Snapshot)
    ensures before.currentBalance == 21760.87 && before.availableCredit == 239.13
    ensures after.currentBalance == 260.87 && after.availableCredit == 21739.13
    ensures after.minimumPaymentDue == 0.0 && after.usagePct < before.usagePct
  {
    var d := new Dashboard();
    before := d.Figures();
    d.ActivateRelief();
    after := d.Figures();
    MockFigures();
  }
}
