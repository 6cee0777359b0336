/** The sequential authorization modal (`SequentialAuthModal`, index.tsx).

    The modal keeps a cursor (`currentIndex`) into the unconnected services and
    a success flag (`showSuccess`). A click on "Connect" reports the current
    service to the caller, shows a success screen and schedules a timer. When
    the timer fires, the cursor advances to the next service, or the caller's
    `onClose` is invoked after the last one. The close button invokes `onClose`
    directly.

    The transitions are pure functions over `FlowState`; the class at the end
    holds the same state in fields and updates it in place. The callbacks the
    modal invokes are recorded in `trace`. As the only caller does
    (index.tsx:156), `onClose` hides the modal, which sets `isOpen` to false. */
module SequentialAuth {
  import opened Common
  import opened Services

  // ---------------------------------------------------------------------------
  // The unconnected filter (`services.filter((service) => !service.connected)`)
  // ---------------------------------------------------------------------------

  /** The services still waiting to be connected, in their original order. */
  function Unconnected(services: seq<Service>): (pending: seq<Service>)
    ensures |pending| <= |services|
    ensures forall k :: 0 <= k < |pending| ==> !pending[k].connected
    ensures forall k :: 0 <= k < |pending| ==> pending[k] in services
  {
    if services == [] then []
    else if services[0].connected then Unconnected(services[1..])
    else [services[0]] + Unconnected(services[1..])
  }

  /** Reference definition: the positions, in `services`, of the unconnected
      entries at or after `from`, in increasing order. */
  ghost function PendingPositions(services: seq<Service>, from: nat): seq<nat>
    requires from <= |services|
    decreases |services| - from
  {
    if from == |services| then []
    else (if services[from].connected then [] else [from]) + PendingPositions(services, from + 1)
  }

  lemma {:induction false} PendingPositionsShape(services: seq<Service>, from: nat)
    requires from <= |services|
    ensures var ps := PendingPositions(services, from);
      && (forall k :: 0 <= k < |ps| ==> from <= ps[k] < |services|)
      && (forall k, l :: 0 <= k < l < |ps| ==> ps[k] < ps[l])
      && (forall j :: from <= j < |services| ==> (j in ps <==> !services[j].connected))
    decreases |services| - from
  {
    if from < |services| {
      PendingPositionsShape(services, from + 1);
    }
  }

  lemma {:induction false} UnconnectedFollowsPositions(services: seq<Service>, from: nat)
    requires from <= |services|
    ensures var ps := PendingPositions(services, from);
      && |Unconnected(services[from..])| == |ps|
      && (forall k :: 0 <= k < |ps| ==> ps[k] < |services| && Unconnected(services[from..])[k] == services[ps[k]])
    decreases |services| - from
  {
    if from == |services| {
      assert services[from..] == [];
    } else {
      UnconnectedFollowsPositions(services, from + 1);
      var tail := Unconnected(services[from + 1..]);
      var ps' := PendingPositions(services, from + 1);
      assert services[from..][1..] == services[from + 1..];
      if services[from].connected {
        assert Unconnected(services[from..]) == tail;
        assert PendingPositions(services, from) == ps';
      } else {
        var u := Unconnected(services[from..]);
        var ps := PendingPositions(services, from);
        assert u == [services[from]] + tail;
        assert ps == [from] + ps';
        forall k | 0 <= k < |ps|
          ensures ps[k] < |services| && u[k] == services[ps[k]]
        {
          if k > 0 {
            assert ps[k] == ps'[k - 1] && u[k] == tail[k - 1];
          }
        }
      }
    }
  }

  /** The pending list is exactly the unconnected services, in their original
      relative order: its k-th entry is the service at the k-th unconnected
      position, the positions increase, and every unconnected position is one
      of them. */
  lemma UnconnectedIsOrderedFilter(services: seq<Service>)
    ensures var ps := PendingPositions(services, 0);
      && |Unconnected(services)| == |ps|
      && (forall k :: 0 <= k < |ps| ==> ps[k] < |services| && Unconnected(services)[k] == services[ps[k]])
      && (forall k, l :: 0 <= k < l < |ps| ==> ps[k] < ps[l])
      && (forall j :: 0 <= j < |services| ==> (j in ps <==> !services[j].connected))
  {
    UnconnectedFollowsPositions(services, 0);
    PendingPositionsShape(services, 0);
    assert services[0..] == services;
  }

  /** Nothing is pending exactly when every service is already connected. */
  lemma {:induction false} NothingPendingIffAllConnected(services: seq<Service>)
    ensures |Unconnected(services)| == 0 <==> forall i :: 0 <= i < |services| ==> services[i].connected
  {
    UnconnectedIsOrderedFilter(services);
    if |Unconnected(services)| > 0 {
      var ps := PendingPositions(services, 0);
      assert ps[0] < |services| && !services[ps[0]].connected;
    }
  }

  // ---------------------------------------------------------------------------
  // Flow state, callbacks and phases
  // ---------------------------------------------------------------------------

  /** A call the modal makes into its caller. */
  datatype Callback = OnConnect(serviceName: string, serviceIndex: int) | OnClose

  /** Everything the modal's behaviour depends on. `timer` is the pending
      `setTimeout` continuation, holding the `currentIndex` its closure captured. */
  datatype FlowState = FlowState(
    services: seq<Service>,
    isOpen: bool,
    cursor: nat,
    showSuccess: bool,
    timer: Option<nat>,
    trace: seq<Callback>)

  datatype Phase = Presenting | Succeeding | Closed

  function Pending(st: FlowState): seq<Service>
  {
    Unconnected(st.services)
  }

  /** The phase decided on each render: nothing is shown when the modal is
      closed or nothing is pending; otherwise the success flag decides. */
  function PhaseOf(st: FlowState): (p: Phase)
    ensures p == Closed <==> !st.isOpen || forall i :: 0 <= i < |st.services| ==> st.services[i].connected
    ensures p == Succeeding <==> p != Closed && st.showSuccess
  {
    NothingPendingIffAllConnected(st.services);
    if !st.isOpen || |Pending(st)| == 0 then Closed
    else if st.showSuccess then Succeeding
    else Presenting
  }

  /** The state on mount: cursor at 0, no success screen, no timer, no calls. */
  function Initial(services: seq<Service>, isOpen: bool): FlowState
  {
    FlowState(services, isOpen, 0, false, None, [])
  }

  // ---------------------------------------------------------------------------
  // Rendering
  // ---------------------------------------------------------------------------

  const MovingOn := "Moving to next service..."
  const AllDone := "All services connected!"

  /** What the modal renders. Only the prompt view has the connect and close buttons. */
  datatype View =
    | Hidden
    | SuccessView(heading: string, message: string)
    | PromptView(title: string, connectLabel: string)

  /** True when the pending timer will move the cursor on rather than close. */
  predicate MoreToCome(st: FlowState)
  {
    st.cursor < |Pending(st)| - 1
  }

  /** The render decision. The prompt reads `currentService.name`, which the
      cursor bound makes defined. */
  function Render(st: FlowState): (v: View)
    requires PhaseOf(st) == Presenting ==> st.cursor < |Pending(st)|
    ensures v.Hidden? <==> PhaseOf(st) == Closed
    ensures v.SuccessView? <==> PhaseOf(st) == Succeeding
    ensures v.PromptView? ==> v.title == "Connect to " + Pending(st)[st.cursor].name
    ensures v.PromptView? ==> v.connectLabel == "Connect " + Pending(st)[st.cursor].name
    ensures v.SuccessView? ==> v.heading == "Successfully Connected!"
    ensures v.SuccessView? ==> (v.message == MovingOn <==> MoreToCome(st))
    ensures v.SuccessView? ==> (v.message == AllDone <==> !MoreToCome(st))
  {
    if !st.isOpen || |Pending(st)| == 0 then Hidden
    else if st.showSuccess then
      SuccessView("Successfully Connected!", if MoreToCome(st) then MovingOn else AllDone)
    else
      var name := Pending(st)[st.cursor].name;
      PromptView("Connect to " + name, "Connect " + name)
  }

  /** The modal shows nothing when it is closed or when every service is
      already connected. */
  lemma NothingShownWhenClosedOrEmpty(st: FlowState)
    requires !st.isOpen || forall i :: 0 <= i < |st.services| ==> st.services[i].connected
    ensures PhaseOf(st) == Closed && Render(st) == Hidden
  {
    UnconnectedIsOrderedFilter(st.services);
    if |Pending(st)| > 0 {
      var ps := PendingPositions(st.services, 0);
      assert ps[0] < |st.services| && Pending(st)[0] == st.services[ps[0]];
    }
  }

  // ---------------------------------------------------------------------------
  // Transitions
  // ---------------------------------------------------------------------------

  /** `handleConnect`: with a current service, report it with its index in the
      pending list and show the success screen with a timer that captured the
      cursor; without one, do nothing. The button is only rendered outside the
      success screen. */
  function AfterConnect(st: FlowState): (r: FlowState)
    requires !st.showSuccess
    ensures r.services == st.services && r.cursor == st.cursor && r.isOpen == st.isOpen
    ensures r == st <==> st.cursor >= |Pending(st)|
    ensures r != st ==> && r.trace == st.trace + [OnConnect(Pending(st)[st.cursor].name, st.cursor)]
                        && r.showSuccess && r.timer == Some(st.cursor)
  {
    if st.cursor >= |Pending(st)| then st
    else
      st.(trace := st.trace + [OnConnect(Pending(st)[st.cursor].name, st.cursor)],
          showSuccess := true,
          timer := Some(st.cursor))
  }

  /** The `setTimeout` continuation: hide the success screen, then advance past
      the captured index if it was not the last one, otherwise call `onClose`. */
  function AfterTimer(st: FlowState): (r: FlowState)
    requires st.timer.Some?
    ensures r.services == st.services && !r.showSuccess && r.timer == None
    ensures st.timer.value < |Pending(st)| - 1 ==>
      r.cursor == st.timer.value + 1 && r.trace == st.trace && r.isOpen == st.isOpen
    ensures st.timer.value >= |Pending(st)| - 1 ==>
      r.cursor == st.cursor && r.trace == st.trace + [OnClose] && PhaseOf(r) == Closed
  {
    var captured := st.timer.value;
    var hidden := st.(showSuccess := false, timer := None);
    if captured < |Pending(st)| - 1 then hidden.(cursor := captured + 1)
    else hidden.(trace := st.trace + [OnClose], isOpen := false)
  }

  /** The close button: call `onClose`. */
  function AfterClose(st: FlowState): (r: FlowState)
    ensures r.trace == st.trace + [OnClose] && PhaseOf(r) == Closed
    ensures r.services == st.services && r.cursor == st.cursor
    ensures r.showSuccess == st.showSuccess && r.timer == st.timer
  {
    st.(trace := st.trace + [OnClose], isOpen := false)
  }

  /** A click on the connect button when no service is current changes nothing
      and calls nothing. */
  lemma ConnectWithoutCurrentIsNoOp(st: FlowState)
    requires !st.showSuccess && st.cursor >= |Pending(st)|
    ensures AfterConnect(st) == st
  {
  }

  // ---------------------------------------------------------------------------
  // The flow invariant
  // ---------------------------------------------------------------------------

  /** The calls made by the first `m` confirmations: `onConnect` with the name
      of the k-th pending service and the index k. */
  ghost function Connects(pending: seq<Service>, m: nat): seq<Callback>
    requires m <= |pending|
  {
    seq(m, k requires 0 <= k < m => OnConnect(pending[k].name, k))
  }

  /** Every reachable state satisfies this: the cursor stays in the pending
      list, a timer is pending exactly on the success screen and holds the
      current cursor, and the calls so far are the confirmations of the pending
      services in order, followed by at most one `onClose` (after which the
      modal is closed). */
  ghost predicate Good(st: FlowState)
  {
    var n := |Pending(st)|;
    && (st.cursor < n || st.cursor == 0)
    && st.timer == (if st.showSuccess then Some(st.cursor) else None)
    && (st.showSuccess ==> st.isOpen && st.cursor < n)
    && (|| st.trace == Connects(Pending(st), st.cursor + (if st.showSuccess then 1 else 0))
        || (!st.isOpen && !st.showSuccess && st.trace == Connects(Pending(st), st.cursor) + [OnClose])
        || (!st.isOpen && !st.showSuccess && st.cursor + 1 == n && st.trace == Connects(Pending(st), n) + [OnClose]))
  }

  lemma ConnectsStep(pending: seq<Service>, m: nat)
    requires m < |pending|
    ensures Connects(pending, m + 1) == Connects(pending, m) + [OnConnect(pending[m].name, m)]
  {
  }

  lemma ConnectsHaveNoClose(pending: seq<Service>, m: nat)
    requires m <= |pending|
    ensures OnClose !in Connects(pending, m)
    ensures multiset(Connects(pending, m))[OnClose] == 0
  {
  }

  lemma InitialIsGood(services: seq<Service>, isOpen: bool)
    ensures Good(Initial(services, isOpen))
  {
    assert Connects(Unconnected(services), 0) == [];
  }

  /** Confirming, while the modal is open and not on the success screen, keeps the invariant. */
  lemma ConnectKeepsGood(st: FlowState)
    requires Good(st) && st.isOpen && !st.showSuccess
    ensures Good(AfterConnect(st))
  {
    if st.cursor < |Pending(st)| {
      ConnectsStep(Pending(st), st.cursor);
    }
  }

  /** The timer firing keeps the invariant. */
  lemma TimerKeepsGood(st: FlowState)
    requires Good(st) && st.timer.Some?
    ensures Good(AfterTimer(st))
  {
  }

  /** The close button, in the prompt view, keeps the invariant. */
  lemma CloseKeepsGood(st: FlowState)
    requires Good(st) && PhaseOf(st) == Presenting
    ensures Good(AfterClose(st))
  {
  }

  /** The cursor starts at 0 and stays within the pending list. `onClose` is
      called at most once. When it has been called, it is the last call and
      the modal is closed. */
  lemma GoodMeansBoundedAndClosedOnce(st: FlowState)
    requires Good(st)
    ensures st.cursor < |Pending(st)| || (st.cursor == 0 && Pending(st) == [])
    ensures multiset(st.trace)[OnClose] <= 1
    ensures OnClose in st.trace ==> st.trace[|st.trace| - 1] == OnClose && PhaseOf(st) == Closed
  {
    var n := |Pending(st)|;
    ConnectsHaveNoClose(Pending(st), st.cursor);
    if st.cursor < n {
      ConnectsHaveNoClose(Pending(st), st.cursor + 1);
      ConnectsHaveNoClose(Pending(st), n);
    }
  }

  /** Confirming in the prompt view calls `onConnect` once, with the name of the
      service at the cursor-th unconnected position of the ORIGINAL list and
      with the cursor (its index in the pending list), and shows the success
      screen. */
  lemma ConfirmReportsPendingIndex(st: FlowState)
    requires Good(st) && PhaseOf(st) == Presenting
    ensures var ps := PendingPositions(st.services, 0);
      && st.cursor < |ps|
      && ps[st.cursor] < |st.services|
      && AfterConnect(st).trace == st.trace + [OnConnect(st.services[ps[st.cursor]].name, st.cursor)]
      && PhaseOf(AfterConnect(st)) == Succeeding
  {
    UnconnectedIsOrderedFilter(st.services);
  }

  /** The timer leaves the success screen. It moves the cursor up by one exactly
      when the cursor is not on the last pending service, and calls nothing.
      Otherwise it calls `onClose` once, leaves the cursor alone and closes the
      modal. */
  lemma TimerAdvancesOrCloses(st: FlowState)
    requires Good(st) && PhaseOf(st) == Succeeding
    ensures var r := AfterTimer(st);
      && PhaseOf(r) != Succeeding
      && (MoreToCome(st) ==> r.cursor == st.cursor + 1 && r.trace == st.trace && PhaseOf(r) == Presenting)
      && (!MoreToCome(st) ==> r.cursor == st.cursor && r.trace == st.trace + [OnClose] && PhaseOf(r) == Closed)
  {
  }

  /** The success screen announces "Moving to next service..." exactly when the
      timer will move the cursor on, and "All services connected!" exactly
      when it will call `onClose`. */
  lemma SuccessMessageMatchesTimer(st: FlowState)
    requires Good(st) && PhaseOf(st) == Succeeding
    ensures Render(st).message == MovingOn <==> AfterTimer(st).cursor == st.cursor + 1
    ensures Render(st).message == AllDone <==> AfterTimer(st).trace == st.trace + [OnClose]
  {
  }

  /** The close button calls `onClose` and nothing else, and closes the modal. */
  lemma CancelClosesWithoutConnect(st: FlowState)
    requires Good(st) && PhaseOf(st) == Presenting
    ensures AfterClose(st).trace == st.trace + [OnClose]
    ensures multiset(AfterClose(st).trace)[OnClose] == 1
    ensures PhaseOf(AfterClose(st)) == Closed
  {
    GoodMeansBoundedAndClosedOnce(st);
    assert OnClose !in st.trace;
  }

  // ---------------------------------------------------------------------------
  // Runs of user and timer events
  // ---------------------------------------------------------------------------

  datatype Event = ConnectClicked | CloseClicked | TimerFired

  /** The buttons exist only in the prompt view; the timer fires only when one
      was scheduled. */
  predicate Enabled(st: FlowState, e: Event)
  {
    match e
    case ConnectClicked => PhaseOf(st) == Presenting
    case CloseClicked => PhaseOf(st) == Presenting
    case TimerFired => st.timer.Some?
  }

  function Step(st: FlowState, e: Event): FlowState
    requires Enabled(st, e)
  {
    match e
    case ConnectClicked => AfterConnect(st)
    case CloseClicked => AfterClose(st)
    case TimerFired => AfterTimer(st)
  }

  /** Runs `events` from `st`; `None` when an event arrives that the current
      view does not offer. */
  function Run(st: FlowState, events: seq<Event>): Option<FlowState>
    decreases |events|
  {
    if events == [] then Some(st)
    else if !Enabled(st, events[0]) then None
    else Run(Step(st, events[0]), events[1..])
  }

  /** The buttons can be clicked exactly when the prompt view is rendered; in
      the success screen neither a confirm nor a cancel can happen. */
  lemma ButtonsOnlyInPrompt(st: FlowState)
    requires Good(st)
    ensures Enabled(st, ConnectClicked) <==> Render(st).PromptView?
    ensures Enabled(st, CloseClicked) <==> Render(st).PromptView?
    ensures Enabled(st, TimerFired) <==> Render(st).SuccessView?
  {
  }

  lemma {:induction false} RunKeepsGood(st: FlowState, events: seq<Event>)
    requires Good(st)
    requires Run(st, events).Some?
    ensures Good(Run(st, events).value)
    decreases |events|
  {
    if events != [] {
      match events[0] {
        case ConnectClicked => ConnectKeepsGood(st);
        case CloseClicked => CloseKeepsGood(st);
        case TimerFired => TimerKeepsGood(st);
      }
      RunKeepsGood(Step(st, events[0]), events[1..]);
    }
  }

  /** Whatever the user does, from mount on: the cursor stays within the
      pending list, `onClose` is called at most once and last, and once it has
      been called no further event is possible. */
  lemma EveryRunClosesAtMostOnce(services: seq<Service>, isOpen: bool, events: seq<Event>)
    requires Run(Initial(services, isOpen), events).Some?
    ensures var st := Run(Initial(services, isOpen), events).value;
      && (st.cursor < |Pending(st)| || st.cursor == 0)
      && multiset(st.trace)[OnClose] <= 1
      && (OnClose in st.trace ==>
            st.trace[|st.trace| - 1] == OnClose && (forall e :: !Enabled(st, e)))
  {
    InitialIsGood(services, isOpen);
    RunKeepsGood(Initial(services, isOpen), events);
    GoodMeansBoundedAndClosedOnce(Run(Initial(services, isOpen), events).value);
  }

  /** `k` rounds of confirm-then-timer. */
  function Rounds(k: nat): seq<Event>
  {
    if k == 0 then [] else [ConnectClicked, TimerFired] + Rounds(k - 1)
  }

  lemma {:induction false} RoundsFrom(services: seq<Service>, i: nat)
    requires i < |Unconnected(services)|
    ensures var p := Unconnected(services);
      Run(FlowState(services, true, i, false, None, Connects(p, i)), Rounds(|p| - i))
        == Some(FlowState(services, false, |p| - 1, false, None, Connects(p, |p|) + [OnClose]))
    decreases |Unconnected(services)| - i
  {
    var p := Unconnected(services);
    var st := FlowState(services, true, i, false, None, Connects(p, i));
    var rest := Rounds(|p| - i - 1);
    assert Rounds(|p| - i) == [ConnectClicked, TimerFired] + rest;
    assert ([ConnectClicked, TimerFired] + rest)[1..] == [TimerFired] + rest;
    assert ([TimerFired] + rest)[1..] == rest;
    ConnectsStep(p, i);
    var st1 := AfterConnect(st);
    assert st1 == st.(trace := Connects(p, i + 1), showSuccess := true, timer := Some(i));
    var st2 := AfterTimer(st1);
    assert Run(st, Rounds(|p| - i)) == Run(st1, [TimerFired] + rest);
    assert Run(st1, [TimerFired] + rest) == Run(st2, rest);
    if i < |p| - 1 {
      assert st2 == FlowState(services, true, i + 1, false, None, Connects(p, i + 1));
      RoundsFrom(services, i + 1);
    } else {
      assert rest == [];
      assert st2 == FlowState(services, false, |p| - 1, false, None, Connects(p, |p|) + [OnClose]);
    }
  }

  /** For n > 0 pending services, n rounds of confirm-then-timer call
      `onConnect` with indices 0 .. n-1 in order, naming the pending services
      in order, followed by exactly one `onClose`, and leave the modal closed. */
  lemma AllRoundsConnectEachThenClose(services: seq<Service>)
    requires |Unconnected(services)| > 0
    ensures var p := Unconnected(services);
      var r := Run(Initial(services, true), Rounds(|p|));
      && r.Some?
      && |r.value.trace| == |p| + 1
      && (forall k :: 0 <= k < |p| ==> r.value.trace[k] == OnConnect(p[k].name, k))
      && r.value.trace[|p|] == OnClose
      && PhaseOf(r.value) == Closed
  {
    var p := Unconnected(services);
    assert Connects(p, 0) == [];
    RoundsFrom(services, 0);
  }

  // ---------------------------------------------------------------------------
  // The component, with its state held in fields
  // ---------------------------------------------------------------------------

  class SequentialAuthModal {
    const services: seq<Service>
    var isOpen: bool
    var currentIndex: nat
    var showSuccess: bool
    var timer: Option<nat>
    var trace: seq<Callback>

    function State(): FlowState
      reads this
    {
      FlowState(services, isOpen, currentIndex, showSuccess, timer, trace)
    }

    ghost predicate Valid()
      reads this
    {
      Good(State())
    }

    constructor (services: seq<Service>, isOpen: bool)
      ensures Valid() && State() == Initial(services, isOpen)
    {
      this.services := services;
      this.isOpen := isOpen;
      currentIndex := 0;
      showSuccess := false;
      timer := None;
      trace := [];
      new;
      InitialIsGood(services, isOpen);
    }

    /** `handleConnect`. The button is not rendered on the success screen or
        after `onClose`; the handler's own guard covers an empty pending list. */
    method HandleConnect()
      requires Valid() && isOpen && !showSuccess
      modifies this
      ensures Valid() && State() == AfterConnect(old(State()))
    {
      ConnectKeepsGood(State());
      var pending := Unconnected(services);
      if currentIndex >= |pending| {
        return;
      }
      trace := trace + [OnConnect(pending[currentIndex].name, currentIndex)];
      showSuccess := true;
      timer := Some(currentIndex);
    }

    /** The scheduled continuation firing. */
    method FireTimer()
      requires Valid() && timer.Some?
      modifies this
      ensures Valid() && State() == AfterTimer(old(State()))
    {
      TimerKeepsGood(State());
      var captured := timer.value;
      showSuccess := false;
      timer := None;
      if captured < |Unconnected(services)| - 1 {
        currentIndex := captured + 1;
      } else {
        trace := trace + [OnClose];
        isOpen := false;
      }
    }

    /** The close button of the prompt view. */
    method ClickClose()
      requires Valid() && PhaseOf(State()) == Presenting
      modifies this
      ensures Valid() && State() == AfterClose(old(State()))
    {
      CloseKeepsGood(State());
      trace := trace + [OnClose];
      isOpen := false;
    }
  }
}
