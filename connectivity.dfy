/** The connectivity hysteresis of app.js: the module-level variables
    `lastKnownConnectivity` and `connectivityCheckCount`, and the code that
    changes them (`checkAndUpdateConnectivity`, `setOfflineMode`,
    `setOnlineMode`, the browser `offline` listener and the forced call in
    `initApp`).

    The transitions are given once as functions over `State`; the class
    `Monitor` performs them in place and is proved to follow those functions. */
module Connectivity {
  import Probe

  /** CHECKS_BEFORE_ONLINE. */
  const ChecksBeforeOnline: nat := 3

  /** `lastKnownConnectivity`: `null`, `false` or `true`. */
  datatype Known = Unknown | Offline | Online

  /** The coarse indicator shown in the status element. */
  datatype Indicator = Initializing | Checking | OfflineMode | OnlineMode

  /** The routines started on a transition; what they do is modelled in
      module Pipelines. */
  datatype Effect = InitOnline | InitOffline

  datatype State = State(last: Known, count: nat, indicator: Indicator, effects: seq<Effect>)

  /** The events that drive the variables: `initApp`, the end of one probe
      round, and the browser's `offline` event. */
  datatype Event = Start | RoundEnded(isOnline: bool) | BrowserOffline

  /** The state when the script has been loaded. */
  const Loaded: State := State(Unknown, 0, Initializing, [])

  /** Every state reachable from `Loaded` satisfies this: the mode is Online
      exactly when the accumulated count has reached the threshold, and the
      indicator agrees with a known mode. */
  predicate Inv(s: State) {
    && (s.last == Online <==> s.count >= ChecksBeforeOnline)
    && (s.last == Online ==> s.indicator == OnlineMode)
    && (s.last == Offline ==> s.indicator == OfflineMode)
  }

  /** `setOfflineMode(force)`. */
  function SetOffline(s: State, force: bool): (r: State)
    ensures force || s.last != Offline ==>
      r == State(Offline, 0, OfflineMode, s.effects + [InitOffline])
    ensures !force && s.last == Offline ==> r == s
  {
    if force || s.last != Offline then State(Offline, 0, OfflineMode, s.effects + [InitOffline])
    else s
  }

  /** `setOnlineMode()`: re-announcing Online changes nothing, and the counter
      is never touched. */
  function SetOnline(s: State): (r: State)
    ensures r.last == Online && r.count == s.count
    ensures s.last == Online ==> r == s
    ensures s.last != Online ==> r.effects == s.effects + [InitOnline] && r.indicator == OnlineMode
  {
    if s.last != Online then s.(last := Online, indicator := OnlineMode, effects := s.effects + [InitOnline])
    else s
  }

  /** `checkAndUpdateConnectivity` once the probe verdict `isOnline` is known. */
  function Round(s: State, isOnline: bool): (r: State)
    ensures isOnline ==> r.count == s.count + 1
    ensures isOnline ==> (r.last == Online <==> s.last == Online || s.count + 1 >= ChecksBeforeOnline)
    ensures isOnline ==> r.last != Offline || s.last == Offline
    ensures isOnline && s.last != Online && s.count + 1 >= ChecksBeforeOnline ==> r.effects == s.effects + [InitOnline]
    ensures isOnline && (s.last == Online || s.count + 1 < ChecksBeforeOnline) ==> r.effects == s.effects
    ensures !isOnline && s.last != Offline ==>
      r.last == Offline && r.count == 0 && r.effects == s.effects + [InitOffline]
    ensures !isOnline && s.last == Offline ==> r == s
  {
    var shown := if s.last == Unknown then s.(indicator := Checking) else s;
    if isOnline then
      var counted := shown.(count := shown.count + 1);
      if counted.count >= ChecksBeforeOnline then SetOnline(counted) else counted
    else
      SetOffline(shown, false)
  }

  /** The `offline` listener: it zeroes the counter and forces offline mode,
      even when the mode is already Offline. */
  function OnBrowserOffline(s: State): (r: State)
    ensures r == State(Offline, 0, OfflineMode, s.effects + [InitOffline])
  {
    SetOffline(s.(count := 0), true)
  }

  /** `initApp` up to its first probe round: `updateUI('initializing')`, then
      `setOfflineMode(true)`. */
  function Begin(s: State): (r: State)
    ensures r == State(Offline, 0, OfflineMode, s.effects + [InitOffline])
  {
    SetOffline(s.(indicator := Initializing), true)
  }

  function Step(s: State, e: Event): (r: State)
    ensures Inv(s) ==> Inv(r)
    ensures |s.effects| <= |r.effects| <= |s.effects| + 1 && r.effects[..|s.effects|] == s.effects
  {
    match e
    case Start => Begin(s)
    case RoundEnded(isOnline) => Round(s, isOnline)
    case BrowserOffline => OnBrowserOffline(s)
  }

  /** The state after a sequence of events, oldest first. */
  function Run(s: State, events: seq<Event>): (r: State)
    ensures Inv(s) ==> Inv(r)
    ensures |r.effects| <= |s.effects| + |events|
    decreases |events|
  {
    if events == [] then s else Run(Step(s, events[0]), events[1..])
  }

  lemma LoadedSatisfiesInv()
    ensures Inv(Loaded)
  {
  }

  /** Appending one event to a run is one more step. */
  lemma {:induction false} RunSnoc(s: State, events: seq<Event>, e: Event)
    ensures Run(s, events + [e]) == Step(Run(s, events), e)
    decreases |events|
  {
    if events == [] {
      assert events + [e] == [e];
    } else {
      assert (events + [e])[1..] == events[1..] + [e];
      RunSnoc(Step(s, events[0]), events[1..], e);
    }
  }

  /** The events are all probe rounds. */
  predicate OnlyRounds(events: seq<Event>) {
    forall i | 0 <= i < |events| :: events[i].RoundEnded?
  }

  /** The number of successful probe rounds among the events. */
  function Successes(events: seq<Event>): nat
    decreases |events|
  {
    if events == [] then 0
    else (if events[0] == RoundEnded(true) then 1 else 0) + Successes(events[1..])
  }

  /** While Offline, failed rounds are no-ops and successful rounds only add to
      the counter: below the threshold the mode stays Offline and the counter
      equals its start value plus the successes, however they are interleaved
      with failures. */
  lemma {:induction false} OfflineRoundsAccumulate(s: State, events: seq<Event>)
    requires s.last == Offline && OnlyRounds(events)
    requires s.count + Successes(events) < ChecksBeforeOnline
    ensures Run(s, events) == s.(count := s.count + Successes(events))
    decreases |events|
  {
    if events != [] {
      var next := Step(s, events[0]);
      assert next == s.(count := s.count + (if events[0] == RoundEnded(true) then 1 else 0));
      assert OnlyRounds(events[1..]);
      OfflineRoundsAccumulate(next, events[1..]);
    }
  }

  /** The success that brings the accumulated count to the threshold switches
      to Online and runs the online initialisation exactly once; the failures
      in between do not matter. */
  lemma ReachesOnlineOnThresholdSuccess(s: State, events: seq<Event>)
    requires s.last == Offline && s.indicator == OfflineMode && OnlyRounds(events)
    requires s.count + Successes(events) == ChecksBeforeOnline - 1
    ensures Run(s, events + [RoundEnded(true)]) ==
      State(Online, ChecksBeforeOnline, OnlineMode, s.effects + [InitOnline])
  {
    OfflineRoundsAccumulate(s, events);
    RunSnoc(s, events, RoundEnded(true));
  }

  /** From Offline, a run of rounds can only end Online if it held at least
      as many successes as were missing from the threshold. */
  lemma OnlineNeedsAccumulatedSuccesses(s: State, events: seq<Event>)
    requires s.last == Offline && OnlyRounds(events)
    requires Run(s, events).last == Online
    ensures s.count + Successes(events) >= ChecksBeforeOnline
  {
    if s.count + Successes(events) < ChecksBeforeOnline {
      OfflineRoundsAccumulate(s, events);
    }
  }

  /** The threshold counts successes since the last reset, not consecutive
      ones: success, failure, success, success after `initApp` ends Online. */
  lemma InterleavedFailureStillReachesOnline()
    ensures Run(Loaded, [Start, RoundEnded(true), RoundEnded(false), RoundEnded(true), RoundEnded(true)]).last == Online
  {
    var afterStart := Step(Loaded, Start);
    var rounds := [RoundEnded(true), RoundEnded(false), RoundEnded(true)];
    assert Successes(rounds) == 2;
    ReachesOnlineOnThresholdSuccess(afterStart, rounds);
    assert [Start] + (rounds + [RoundEnded(true)]) ==
      [Start, RoundEnded(true), RoundEnded(false), RoundEnded(true), RoundEnded(true)];
  }

  /** The mutable module state of app.js. */
  class Monitor {
    var lastKnownConnectivity: Known
    var connectivityCheckCount: nat
    var indicator: Indicator
    ghost var effects: seq<Effect>

    ghost function Snapshot(): State
      reads this
    {
      State(lastKnownConnectivity, connectivityCheckCount, indicator, effects)
    }

    /** Script load. */
    constructor ()
      ensures Snapshot() == Loaded
    {
      lastKnownConnectivity := Unknown;
      connectivityCheckCount := 0;
      indicator := Initializing;
      effects := [];
    }

    method SetOfflineMode(force: bool)
      modifies this
      ensures Snapshot() == SetOffline(old(Snapshot()), force)
    {
      if force || lastKnownConnectivity != Offline {
        lastKnownConnectivity := Offline;
        connectivityCheckCount := 0;
        indicator := OfflineMode;
        effects := effects + [InitOffline];
      }
    }

    method SetOnlineMode()
      modifies this
      ensures Snapshot() == SetOnline(old(Snapshot()))
    {
      if lastKnownConnectivity != Online {
        lastKnownConnectivity := Online;
        indicator := OnlineMode;
        effects := effects + [InitOnline];
      }
    }

    /** One probe round; the probe's verdict is returned as in the source. */
    method CheckAndUpdateConnectivity(round: Probe.RoundInput) returns (isOnline: bool)
      modifies this
      ensures isOnline == Probe.Verdict(round)
      ensures Snapshot() == Round(old(Snapshot()), isOnline)
    {
      if lastKnownConnectivity == Unknown {
        indicator := Checking;
      }
      isOnline := Probe.Verdict(round);
      if isOnline {
        connectivityCheckCount := connectivityCheckCount + 1;
        if connectivityCheckCount >= ChecksBeforeOnline {
          SetOnlineMode();
        }
      } else {
        SetOfflineMode(false);
      }
    }

    /** The browser's `offline` event. */
    method HandleBrowserOffline()
      modifies this
      ensures Snapshot() == OnBrowserOffline(old(Snapshot()))
    {
      connectivityCheckCount := 0;
      SetOfflineMode(true);
    }

    /** `initApp` up to and including its first awaited probe round. */
    method InitApp(first: Probe.RoundInput) returns (isOnline: bool)
      modifies this
      ensures isOnline == Probe.Verdict(first)
      ensures Snapshot() == Run(old(Snapshot()), [Start, RoundEnded(isOnline)])
    {
      ghost var before := Snapshot();
      indicator := Initializing;
      SetOfflineMode(true);
      ghost var started := Snapshot();
      isOnline := CheckAndUpdateConnectivity(first);
      assert started == Step(before, Start);
      assert [Start, RoundEnded(isOnline)][1..] == [RoundEnded(isOnline)];
      assert [RoundEnded(isOnline)][1..] == [];
      assert Run(started, [RoundEnded(isOnline)]) == Step(started, RoundEnded(isOnline));
      assert Run(before, [Start, RoundEnded(isOnline)]) == Run(started, [RoundEnded(isOnline)]);
    }
  }
}
