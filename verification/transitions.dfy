/** The background transform of a modal stack, as values.

    The container view keeps six pieces of state: how many modals are shown,
    whether the modals allow the background to be scaled, and four visual
    parameters of the content beneath them (saturation, scale, corner radius
    and vertical offset). Two events change that state: a new modal list and a
    new drag progress of the topmost modal. A third, the delayed corner-radius
    reset, fires some time after the stack became empty.

    This module states each event as a function from the old state to the new
    one, and proves what those functions promise, alone and over whole runs of
    events. The class in module ContainerView is proved against these
    functions. */
module Transitions {

  /** The four parameters applied to the content beneath the modals. */
  datatype Visual = Visual(saturation: real, scale: real, cornerRadius: real, offset: real)

  /** Everything the container keeps between events. `pendingResets` counts
      the delayed corner-radius resets that have been scheduled and have not
      fired yet. */
  datatype ContainerState = ContainerState(
    modalCount: nat,
    scalingEnabled: bool,
    visual: Visual,
    pendingResets: nat)

  /** The events the container reacts to. */
  datatype Event =
    | ModalsChanged(allows: seq<bool>)
    | DragProgressChanged(progress: real)
    | ResetTimerFired

  /** Scale and offset both follow saturation along one line: saturation 1 is
      full size and no offset, saturation 0 is scale 0.92 and offset 30. */
  predicate CoDerived(v: Visual) {
    v.scale == 0.92 + 0.08 * v.saturation && v.offset == 30.0 - 30.0 * v.saturation
  }

  /** The ranges the visual parameters are meant to stay in. */
  predicate InRange(v: Visual) {
    0.0 <= v.saturation <= 1.0 && v.cornerRadius >= 0.0
  }

  /** The background as it is with no modal shown. */
  function Restored(device: real): Visual {
    Visual(1.0, 1.0, device, 0.0)
  }

  /** The background as it is behind a presented modal. */
  function Receded(): Visual {
    Visual(0.0, 0.92, 36.0, 30.0)
  }

  /** The state the view starts in. */
  function Initial(): (s: ContainerState)
    ensures s.modalCount == 0 && s.scalingEnabled && s.pendingResets == 0
    ensures CoDerived(s.visual) && InRange(s.visual)
  {
    ContainerState(0, true, Visual(1.0, 1.0, 36.0, 0.0), 0)
  }

  /** Where the transform settles for a stack of `count` modals: restored when
      the stack is empty, receded otherwise, whatever the count. */
  function SettledTarget(count: nat, device: real): (v: Visual)
    ensures CoDerived(v)
    ensures count == 0 ==> v.saturation == 1.0 && v.cornerRadius == device
    ensures count > 0 ==> v.saturation == 0.0 && v.cornerRadius == 36.0
  {
    if count == 0 then Restored(device) else Receded()
  }

  /** Where a drag progress `p` moves the transform: linearly between the
      receded state (p = 0) and the restored one (p = 1). */
  function DragTarget(p: real, device: real): (v: Visual)
    ensures CoDerived(v)
    ensures v.saturation == p
  {
    Visual(p, 0.92 + 0.08 * p, 36.0 + (device - 36.0) * p, 30.0 - 30.0 * p)
  }

  /** Progress 1 gives the background of an empty stack (restored) and
      progress 0 that of a shown modal (receded): the drag moves between the
      two settled states. */
  lemma DragTargetEndpoints(device: real)
    ensures DragTarget(1.0, device) == SettledTarget(0, device)
    ensures DragTarget(0.0, device) == SettledTarget(1, device)
  {
  }

  /** For a progress in [0, 1] the corner radius of a drag target lies
      between 36 and the device radius, so it is never negative when the
      device radius is not. */
  lemma DragTargetRadiusBetween(p: real, device: real)
    requires 0.0 <= p <= 1.0
    ensures var r := DragTarget(p, device).cornerRadius;
      (device <= 36.0 ==> device <= r <= 36.0) && (36.0 <= device ==> 36.0 <= r <= device)
    ensures device >= 0.0 ==> InRange(DragTarget(p, device))
  {
    var r := DragTarget(p, device).cornerRadius;
    var a := if device <= 36.0 then 36.0 - device else device - 36.0;
    ProductNonNegative(a, p);
    ProductNonNegative(a, 1.0 - p);
    if device <= 36.0 {
      assert r == 36.0 - a * p;
      assert r - device == a * (1.0 - p);
    } else {
      assert r == 36.0 + a * p;
      assert device - r == a * (1.0 - p);
    }
  }

  /** Sign of a product, for the radius bounds above. */
  lemma ProductNonNegative(x: real, y: real)
    requires x >= 0.0 && y >= 0.0
    ensures x * y >= 0.0
  {
  }

  /** The loop over the modal list: each modal that disallows scaling clears
      the flag; no modal sets it. */
  function FlagAfterLoop(flag: bool, allows: seq<bool>): (r: bool)
    ensures r <==> flag && forall j :: 0 <= j < |allows| ==> allows[j]
    decreases |allows|
  {
    if allows == [] then flag
    else FlagAfterLoop(if !allows[0] then false else flag, allows[1..])
  }

  /** The scaling flag after a new modal list: set by an empty list, otherwise
      only ever cleared. */
  function ScalingAfter(prev: bool, allows: seq<bool>): (r: bool)
    ensures allows == [] ==> r
    ensures allows != [] ==> (r <==> prev && forall j :: 0 <= j < |allows| ==> allows[j])
    ensures (exists j :: 0 <= j < |allows| && !allows[j]) ==> !r
    ensures r && allows != [] ==> prev
  {
    if allows == [] then true else FlagAfterLoop(prev, allows)
  }

  /** The handler of a new modal list. */
  function OnModalsChanged(s: ContainerState, allows: seq<bool>, device: real): (t: ContainerState)
    ensures t.modalCount == |allows|
    ensures t.scalingEnabled == ScalingAfter(s.scalingEnabled, allows)
    // from zero modals to one, the radius ends at the device radius, or at 36
    // when the animated update overrides it
    ensures s.modalCount == 0 && |allows| == 1 ==>
      t.visual.cornerRadius == (if t.scalingEnabled then 36.0 else device)
    // frozen: scaling disabled, or exactly two modals
    ensures !t.scalingEnabled || |allows| == 2 ==>
      t.visual.saturation == s.visual.saturation &&
      t.visual.scale == s.visual.scale &&
      t.visual.offset == s.visual.offset &&
      t.visual.cornerRadius ==
        (if s.modalCount == 0 && |allows| == 1 then device else s.visual.cornerRadius)
    // settled: restored for an empty list, receded for any other count but 2
    ensures t.scalingEnabled && |allows| != 2 ==> t.visual == SettledTarget(|allows|, device)
    ensures |allows| == 0 ==> t.visual == Restored(device)
    ensures |allows| >= 1 && |allows| != 2 && t.scalingEnabled ==> t.visual == Receded()
    // a reset is scheduled exactly when the stack becomes empty
    ensures t.pendingResets == s.pendingResets + (if |allows| == 0 then 1 else 0)
    ensures CoDerived(s.visual) ==> CoDerived(t.visual)
  {
    var enabled := ScalingAfter(s.scalingEnabled, allows);
    var n := |allows|;
    var radius := if s.modalCount == 0 && n == 1 then device else s.visual.cornerRadius;
    if enabled && n != 2 then
      ContainerState(n, enabled, SettledTarget(n, device),
                     s.pendingResets + (if n == 0 then 1 else 0))
    else
      ContainerState(n, enabled, s.visual.(cornerRadius := radius), s.pendingResets)
  }

  /** The handler of a new drag progress. */
  function OnDragProgress(s: ContainerState, p: real, device: real): (t: ContainerState)
    ensures t.modalCount == s.modalCount && t.scalingEnabled == s.scalingEnabled
    ensures t.pendingResets == s.pendingResets
    ensures !(s.scalingEnabled && s.modalCount == 1) ==> t == s
    ensures s.scalingEnabled && s.modalCount == 1 ==>
      t.visual == DragTarget(p, device) && t.visual.saturation == p
    ensures CoDerived(s.visual) ==> CoDerived(t.visual)
  {
    if s.scalingEnabled && s.modalCount == 1 then s.(visual := DragTarget(p, device)) else s
  }

  /** The delayed corner-radius reset firing: it takes the radius to 0 only if
      the stack is still empty, and changes nothing else. */
  function OnDelayedFire(s: ContainerState): (t: ContainerState)
    requires s.pendingResets > 0
    ensures t.pendingResets == s.pendingResets - 1
    ensures t.visual.cornerRadius == (if s.modalCount == 0 then 0.0 else s.visual.cornerRadius)
    ensures t.modalCount == s.modalCount && t.scalingEnabled == s.scalingEnabled
    ensures t.visual.saturation == s.visual.saturation && t.visual.scale == s.visual.scale
    ensures t.visual.offset == s.visual.offset
  {
    var visual := if s.modalCount == 0 then s.visual.(cornerRadius := 0.0) else s.visual;
    s.(visual := visual, pendingResets := s.pendingResets - 1)
  }

  /** One event. A timer that fires with none scheduled cannot happen; it is
      read as no event at all. */
  function Step(s: ContainerState, e: Event, device: real): ContainerState {
    match e
    case ModalsChanged(allows) => OnModalsChanged(s, allows, device)
    case DragProgressChanged(p) => OnDragProgress(s, p, device)
    case ResetTimerFired => if s.pendingResets > 0 then OnDelayedFire(s) else s
  }

  /** A run of events, in order. */
  function Run(s: ContainerState, events: seq<Event>, device: real): ContainerState
    decreases |events|
  {
    if events == [] then s else Run(Step(s, events[0], device), events[1..], device)
  }

  /** Scale and offset stay tied to saturation across any run of events. */
  lemma {:induction false} RunKeepsCoDerived(s: ContainerState, events: seq<Event>, device: real)
    requires CoDerived(s.visual)
    ensures CoDerived(Run(s, events, device).visual)
    decreases |events|
  {
    if events != [] {
      RunKeepsCoDerived(Step(s, events[0], device), events[1..], device);
    }
  }

  /** Every drag progress of a run lies in [0, 1]. */
  predicate ProgressInUnit(events: seq<Event>) {
    forall i :: 0 <= i < |events| && events[i].DragProgressChanged? ==>
      0.0 <= events[i].progress <= 1.0
  }

  /** Saturation stays in [0, 1] and the corner radius non-negative across a
      run, when the device radius is non-negative and every drag progress lies
      in [0, 1]; with CoDerived, scale then lies in [0.92, 1] and offset in
      [0, 30]. */
  lemma {:induction false} RunKeepsInRange(s: ContainerState, events: seq<Event>, device: real)
    requires device >= 0.0 && InRange(s.visual) && ProgressInUnit(events)
    ensures InRange(Run(s, events, device).visual)
    decreases |events|
  {
    if events != [] {
      var e := events[0];
      if e.DragProgressChanged? {
        assert 0.0 <= e.progress <= 1.0 by { assert events[0] == e; }
        DragTargetRadiusBetween(e.progress, device);
      }
      assert InRange(Step(s, e, device).visual);
      assert ProgressInUnit(events[1..]) by {
        forall i | 0 <= i < |events[1..]| && events[1..][i].DragProgressChanged?
          ensures 0.0 <= events[1..][i].progress <= 1.0
        {
          assert events[1..][i] == events[i + 1];
        }
      }
      RunKeepsInRange(Step(s, e, device), events[1..], device);
    }
  }

  /** In-range, co-derived visual parameters have scale in [0.92, 1] and
      offset in [0, 30]. */
  lemma CoDerivedBounds(v: Visual)
    requires CoDerived(v) && InRange(v)
    ensures 0.92 <= v.scale <= 1.0 && 0.0 <= v.offset <= 30.0
  {
  }

  /** From the initial state, every run whose drag progress stays in [0, 1]
      keeps all four parameters in range, when the device radius is not
      negative. */
  lemma RunFromInitialInRange(events: seq<Event>, device: real)
    requires device >= 0.0 && ProgressInUnit(events)
    ensures var v := Run(Initial(), events, device).visual;
      0.0 <= v.saturation <= 1.0 && 0.92 <= v.scale <= 1.0 &&
      0.0 <= v.offset <= 30.0 && v.cornerRadius >= 0.0
  {
    RunKeepsCoDerived(Initial(), events, device);
    RunKeepsInRange(Initial(), events, device);
    CoDerivedBounds(Run(Initial(), events, device).visual);
  }

  /** The source does not clamp drag progress: with one modal and scaling
      on, a progress past 1 pushes saturation past 1, scale past 1 and the
      offset below 0, and a progress below 0 pushes saturation below 0, scale
      below 0.92 and the offset past 30. */
  lemma OverdragLeavesRange(s: ContainerState, p: real, device: real)
    requires s.scalingEnabled && s.modalCount == 1
    ensures var v := OnDragProgress(s, p, device).visual;
      (p > 1.0 ==> v.saturation > 1.0 && v.scale > 1.0 && v.offset < 0.0 && !InRange(v)) &&
      (p < 0.0 ==> v.saturation < 0.0 && v.scale < 0.92 && v.offset > 30.0 && !InRange(v))
  {
  }

  /** No modals means scaling is on. */
  predicate EmptyMeansEnabled(s: ContainerState) {
    s.modalCount == 0 ==> s.scalingEnabled
  }

  /** An empty stack always has scaling enabled: only an empty list brings the
      count to 0, and an empty list turns the flag on; drags and resets change
      neither. */
  lemma {:induction false} RunKeepsEmptyEnabled(s: ContainerState, events: seq<Event>, device: real)
    requires EmptyMeansEnabled(s)
    ensures EmptyMeansEnabled(Run(s, events, device))
    decreases |events|
  {
    if events != [] {
      RunKeepsEmptyEnabled(Step(s, events[0], device), events[1..], device);
    }
  }

  /** No event of the run hands over an empty modal list. */
  predicate NeverEmpties(events: seq<Event>) {
    forall i :: 0 <= i < |events| ==> events[i] != ModalsChanged([])
  }

  /** Once cleared, the scaling flag stays cleared until the stack empties:
      no run without an empty modal list turns it on. */
  lemma {:induction false} RunNeverEnablesWithoutEmpty(s: ContainerState, events: seq<Event>, device: real)
    requires NeverEmpties(events)
    ensures Run(s, events, device).scalingEnabled ==> s.scalingEnabled
    decreases |events|
  {
    if events != [] {
      assert events[0] != ModalsChanged([]);
      assert NeverEmpties(events[1..]) by {
        forall i | 0 <= i < |events[1..]| ensures events[1..][i] != ModalsChanged([]) {
          assert events[1..][i] == events[i + 1];
        }
      }
      RunNeverEnablesWithoutEmpty(Step(s, events[0], device), events[1..], device);
    }
  }

  /** The length of the last modal list of a run, or `start` if the run
      hands over none. */
  function LastCount(start: nat, events: seq<Event>): nat
    decreases |events|
  {
    if events == [] then start
    else if events[|events| - 1].ModalsChanged? then |events[|events| - 1].allows|
    else LastCount(start, events[..|events| - 1])
  }

  /** After any run, the modal count is the length of the last modal list the
      run handed over, or the starting count if it handed over none: drags
      and resets never change it. */
  lemma {:induction false} RunCountIsLastList(s: ContainerState, events: seq<Event>, device: real)
    ensures Run(s, events, device).modalCount == LastCount(s.modalCount, events)
    decreases |events|
  {
    if events != [] {
      var t := Step(s, events[0], device);
      RunCountIsLastList(t, events[1..], device);
      LastCountCons(s.modalCount, t.modalCount, events);
    }
  }

  /** LastCount read from the front: the first event decides the start for
      the rest. */
  lemma {:induction false} LastCountCons(start: nat, next: nat, events: seq<Event>)
    requires events != []
    requires next == (if events[0].ModalsChanged? then |events[0].allows| else start)
    ensures LastCount(start, events) == LastCount(next, events[1..])
    decreases |events|
  {
    if |events| > 1 {
      var last := events[|events| - 1];
      if !last.ModalsChanged? {
        assert events[..|events| - 1][1..] == events[1..][..|events[1..]| - 1];
        LastCountCons(start, next, events[..|events| - 1]);
      }
    }
  }

  /** A reset that fires after the stack was refilled changes nothing but the
      count of pending resets. */
  lemma StaleResetIsNoOp(s: ContainerState, allows: seq<bool>, device: real)
    requires allows != []
    ensures var t := OnModalsChanged(OnModalsChanged(s, [], device), allows, device);
      t.pendingResets > 0 &&
      OnDelayedFire(t) == t.(pendingResets := t.pendingResets - 1)
  {
  }

  /** A reset that fires while the stack is still empty removes the rounded
      corners of the restored background. */
  lemma FreshResetClearsRadius(s: ContainerState, device: real)
    ensures var t := OnModalsChanged(s, [], device);
      t.pendingResets > 0 &&
      OnDelayedFire(t).visual == Restored(device).(cornerRadius := 0.0)
  {
  }

  /** Whatever came before, an empty modal list restores the background,
      re-enables scaling and schedules one more reset. */
  lemma EmptyStackRestores(s: ContainerState, device: real)
    ensures OnModalsChanged(s, [], device) ==
      ContainerState(0, true, Restored(device), s.pendingResets + 1)
  {
  }

  /** The first modal, allowing scaling, recedes the background from the
      initial state: the radius set to the device radius at once is
      overridden by the receded radius 36. */
  lemma FirstPushRecedes(device: real)
    ensures OnModalsChanged(Initial(), [true], device) == ContainerState(1, true, Receded(), 0)
  {
  }

  /** From one receded modal, pushing a second freezes the background and
      popping back to one keeps it receded: the radius stays 36. */
  lemma PushPopKeepsReceded(s: ContainerState, device: real)
    requires s.modalCount == 1 && s.scalingEnabled && s.visual == Receded()
    ensures var s2 := OnModalsChanged(s, [true, true], device);
      s2 == s.(modalCount := 2) && OnModalsChanged(s2, [true], device) == s
  {
    var s2 := OnModalsChanged(s, [true, true], device);
    assert s2 == s.(modalCount := 2);
    assert s2.visual == Receded() && s2.modalCount == 2 && s2.scalingEnabled;
  }
}
