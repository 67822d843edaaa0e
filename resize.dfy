/** The window-resize debounce of the play page
    (handlers/www/assets/app-simplified.js, the `resize` binding and
    `$scope.resize`): `resizeHandler` is a one-slot timer. A window resize
    arms it only when the instance has a terminal and no timeout is pending;
    when the timeout fires it empties the slot and sends the terminal's
    geometry as it is at that moment. */
module Resize {
  import opened JsValues

  datatype Slot = Idle | Pending

  /** A browser `resize` event, told whether `$scope.instance.term` existed,
      or the pending timeout firing, given the geometry the current terminal
      proposes then (`None` when there is no instance or no terminal, where
      `$scope.instance.term.proposeGeometry()` throws). */
  datatype ResizeEvent = WindowResized(hasTerm: bool) | TimerFired(geometry: Option<(Value, Value)>)

  /** The slot after a window resize, and whether a new timeout was scheduled. */
  function OnWindowResized(slot: Slot, hasTerm: bool): (r: (Slot, bool))
    ensures r.1 <==> slot.Idle? && hasTerm
    ensures r.0.Pending? <==> slot.Pending? || hasTerm
  {
    if hasTerm && slot.Idle? then (Pending, true) else (slot, false)
  }

  /** The resize frames sent when the timeout fires: one carrying the
      proposed columns and rows, or none when reading the geometry threw. */
  function OnFired(geometry: Option<(Value, Value)>): (sent: seq<(Value, Value)>)
    ensures geometry.None? <==> sent == []
    ensures geometry.Some? ==> sent == [geometry.value]
  {
    if geometry.None? then [] else [geometry.value]
  }

  /** The state after a run of events: the slot, how many timeouts were
      scheduled, and the `(cols, rows)` of every resize frame sent. */
  datatype Debounce = Debounce(slot: Slot, scheduled: nat, sent: seq<(Value, Value)>)

  function StepDebounce(d: Debounce, e: ResizeEvent): Debounce {
    match e
    case WindowResized(h) =>
      var (slot, scheduled) := OnWindowResized(d.slot, h);
      Debounce(slot, d.scheduled + (if scheduled then 1 else 0), d.sent)
    case TimerFired(g) =>
      Debounce(Idle, d.scheduled, d.sent + OnFired(g))
  }

  function Replay(evs: seq<ResizeEvent>): Debounce
    decreases |evs|
  {
    if evs == [] then Debounce(Idle, 0, []) else StepDebounce(Replay(evs[..|evs| - 1]), evs[|evs| - 1])
  }

  /** A timeout fires only while one is pending: `$timeout` runs what was scheduled. */
  ghost predicate FiresOnlyWhenPending(evs: seq<ResizeEvent>) {
    forall k :: 0 <= k < |evs| && evs[k].TimerFired? ==> Replay(evs[..k]).slot.Pending?
  }

  /** One more event on a well-formed run keeps it well formed. */
  lemma ExtendTrace(evs: seq<ResizeEvent>, e: ResizeEvent)
    requires FiresOnlyWhenPending(evs)
    requires e.TimerFired? ==> Replay(evs).slot.Pending?
    ensures FiresOnlyWhenPending(evs + [e])
    ensures Replay(evs + [e]) == StepDebounce(Replay(evs), e)
  {
    var evs' := evs + [e];
    assert evs'[..|evs|] == evs;
    forall k | 0 <= k < |evs'| && evs'[k].TimerFired?
      ensures Replay(evs'[..k]).slot.Pending?
    {
      if k < |evs| {
        assert evs'[..k] == evs[..k];
      }
    }
  }

  function Fires(evs: seq<ResizeEvent>): nat
    decreases |evs|
  {
    if evs == [] then 0 else Fires(evs[..|evs| - 1]) + (if evs[|evs| - 1].TimerFired? then 1 else 0)
  }

  /** Every scheduled timeout has either fired or is the one still pending,
      so there is never more than one outstanding; and each firing sends at
      most one frame. */
  lemma {:induction false} DebounceAccounting(evs: seq<ResizeEvent>)
    requires FiresOnlyWhenPending(evs)
    ensures var d := Replay(evs);
      d.scheduled == Fires(evs) + (if d.slot.Pending? then 1 else 0) && |d.sent| <= Fires(evs)
    decreases |evs|
  {
    if evs != [] {
      var init := evs[..|evs| - 1];
      assert forall k :: 0 <= k < |init| ==> init[..k] == evs[..k];
      DebounceAccounting(init);
      assert evs[..|evs| - 1] == init;
    }
  }

  function Resizes(hs: seq<bool>): (evs: seq<ResizeEvent>)
    ensures |evs| == |hs| && forall k :: 0 <= k < |hs| ==> evs[k] == WindowResized(hs[k])
  {
    seq(|hs|, k requires 0 <= k < |hs| => WindowResized(hs[k]))
  }

  /** A burst of window resizes schedules one timeout once any of them saw a
      terminal, and no more while it is pending. */
  lemma {:induction false} BurstSchedulesOnce(hs: seq<bool>)
    ensures var d := Replay(Resizes(hs));
      && (d.slot.Pending? <==> true in hs)
      && d.scheduled == (if true in hs then 1 else 0)
      && d.sent == []
    decreases |hs|
  {
    if hs != [] {
      var init := hs[..|hs| - 1];
      assert Resizes(hs)[..|hs| - 1] == Resizes(init);
      BurstSchedulesOnce(init);
      assert hs == init + [hs[|hs| - 1]];
    }
  }

  /** A burst of window resizes followed by the timeout sends exactly one
      resize frame, with the geometry read at firing time, and frees the slot. */
  lemma DebouncedBurst(hs: seq<bool>, cols: Value, rows: Value)
    requires true in hs
    ensures var evs := Resizes(hs) + [TimerFired(Some((cols, rows)))];
      FiresOnlyWhenPending(evs) && Replay(evs) == Debounce(Idle, 1, [(cols, rows)])
  {
    var evs := Resizes(hs) + [TimerFired(Some((cols, rows)))];
    BurstSchedulesOnce(hs);
    assert evs[..|evs| - 1] == Resizes(hs);
    forall k | 0 <= k < |evs| && evs[k].TimerFired?
      ensures Replay(evs[..k]).slot.Pending?
    {
      assert k == |evs| - 1;
    }
  }
}
