/**
 * The event handling and render gate of `VulkanEngine::run` (src/vk_engine.cpp),
 * over abstract SDL events. A poll batch is the sequence of events one
 * `SDL_PollEvent` loop drains; a run is a sequence of batches, one per
 * iteration of the main loop.
 */
module MainLoop {

  /** `SDL_WindowEvent.event`, for the two values the loop looks at. */
  datatype WindowEventKind = Minimized | Restored | OtherWindowEvent

  /** `SDL_Event`, by its `type`. */
  datatype Event = Quit | WindowEvent(kind: WindowEventKind) | OtherEvent

  /** An event that changes the render gate: a minimise or a restore. */
  predicate IsGate(e: Event) {
    e == WindowEvent(Minimized) || e == WindowEvent(Restored)
  }

  /** The effect of one event on `stop_rendering`. */
  function Step(stop: bool, e: Event): bool {
    match e
    case WindowEvent(Minimized) => true
    case WindowEvent(Restored) => false
    case _ => stop
  }

  /** `stop_rendering` after the events of `batch` have been handled in order. */
  function StopAfter(stop: bool, batch: seq<Event>): bool
    decreases |batch|
  {
    if batch == [] then stop
    else Step(StopAfter(stop, batch[..|batch| - 1]), batch[|batch| - 1])
  }

  /** The events of several batches, in the order they are polled. */
  function Flatten(batches: seq<seq<Event>>): seq<Event> {
    if batches == [] then [] else batches[0] + Flatten(batches[1..])
  }

  /** What a run of the main loop produces: one entry per iteration, true where it called `draw`. */
  datatype Outcome = Outcome(draws: seq<bool>, stop: bool)

  /**
   * The main loop on a sequence of poll batches, starting with `stop_rendering`
   * equal to `stop`. Each iteration drains one batch, then calls `draw` unless
   * rendering is stopped; after the first batch that holds a quit event the
   * loop test fails and the run ends. The run also ends when the batches do.
   */
  function RunFrom(stop: bool, batches: seq<seq<Event>>): Outcome
    decreases |batches|
  {
    if batches == [] then Outcome([], stop)
    else
      var s := StopAfter(stop, batches[0]);
      if Quit in batches[0] then Outcome([!s], s)
      else
        var rest := RunFrom(s, batches[1..]);
        Outcome([!s] + rest.draws, rest.stop)
  }

  /** The iterations `draws` followed by the outcome `o` of the rest of a run. */
  function Prepend(draws: seq<bool>, o: Outcome): Outcome {
    Outcome(draws + o.draws, o.stop)
  }

  /** Recording one more iteration before the rest of a run. */
  lemma PrependAppend(draws: seq<bool>, d: bool, o: Outcome)
    ensures Prepend(draws, Prepend([d], o)) == Prepend(draws + [d], o)
  {
    assert draws + ([d] + o.draws) == (draws + [d]) + o.draws;
  }

  /** One iteration of the run: the first batch is drained, and the run ends there if it held a quit event. */
  lemma RunFromStep(stop: bool, batches: seq<seq<Event>>)
    requires batches != []
    ensures var s := StopAfter(stop, batches[0]);
      RunFrom(stop, batches) ==
        if Quit in batches[0] then Outcome([!s], s) else Prepend([!s], RunFrom(s, batches[1..]))
  {
  }

  /** Handling events one at a time extends `StopAfter` over a concatenation. */
  lemma {:induction false} StopAfterConcat(stop: bool, a: seq<Event>, b: seq<Event>)
    ensures StopAfter(stop, a + b) == StopAfter(StopAfter(stop, a), b)
    decreases |b|
  {
    if b == [] {
      assert a + b == a;
    } else {
      var b' := b[..|b| - 1];
      assert (a + b)[..|a + b| - 1] == a + b';
      StopAfterConcat(stop, a, b');
    }
  }

  /** A batch with no minimise or restore event leaves `stop_rendering` unchanged. */
  lemma {:induction false} NoGateKeepsStop(stop: bool, batch: seq<Event>)
    requires forall i :: 0 <= i < |batch| ==> !IsGate(batch[i])
    ensures StopAfter(stop, batch) == stop
    decreases |batch|
  {
    if batch != [] {
      var init := batch[..|batch| - 1];
      assert forall i :: 0 <= i < |init| ==> init[i] == batch[i];
      NoGateKeepsStop(stop, init);
    }
  }

  /**
   * After a batch whose last minimise or restore event is at index `i`,
   * `stop_rendering` is true exactly when that event is a minimise.
   */
  lemma {:induction false} LastGateDecides(stop: bool, batch: seq<Event>, i: nat)
    requires i < |batch| && IsGate(batch[i])
    requires forall j :: i < j < |batch| ==> !IsGate(batch[j])
    ensures StopAfter(stop, batch) == (batch[i] == WindowEvent(Minimized))
    decreases |batch|
  {
    var n := |batch| - 1;
    if i < n {
      var init := batch[..n];
      assert init[i] == batch[i];
      assert forall j :: i < j < |init| ==> init[j] == batch[j];
      LastGateDecides(stop, init, i);
    }
  }

  /** An iteration ends the run exactly when its batch holds a quit event, so the run has at most one iteration per batch. */
  lemma {:induction false} RunLength(stop: bool, batches: seq<seq<Event>>)
    ensures |RunFrom(stop, batches).draws| <= |batches|
    ensures (forall k :: 0 <= k < |batches| ==> Quit !in batches[k]) ==>
              |RunFrom(stop, batches).draws| == |batches|
    ensures forall k :: 0 <= k < |batches| && Quit in batches[k] &&
                        (forall j :: 0 <= j < k ==> Quit !in batches[j]) ==>
                        |RunFrom(stop, batches).draws| == k + 1
    decreases |batches|
  {
    if batches != [] && Quit !in batches[0] {
      var s := StopAfter(stop, batches[0]);
      RunLength(s, batches[1..]);
      forall k | 0 <= k < |batches| && Quit in batches[k] &&
                 (forall j :: 0 <= j < k ==> Quit !in batches[j])
        ensures |RunFrom(stop, batches).draws| == k + 1
      {
        assert k > 0;
        assert batches[1..][k - 1] == batches[k];
        assert forall j :: 0 <= j < k - 1 ==> batches[1..][j] == batches[j + 1];
      }
    }
  }

  /**
   * Iteration `k` of a run calls `draw` exactly when `stop_rendering` is false
   * after every event polled up to the end of its batch.
   */
  lemma {:induction false} DrawGate(stop: bool, batches: seq<seq<Event>>, k: nat)
    requires k < |RunFrom(stop, batches).draws|
    ensures k < |batches|
    ensures RunFrom(stop, batches).draws[k] == !StopAfter(stop, Flatten(batches[..k + 1]))
    decreases |batches|
  {
    RunLength(stop, batches);
    var s := StopAfter(stop, batches[0]);
    if k == 0 {
      assert batches[..1][1..] == [];
      assert Flatten(batches[..1]) == batches[0];
    } else {
      var rest := batches[1..];
      DrawGate(s, rest, k - 1);
      RunFromStep(stop, batches);
      assert batches[..k + 1][1..] == rest[..k];
      assert Flatten(batches[..k + 1]) == batches[0] + Flatten(rest[..k]);
      StopAfterConcat(stop, batches[0], Flatten(rest[..k]));
    }
  }

  /**
   * The run ends with the `stop_rendering` that all events polled during it
   * leave behind, including those after a quit event in the last batch.
   */
  lemma {:induction false} FinalGate(stop: bool, batches: seq<seq<Event>>)
    ensures |RunFrom(stop, batches).draws| <= |batches|
    ensures RunFrom(stop, batches).stop ==
              StopAfter(stop, Flatten(batches[..|RunFrom(stop, batches).draws|]))
    decreases |batches|
  {
    RunLength(stop, batches);
    if batches != [] {
      var s := StopAfter(stop, batches[0]);
      if Quit in batches[0] {
        assert batches[..1][1..] == [];
        assert Flatten(batches[..1]) == batches[0];
      } else {
        var rest := batches[1..];
        FinalGate(s, rest);
        RunFromStep(stop, batches);
        var n := |RunFrom(s, rest).draws|;
        assert |RunFrom(stop, batches).draws| == n + 1;
        assert batches[..n + 1][1..] == rest[..n];
        assert Flatten(batches[..n + 1]) == batches[0] + Flatten(rest[..n]);
        StopAfterConcat(stop, batches[0], Flatten(rest[..n]));
      }
    }
  }

  /**
   * A minimise that follows a quit event in the same batch, with no restore
   * after it, is still handled: whatever batches would come later, the run
   * ends after that one iteration, which does not draw, and leaves rendering
   * stopped.
   */
  lemma QuitThenMinimize(stop: bool, batch: seq<Event>, more: seq<seq<Event>>, q: nat, i: nat)
    requires q < i < |batch| && batch[q] == Quit && batch[i] == WindowEvent(Minimized)
    requires forall j :: i < j < |batch| ==> !IsGate(batch[j])
    ensures RunFrom(stop, [batch] + more) == Outcome([false], true)
  {
    LastGateDecides(stop, batch, i);
    assert ([batch] + more)[0] == batch;
  }
}
