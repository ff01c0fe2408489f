/** Runs of the script: any order of the events it reacts to, and what holds
    over a whole run (the page's lifetime, across any number of sessions). */
module ArTrace {
  import opened Wrappers
  import opened ArState

  /** The signals the script receives: the two session events of `renderer.xr`,
      one animation-loop call, the settling of the acquisition promises, and a
      `select` of the running session. */
  datatype Event =
    | SessionStart
    | SessionEnd
    | Frame(hasFrame: bool, results: seq<Option<Pose>>, queryThrows: bool, sway: real)
    | SourceResolved(succeeded: bool)
    | Select(hue: real)

  function Step(s: State, e: Event): State {
    match e
    case SessionStart => SessionStarted(s)
    case SessionEnd => SessionEnded(s)
    case Frame(hasFrame, results, queryThrows, sway) => FrameTick(s, hasFrame, results, queryThrows, sway)
    // Promises settle only while the chain is outstanding; a settlement
    // without one cannot be delivered and leaves the state as it is.
    case SourceResolved(succeeded) => if s.pending then SourceSettled(s, succeeded) else s
    case Select(hue) => Selected(s, hue)
  }

  function Run(s: State, es: seq<Event>): State
    decreases |es|
  {
    if es == [] then s else Run(Step(s, es[0]), es[1..])
  }

  /** The number of frames of the run that call `requestReferenceSpace`. */
  function RequestsIssued(s: State, es: seq<Event>): nat
    decreases |es|
  {
    if es == [] then 0
    else
      (if es[0].Frame? && FrameEffects(s, es[0].hasFrame).requestIssued then 1 else 0)
      + RequestsIssued(Step(s, es[0]), es[1..])
  }

  /** Each handler and the frame callback keep the invariant. */
  lemma StepPreservesInv(s: State, e: Event)
    requires Inv(s)
    ensures Inv(Step(s, e))
  {
  }

  /** The invariant holds after any sequence of events. */
  lemma {:induction false} RunPreservesInv(s: State, es: seq<Event>)
    requires Inv(s)
    ensures Inv(Run(s, es))
    decreases |es|
  {
    if es != [] {
      StepPreservesInv(s, es[0]);
      RunPreservesInv(Step(s, es[0]), es[1..]);
    }
  }

  lemma {:induction false} RunAppend(s: State, es: seq<Event>, e: Event)
    ensures Run(s, es + [e]) == Step(Run(s, es), e)
    decreases |es|
  {
    if es == [] {
      assert es + [e] == [e];
    } else {
      assert (es + [e])[0] == es[0] && (es + [e])[1..] == es[1..] + [e];
      RunAppend(Step(s, es[0]), es[1..], e);
    }
  }

  /** `hitTestSourceRequested` is never cleared, in particular not at session end. */
  lemma {:induction false} RequestedNeverCleared(s: State, es: seq<Event>)
    requires s.requested
    ensures Run(s, es).requested
    decreases |es|
  {
    if es != [] {
      RequestedNeverCleared(Step(s, es[0]), es[1..]);
    }
  }

  /** Over the page's whole lifetime the acquisition is requested at most once,
      and never again once it has been requested, whatever sessions follow. */
  lemma {:induction false} AtMostOneRequest(s: State, es: seq<Event>)
    ensures RequestsIssued(s, es) <= if s.requested then 0 else 1
    decreases |es|
  {
    if es != [] {
      var t := Step(s, es[0]);
      AtMostOneRequest(t, es[1..]);
      if es[0].Frame? && FrameEffects(s, es[0].hasFrame).requestIssued {
        assert t.requested;
      } else if s.requested {
        assert t.requested;
      }
    }
  }

  /** Placed copies are never removed nor changed: the list only grows at its end. */
  lemma {:induction false} PlacementsAppendOnly(s: State, es: seq<Event>)
    ensures s.placed <= Run(s, es).placed
    decreases |es|
  {
    if es != [] {
      var t := Step(s, es[0]);
      assert s.placed <= t.placed;
      PlacementsAppendOnly(t, es[1..]);
    }
  }

  lemma {:induction false} ModelPersists(s: State, es: seq<Event>)
    requires s.model.Some?
    ensures Run(s, es).model.Some?
    decreases |es|
  {
    if es != [] {
      ModelPersists(Step(s, es[0]), es[1..]);
    }
  }

  /** Ending a session after any run puts the reference model back to scale 0.5
      at the origin and visible, however many copies were placed; the copies stay. */
  lemma SessionEndRestoresModel(s: State, es: seq<Event>)
    requires s.model.Some?
    ensures var before := Run(s, es);
            var r := Run(s, es + [SessionEnd]);
            && r.mode == Normal && r.planeVisible && r.backgroundShown
            && r.model.Some? && r.model.value.scale == DesktopScale
            && r.model.value.position == Origin && r.model.value.visible
            && r.placed == before.placed && r.reticleVisible == before.reticleVisible
            && r.requested == before.requested && r.sourceReady == before.sourceReady
  {
    RunAppend(s, es, SessionEnd);
    ModelPersists(s, es);
  }

  /** The model the orbit view shows after any session is not the one it showed
      at load: the end handler restores scale 0.5 at the origin, while the cube
      starts at scale 1 raised by 0.15. */
  lemma SessionEndDiffersFromLoad(es: seq<Event>)
    ensures Run(Initial(), es + [SessionEnd]).model.Some?
    ensures Run(Initial(), es + [SessionEnd]).model.value.scale != Initial().model.value.scale
    ensures Run(Initial(), es + [SessionEnd]).model.value.position != Initial().model.value.position
  {
    SessionEndRestoresModel(Initial(), es);
  }
}
