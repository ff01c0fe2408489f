/** The script's module-level state as one mutable object, and its event
    handlers as methods that update it in place. Each method is proved to move
    the object exactly as the matching function of ArState moves a state value,
    and to keep the invariant ArState.Inv. */
module ArSession {
  import opened Wrappers
  import opened ArState

  class XrApp {
    var mode: Mode              // isARMode
    var requested: bool         // hitTestSourceRequested
    var pending: bool           // the acquisition promises have not settled
    var sourceReady: bool       // hitTestSource is set
    var reticleVisible: bool    // reticle.visible
    var reticleMatrix: Pose     // reticle.matrix
    var model: Option<RefModel> // the reference model's scale, position, visibility, rotation
    var planeVisible: bool      // plane.visible
    var backgroundShown: bool   // scene.background is the light grey colour
    var placed: seq<Placed>     // the copies added to scene.children
    var nextMaterial: nat       // identity the next cloned material receives
    var status: Status          // infoDiv.innerHTML

    /** The object's state as a value. */
    function Snapshot(): State
      reads this
    {
      State(mode, requested, pending, sourceReady, reticleVisible, reticleMatrix,
            model, planeVisible, backgroundShown, placed, nextMaterial, status)
    }

    ghost predicate Valid()
      reads this
    {
      Inv(Snapshot())
    }

    /** The top level of the script: orbit view, test cube shown, reticle hidden. */
    constructor ()
      ensures Valid() && Snapshot() == Initial()
    {
      mode := Normal;
      requested, pending, sourceReady := false, false, false;
      reticleVisible, reticleMatrix := false, IdentityPose;
      model := Some(RefModel(InitialScale, InitialPosition, true, 0.0, 0.0, 0));
      planeVisible, backgroundShown := true, true;
      placed, nextMaterial := [], 1;
      status := CubeLoaded;
    }

    /** The `sessionstart` listener. */
    method SessionStart()
      requires Valid()
      modifies this
      ensures Valid() && Snapshot() == SessionStarted(old(Snapshot()))
    {
      mode := Immersive;
      backgroundShown := false;
      planeVisible := false;
      if model.Some? {
        model := Some(model.value.(scale := ArScale, visible := false));
      }
      status := ArActive;
    }

    /** The `sessionend` listener. */
    method SessionEnd()
      requires Valid()
      modifies this
      ensures Valid() && Snapshot() == SessionEnded(old(Snapshot()))
    {
      mode := Normal;
      backgroundShown := true;
      planeVisible := true;
      if model.Some? {
        model := Some(model.value.(scale := DesktopScale, position := Origin, visible := true));
      }
      status := ArExited;
    }

    /** The settling of the `requestReferenceSpace` / `requestHitTestSource`
        chain: success stores the source, a rejection at either step only logs. */
    method SourceResolved(succeeded: bool)
      requires Valid() && pending
      modifies this
      ensures Valid() && Snapshot() == SourceSettled(old(Snapshot()), succeeded)
    {
      pending := false;
      if succeeded {
        sourceReady := true;
      }
    }

    /** One call of the animation-loop callback; `work` reports which
        collaborators it called. */
    method Frame(hasFrame: bool, results: seq<Option<Pose>>, queryThrows: bool, sway: real)
      returns (work: FrameWork)
      requires Valid()
      modifies this
      ensures Valid()
      ensures Snapshot() == FrameTick(old(Snapshot()), hasFrame, results, queryThrows, sway)
      ensures work == FrameEffects(old(Snapshot()), hasFrame)
    {
      work := FrameWork(false, false, false, false);
      if mode == Normal {
        work := work.(controlsUpdated := true);
      }
      if hasFrame && mode == Immersive {
        if !requested {
          work := work.(requestIssued := true);
          pending := true;
          requested := true;
        }
        if sourceReady {
          work := work.(polled := true);
          if !queryThrows {
            if |results| > 0 {
              match results[0]
              case Some(pose) =>
                if !reticleVisible {
                  status := SurfaceFound;
                }
                reticleVisible := true;
                reticleMatrix := pose;
              case None =>
            } else {
              if reticleVisible {
                status := SurfaceLost;
              }
              reticleVisible := false;
            }
          }
        }
      }
      if mode == Normal && model.Some? && model.value.visible {
        work := work.(animated := true);
        model := Some(model.value.(rotY := model.value.rotY + SpinStep, rotX := sway));
      }
    }

    /** The `select` listener of the running session. */
    method Select(hue: real)
      requires Valid()
      modifies this
      ensures Valid() && Snapshot() == Selected(old(Snapshot()), hue)
    {
      if reticleVisible && model.Some? {
        var copy := Placed(reticleMatrix, ArScale, true, nextMaterial, hue);
        placed := placed + [copy];
        nextMaterial := nextMaterial + 1;
        status := PlacedTotal(CountMeshes(SceneChildren(Snapshot())));
      } else {
        status := KeepSearching;
      }
    }
  }

  /** One session from start to end: the surface is found at `p1`, a tap places
      a copy there, the surface is lost, a second tap places nothing, and after
      the session the copy is still in the scene and the model is shown again. */
  method Walkthrough(p1: Pose, hue1: real, hue2: real, sway: real)
    returns (count: nat, firstPose: Pose, afterFirstTap: Status, afterSecondTap: Status,
             reticleShown: bool, modelShown: bool, modelScale: real, modelPosition: Vec3)
    ensures count == 1 && firstPose == p1
    ensures afterFirstTap == PlacedTotal(1) && afterSecondTap == KeepSearching
    ensures !reticleShown && modelShown && modelScale == DesktopScale && modelPosition == Origin
  {
    var app := new XrApp();
    app.SessionStart();
    var work := app.Frame(true, [], false, sway);
    app.SourceResolved(true);
    work := app.Frame(true, [Some(p1)], false, sway);
    app.Select(hue1);
    afterFirstTap := app.status;
    work := app.Frame(true, [], false, sway);
    app.Select(hue2);
    afterSecondTap := app.status;
    app.SessionEnd();
    count := |app.placed|;
    firstPose := app.placed[0].pose;
    reticleShown := app.reticleVisible;
    modelShown := app.model.Some? && app.model.value.visible;
    modelScale := if app.model.Some? then app.model.value.scale else 0.0;
    modelPosition := if app.model.Some? then app.model.value.position else InitialPosition;
  }

  /** A second session after one in which the surface was found: no new
      acquisition is requested, and the reticle is still shown from the first. */
  method SecondSession(p: Pose, sway: real) returns (requestedAgain: bool, reticleShownAtStart: bool)
    ensures !requestedAgain && reticleShownAtStart
  {
    var app := new XrApp();
    app.SessionStart();
    var work := app.Frame(true, [], false, sway);
    app.SourceResolved(true);
    work := app.Frame(true, [Some(p)], false, sway);
    app.SessionEnd();
    app.SessionStart();
    reticleShownAtStart := app.reticleVisible;
    work := app.Frame(true, [], true, sway);
    requestedAgain := work.requestIssued;
  }
}
