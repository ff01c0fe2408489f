/** The state of the AR demo (script.js) and its transitions, written as values.

    Every event the script reacts to is a function from the state before to the
    state after: `sessionstart`, `sessionend`, one call of the animation-loop
    callback, the settling of the hit-test acquisition promises, and `select`.
    The class in ar_session.dfy holds the same state in mutable fields and is
    proved to follow these functions step by step. */
module ArState {
  import opened Wrappers

  /** `isARMode`: false is the orbit (desktop) view, true an immersive session. */
  datatype Mode = Normal | Immersive

  /** The message in the info overlay; one constructor per message the script writes. */
  datatype Status =
    | CubeLoaded              // the test cube was created
    | ArActive                // a session started
    | SurfaceFound            // the reticle went from hidden to visible
    | SurfaceLost             // the reticle went from visible to hidden
    | PlacedTotal(count: nat) // a copy was placed; `count` meshes besides model, reticle and plane
    | KeepSearching           // select without a visible reticle or without a model
    | ArExited                // the session ended

  /** A 4x4 transform as the 16 numbers WebXR hands over; the script only copies it. */
  datatype Pose = Pose(matrix: seq<real>)

  /** The reticle's matrix before any hit result was copied into it. */
  const IdentityPose: Pose :=
    Pose([1.0, 0.0, 0.0, 0.0, 0.0, 1.0, 0.0, 0.0, 0.0, 0.0, 1.0, 0.0, 0.0, 0.0, 0.0, 1.0])

  datatype Vec3 = Vec3(x: real, y: real, z: real)

  const Origin: Vec3 := Vec3(0.0, 0.0, 0.0)
  /** The test cube's scale and position when the script has just run. */
  const InitialScale: real := 1.0
  const InitialPosition: Vec3 := Vec3(0.0, 0.15, 0.0)
  /** Scale of the reference model and of every copy while in AR. */
  const ArScale: real := 0.15
  /** Scale the reference model gets back when a session ends. */
  const DesktopScale: real := 0.5
  /** Growth of the idle spin about the y axis per Normal-mode frame. */
  const SpinStep: real := 0.02

  /** The reference model: the fields of it the handlers and the frame loop write.
      `material` is the identity of its material object. */
  datatype RefModel = RefModel(scale: real, position: Vec3, visible: bool, rotX: real, rotY: real, material: nat)

  /** A copy placed on a surface. Its position and rotation are those of `pose`;
      `material` is the identity of its own material and `hue` the HSL hue given to it. */
  datatype Placed = Placed(pose: Pose, scale: real, visible: bool, material: nat, hue: real)

  datatype State = State(
    mode: Mode,
    requested: bool,      // hitTestSourceRequested
    pending: bool,        // the reference-space / hit-test-source promises have not settled
    sourceReady: bool,    // hitTestSource is set
    reticleVisible: bool,
    reticleMatrix: Pose,
    model: Option<RefModel>,
    planeVisible: bool,
    backgroundShown: bool,
    placed: seq<Placed>,  // the copies added to scene.children, in order
    nextMaterial: nat,    // identity the next cloned material receives
    status: Status)

  /** Placed copies and the reference model each own a distinct material. */
  predicate OwnMaterials(s: State) {
    && (forall i :: 0 <= i < |s.placed| ==> s.placed[i].material < s.nextMaterial)
    && (forall i, j :: 0 <= i < j < |s.placed| ==> s.placed[i].material < s.placed[j].material)
    && (s.model.Some? ==>
          s.model.value.material < s.nextMaterial &&
          forall i :: 0 <= i < |s.placed| ==> s.model.value.material < s.placed[i].material)
  }

  /** What holds of every state the script can reach. */
  predicate Inv(s: State) {
    && (s.pending ==> s.requested && !s.sourceReady)
    && (s.sourceReady ==> s.requested)
    && (s.reticleVisible ==> s.sourceReady)
    && OwnMaterials(s)
    && (forall i :: 0 <= i < |s.placed| ==> s.placed[i].scale == ArScale && s.placed[i].visible)
  }

  /** The state once the script's top level has run (script.js:6-7, 104-110, 174-176). */
  function Initial(): (s: State)
    ensures Inv(s)
    ensures s.mode == Normal && !s.requested && !s.sourceReady && !s.reticleVisible && s.placed == []
    ensures s.model.Some? && s.model.value.visible
  {
    State(Normal, false, false, false, false, IdentityPose,
          Some(RefModel(InitialScale, InitialPosition, true, 0.0, 0.0, 0)),
          true, true, [], 1, CubeLoaded)
  }

  /** Hit-test acquisition, the reticle and the placed copies are the same in `s` and `r`. */
  predicate ArUntouched(s: State, r: State) {
    && r.requested == s.requested && r.pending == s.pending && r.sourceReady == s.sourceReady
    && r.reticleVisible == s.reticleVisible && r.reticleMatrix == s.reticleMatrix
    && r.placed == s.placed && r.nextMaterial == s.nextMaterial
  }

  /** The two models have the same position, rotation and material. */
  predicate SameBody(m: RefModel, n: RefModel) {
    m.position == n.position && m.rotX == n.rotX && m.rotY == n.rotY && m.material == n.material
  }

  // ---------------------------------------------------------------------------
  // Session mode

  /** `sessionstart`: enter AR, hide background and plane, shrink and hide the model. */
  function SessionStarted(s: State): (r: State)
    ensures r.mode == Immersive && !r.backgroundShown && !r.planeVisible && r.status == ArActive
    ensures r.model.Some? == s.model.Some?
    ensures s.model.Some? ==>
      r.model.value.scale == ArScale && !r.model.value.visible && SameBody(r.model.value, s.model.value)
    ensures ArUntouched(s, r)
  {
    var model := match s.model
      case None => None
      case Some(m) => Some(m.(scale := ArScale, visible := false));
    s.(mode := Immersive, backgroundShown := false, planeVisible := false, model := model, status := ArActive)
  }

  /** `sessionend`: back to the orbit view; background, plane and model restored. */
  function SessionEnded(s: State): (r: State)
    ensures r.mode == Normal && r.backgroundShown && r.planeVisible && r.status == ArExited
    ensures r.model.Some? == s.model.Some?
    ensures s.model.Some? ==>
      && r.model.value.scale == DesktopScale && r.model.value.position == Origin && r.model.value.visible
      && r.model.value.rotX == s.model.value.rotX && r.model.value.rotY == s.model.value.rotY
      && r.model.value.material == s.model.value.material
    ensures ArUntouched(s, r)
  {
    var model := match s.model
      case None => None
      case Some(m) => Some(m.(scale := DesktopScale, position := Origin, visible := true));
    s.(mode := Normal, backgroundShown := true, planeVisible := true, model := model, status := ArExited)
  }

  // ---------------------------------------------------------------------------
  // Pose source

  /** The guard of the animation loop: issue the acquisition only if it was never requested. */
  function RequestIfNeeded(s: State): (r: State)
    ensures r.requested && r.sourceReady == s.sourceReady
    ensures s.requested ==> r == s
    ensures !s.requested ==> r.pending && r.(requested := false, pending := s.pending) == s
  {
    if s.requested then s else s.(requested := true, pending := true)
  }

  /** The promise chain settles: on success `hitTestSource` is set, on failure it
      is left as it was (it is never cleared). */
  function SourceSettled(s: State, succeeded: bool): (r: State)
    requires s.pending
    ensures !r.pending && r.requested == s.requested
    ensures r.sourceReady == (s.sourceReady || succeeded)
    ensures r.(pending := true, sourceReady := s.sourceReady) == s
  {
    s.(pending := false, sourceReady := s.sourceReady || succeeded)
  }

  // ---------------------------------------------------------------------------
  // Reticle

  /** The `try` block of the frame loop, run once the source is ready. `results`
      holds, for each hit result, the pose `getPose` returns for it; `queryThrows`
      says that one of the two queries threw. */
  function Polled(s: State, results: seq<Option<Pose>>, queryThrows: bool): (r: State)
    ensures r == s.(reticleVisible := r.reticleVisible, reticleMatrix := r.reticleMatrix, status := r.status)
    ensures queryThrows || (|results| > 0 && results[0].None?) ==> r == s
    ensures !queryThrows && |results| == 0 ==> !r.reticleVisible && r.reticleMatrix == s.reticleMatrix
    ensures !queryThrows && |results| > 0 && results[0].Some? ==>
      r.reticleVisible && r.reticleMatrix == results[0].value
    ensures r.status != s.status ==> r.reticleVisible != s.reticleVisible
    ensures !s.reticleVisible && r.reticleVisible ==> r.status == SurfaceFound
    ensures s.reticleVisible && !r.reticleVisible ==> r.status == SurfaceLost
  {
    if queryThrows then s
    else if |results| == 0 then
      s.(reticleVisible := false, status := if s.reticleVisible then SurfaceLost else s.status)
    else match results[0]
      case None => s
      case Some(p) =>
        s.(reticleVisible := true, reticleMatrix := p, status := if s.reticleVisible then s.status else SurfaceFound)
  }

  // ---------------------------------------------------------------------------
  // Frame driver

  /** Which calls into collaborators one frame makes: `controls.update()`, the
      acquisition request, `frame.getHitTestResults`, and the idle animation. */
  datatype FrameWork = FrameWork(controlsUpdated: bool, requestIssued: bool, polled: bool, animated: bool)

  function FrameEffects(s: State, hasFrame: bool): (w: FrameWork)
    ensures w.controlsUpdated <==> s.mode == Normal
    ensures w.animated <==> s.mode == Normal && s.model.Some? && s.model.value.visible
    ensures w.requestIssued <==> hasFrame && s.mode == Immersive && !s.requested
    ensures w.polled <==> hasFrame && s.mode == Immersive && s.sourceReady
    ensures Inv(s) ==> !(w.requestIssued && w.polled)
  {
    var ar := hasFrame && s.mode == Immersive;
    FrameWork(s.mode == Normal, ar && !s.requested, ar && s.sourceReady,
              s.mode == Normal && s.model.Some? && s.model.value.visible)
  }

  /** One call of the animation-loop callback. `sway` is the value of
      `Math.sin(timestamp * 0.001) * 0.1` for this frame. */
  function FrameTick(s: State, hasFrame: bool, results: seq<Option<Pose>>, queryThrows: bool, sway: real): (r: State)
    ensures r.mode == s.mode && r.placed == s.placed && r.nextMaterial == s.nextMaterial
    ensures r.planeVisible == s.planeVisible && r.backgroundShown == s.backgroundShown
    ensures s.mode == Normal || !hasFrame ==> r == s.(model := r.model)
    ensures s.mode == Immersive ==> r.model == s.model
    ensures s.mode == Normal && s.model.Some? && s.model.value.visible ==>
      r.model.Some? && r.model.value.rotY == s.model.value.rotY + SpinStep && r.model.value.rotX == sway
      && r.model.value.scale == s.model.value.scale && r.model.value.position == s.model.value.position
      && r.model.value.visible && r.model.value.material == s.model.value.material
    ensures !(s.mode == Normal && s.model.Some? && s.model.value.visible) ==> r.model == s.model
    ensures r.requested == (s.requested || (hasFrame && s.mode == Immersive))
    ensures r.pending == (s.pending || (hasFrame && s.mode == Immersive && !s.requested))
    ensures r.sourceReady == s.sourceReady
    ensures !s.sourceReady ==>
      r.reticleVisible == s.reticleVisible && r.reticleMatrix == s.reticleMatrix && r.status == s.status
    ensures Inv(s) && hasFrame && s.mode == Immersive && s.sourceReady ==>
      r == Polled(s, results, queryThrows)
  {
    var w := FrameEffects(s, hasFrame);
    var a := if w.requestIssued then RequestIfNeeded(s) else s;
    var b := if w.polled then Polled(a, results, queryThrows) else a;
    if w.animated then
      b.(model := Some(b.model.value.(rotY := b.model.value.rotY + SpinStep, rotX := sway)))
    else b
  }

  // ---------------------------------------------------------------------------
  // Placement and the overlay's count

  /** A child of `scene` as the count in the `select` handler sees it. */
  datatype SceneNode = LightNode | PlaneNode | ModelNode | ReticleNode | PlacedNode(obj: Placed)

  /** The filter of the count: a mesh that is neither the model, the reticle nor the plane. */
  predicate Counted(n: SceneNode) {
    !n.LightNode? && n != ModelNode && n != ReticleNode && n != PlaneNode
  }

  function CountMeshes(ns: seq<SceneNode>): (k: nat)
    ensures k <= |ns|
  {
    if ns == [] then 0 else (if Counted(ns[0]) then 1 else 0) + CountMeshes(ns[1..])
  }

  function PlacedNodes(ps: seq<Placed>): (ns: seq<SceneNode>)
    ensures |ns| == |ps|
    ensures forall i :: 0 <= i < |ps| ==> ns[i] == PlacedNode(ps[i])
  {
    if ps == [] then [] else [PlacedNode(ps[0])] + PlacedNodes(ps[1..])
  }

  /** `scene.children` in the order the script adds them: seven lights, the
      plane, the model, the reticle, then every placed copy. */
  function SceneChildren(s: State): (ns: seq<SceneNode>)
    ensures |ns| == 9 + (if s.model.Some? then 1 else 0) + |s.placed|
  {
    [LightNode, LightNode, LightNode, LightNode, LightNode, LightNode, LightNode, PlaneNode]
      + (if s.model.Some? then [ModelNode] else []) + [ReticleNode] + PlacedNodes(s.placed)
  }

  lemma {:induction false} CountMeshesAppend(a: seq<SceneNode>, b: seq<SceneNode>)
    ensures CountMeshes(a + b) == CountMeshes(a) + CountMeshes(b)
  {
    if a != [] {
      assert (a + b)[0] == a[0] && (a + b)[1..] == a[1..] + b;
      CountMeshesAppend(a[1..], b);
    } else {
      assert a + b == b;
    }
  }

  lemma {:induction false} CountPlacedNodes(ps: seq<Placed>)
    ensures CountMeshes(PlacedNodes(ps)) == |ps|
  {
    if ps != [] {
      assert PlacedNodes(ps)[1..] == PlacedNodes(ps[1..]);
      CountPlacedNodes(ps[1..]);
    }
  }

  lemma {:induction false} NothingCounted(ns: seq<SceneNode>)
    requires forall i :: 0 <= i < |ns| ==> !Counted(ns[i])
    ensures CountMeshes(ns) == 0
  {
    if ns != [] {
      NothingCounted(ns[1..]);
    }
  }

  /** The number the overlay reports is the number of placed copies. */
  lemma DisplayedCountIsPlaced(s: State)
    ensures CountMeshes(SceneChildren(s)) == |s.placed|
  {
    var base := [LightNode, LightNode, LightNode, LightNode, LightNode, LightNode, LightNode, PlaneNode]
      + (if s.model.Some? then [ModelNode] else []) + [ReticleNode];
    assert SceneChildren(s) == base + PlacedNodes(s.placed);
    CountMeshesAppend(base, PlacedNodes(s.placed));
    NothingCounted(base);
    CountPlacedNodes(s.placed);
  }

  /** The `select` handler may place a copy. */
  predicate CanPlace(s: State) {
    s.reticleVisible && s.model.Some?
  }

  /** The `select` handler. `hue` is the `Math.random()` value of this call. */
  function Selected(s: State, hue: real): (r: State)
    ensures !CanPlace(s) ==> r == s.(status := KeepSearching)
    ensures CanPlace(s) ==>
      && |r.placed| == |s.placed| + 1 && r.placed[..|s.placed|] == s.placed
      && r.placed[|s.placed|].pose == s.reticleMatrix && r.placed[|s.placed|].scale == ArScale
      && r.placed[|s.placed|].visible && r.placed[|s.placed|].hue == hue
      && r.status == PlacedTotal(|s.placed| + 1)
      && r.(placed := s.placed, nextMaterial := s.nextMaterial, status := s.status) == s
    ensures CanPlace(s) && Inv(s) ==>
      && r.placed[|s.placed|].material != r.model.value.material
      && forall i :: 0 <= i < |s.placed| ==> r.placed[|s.placed|].material != s.placed[i].material
    ensures Inv(s) ==> Inv(r)
  {
    if CanPlace(s) then
      var copy := Placed(s.reticleMatrix, ArScale, true, s.nextMaterial, hue);
      var added := s.(placed := s.placed + [copy], nextMaterial := s.nextMaterial + 1);
      DisplayedCountIsPlaced(added);
      added.(status := PlacedTotal(CountMeshes(SceneChildren(added))))
    else
      s.(status := KeepSearching)
  }
}
