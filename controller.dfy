/** The SimpleTest controller: it turns input events and held keys into a
    run flag, an exit status and three velocities, and integrates those
    velocities into its own shadow parameters, which it pushes into the
    Mode7 renderer.  Event polling and key-state queries become inputs. */
module Controller {
  import opened Renderer

  const RotationSpeed: real := 100.0
  const PerspectiveSpeed: real := 0.35
  const ZoomSpeed: real := 2.0

  datatype Key = Escape | OtherKey(code: int)

  /** The events `handle_input` distinguishes; anything else is `Other`. */
  datatype Event = Quit | KeyDown(key: Key) | VideoResize(w: int, h: int) | Other

  /** Held state of the six movement keys. */
  datatype Pressed = Pressed(up: bool, down: bool, left: bool, right: bool, z: bool, x: bool)

  /** What the event loop of `handle_input` updates. */
  datatype Flags = Flags(running: bool, exitStatus: int, dirty: bool)

  predicate IsQuitRequest(e: Event) {
    e.Quit? || (e.KeyDown? && e.key == Escape)
  }

  /** One event of the loop. */
  function ApplyEvent(f: Flags, e: Event): (g: Flags) {
    match e
    case Quit => f.(exitStatus := 0, running := false)
    case KeyDown(k) => if k == Escape then f.(exitStatus := 0, running := false) else f
    case VideoResize(_, _) => f.(dirty := true)
    case Other => f
  }

  /** The event loop over a whole batch, in order. */
  function ApplyEvents(f: Flags, events: seq<Event>): (g: Flags) {
    if events == [] then f
    else ApplyEvent(ApplyEvents(f, events[..|events| - 1]), events[|events| - 1])
  }

  /** After a batch, the program has stopped iff it had stopped already or
      the batch held a quit request; the exit status is 0 after a quit
      request and unchanged otherwise; a redraw is pending iff it was
      pending already or the batch held a resize. */
  lemma {:induction false} ApplyEventsMeaning(f: Flags, events: seq<Event>)
    ensures ApplyEvents(f, events).running
            == (f.running && forall i :: 0 <= i < |events| ==> !IsQuitRequest(events[i]))
    ensures ApplyEvents(f, events).exitStatus
            == if exists i :: 0 <= i < |events| && IsQuitRequest(events[i]) then 0 else f.exitStatus
    ensures ApplyEvents(f, events).dirty
            == (f.dirty || exists i :: 0 <= i < |events| && events[i].VideoResize?)
  {
    if events != [] {
      var n := |events| - 1;
      var front := events[..n];
      ApplyEventsMeaning(f, front);
      assert forall i :: 0 <= i < n ==> front[i] == events[i];
      if exists i :: 0 <= i < n && IsQuitRequest(front[i]) {
        var i :| 0 <= i < n && IsQuitRequest(front[i]);
        assert IsQuitRequest(events[i]);
      }
      if exists i :: 0 <= i < n && front[i].VideoResize? {
        var i :| 0 <= i < n && front[i].VideoResize?;
        assert events[i].VideoResize?;
      }
    }
  }

  /** The velocity for one key pair: `speed` while the first key is held,
      `-speed` while only the second is, 0 while neither is.  The first key
      wins when both are held. */
  function PairVelocity(first: bool, second: bool, speed: real): (v: real)
    ensures v == speed || v == -speed || v == 0.0
    ensures speed != 0.0 ==> (v == speed <==> first)
    ensures speed != 0.0 ==> (v == -speed <==> !first && second)
    ensures v == 0.0 <==> speed == 0.0 || (!first && !second)
  {
    if first then speed else if second then -speed else 0.0
  }

  /** The three velocities, each one of -S, 0 and +S for its speed S.  Up
      beats down, left beats right and z beats x. */
  lemma VelocitiesFromKeys(k: Pressed)
    ensures var pv := PairVelocity(k.up, k.down, -PerspectiveSpeed);
            (k.up ==> pv == -PerspectiveSpeed) && (!k.up && k.down ==> pv == PerspectiveSpeed)
            && (!k.up && !k.down ==> pv == 0.0)
    ensures var rv := PairVelocity(k.left, k.right, RotationSpeed);
            (k.left ==> rv == RotationSpeed) && (!k.left && k.right ==> rv == -RotationSpeed)
            && (!k.left && !k.right ==> rv == 0.0)
    ensures var zv := PairVelocity(k.z, k.x, ZoomSpeed);
            (k.z ==> zv == ZoomSpeed) && (!k.z && k.x ==> zv == -ZoomSpeed)
            && (!k.z && !k.x ==> zv == 0.0)
  {
  }

  /** The controller's own accumulators and velocities. */
  datatype Shadow = Shadow(r: real, p: real, z: real, rVelocity: real, pVelocity: real, zVelocity: real)

  /** What one `update(dt)` leaves behind: the controller's shadow state,
      the renderer's state and whether the zoom setter raised. */
  datatype Tick = Tick(shadow: Shadow, renderer: Params, outcome: Outcome)

  /** `update(dt)` on values.  Perspective is accept-or-freeze; rotation is
      pushed and z and r advance before the unguarded zoom setter may raise. */
  function Step(sh: Shadow, rend: Params, dt: real): (t: Tick)
    ensures var p := sh.p + sh.pVelocity * dt;
            t.shadow.p == (if 0.0 < p < 1.0 then p else sh.p)
            && t.renderer.perspective == (if 0.0 < p < 1.0 then p else rend.perspective)
    ensures t.shadow.z == sh.z + sh.zVelocity * dt && t.shadow.r == sh.r + sh.rVelocity * dt
    ensures t.shadow.rVelocity == sh.rVelocity && t.shadow.pVelocity == sh.pVelocity
            && t.shadow.zVelocity == sh.zVelocity
    ensures t.outcome == Pass <==> t.shadow.z > 0.0
    ensures t.outcome != Pass ==> t.outcome == Raised(ValueError)
    ensures t.renderer.zoom == if t.shadow.z > 0.0 then t.shadow.z else rend.zoom
    ensures 0.0 <= rend.rotation < 360.0 ==> t.renderer.rotation == Normalize(t.shadow.r)
  {
    var p := sh.p + sh.pVelocity * dt;
    var (p', afterP) := match WritePerspective(rend, p)
                        case Ok(s) => (p, s)
                        case Err(_) => (sh.p, rend);
    var sh' := sh.(p := p', z := sh.z + sh.zVelocity * dt, r := sh.r + sh.rVelocity * dt);
    var afterR := WriteRotation(afterP, sh'.r);
    match WriteZoom(afterR, sh'.z)
    case Ok(s) => Tick(sh', s, Pass)
    case Err(e) => Tick(sh', afterR, Raised(e))
  }

  /** An update keeps the renderer's parameters in range and its dirty flag
      set, whether or not the zoom setter raised. */
  lemma StepKeepsRenderer(sh: Shadow, rend: Params, dt: real)
    requires InRange(rend) && rend.dirty
    ensures InRange(Step(sh, rend, dt).renderer) && Step(sh, rend, dt).renderer.dirty
  {
  }

  /** Starting at p = 0.5 with the perspective velocity of a held up key,
      one second gives the candidate 0.15, which is accepted. */
  lemma StepPerspectiveAccepted(sh: Shadow, rend: Params)
    requires sh.p == 0.5 && sh.pVelocity == -PerspectiveSpeed
    ensures Step(sh, rend, 1.0).shadow.p == 0.15
    ensures Step(sh, rend, 1.0).renderer.perspective == 0.15
  {
  }

  /** Two seconds give the candidate -0.2, which is rejected: p stays 0.5
      and the renderer's perspective is unchanged. */
  lemma StepPerspectiveRejected(sh: Shadow, rend: Params)
    requires sh.p == 0.5 && sh.pVelocity == -PerspectiveSpeed
    ensures Step(sh, rend, 2.0).shadow.p == 0.5
    ensures Step(sh, rend, 2.0).renderer.perspective == rend.perspective
  {
  }

  /** Zooming out from z = 1 for half a second reaches z = 0: the zoom
      setter raises, yet z has advanced and rotation has been pushed. */
  lemma StepZoomUnderflow(sh: Shadow, rend: Params)
    requires sh.z == 1.0 && sh.zVelocity == -ZoomSpeed && sh.rVelocity == RotationSpeed
    requires 0.0 <= rend.rotation < 360.0 && sh.r == 0.0
    ensures Step(sh, rend, 0.5).outcome == Raised(ValueError)
    ensures Step(sh, rend, 0.5).shadow.z == 0.0
    ensures Step(sh, rend, 0.5).renderer.zoom == rend.zoom
    ensures Step(sh, rend, 0.5).renderer.rotation == 50.0
  {
  }

  class SimpleTest {
    var running: bool
    var dirty: bool
    var exitStatus: int
    const renderer: Mode7
    var r: real
    var p: real
    var z: real
    var rVelocity: real
    var pVelocity: real
    var zVelocity: real

    /** The renderer is valid, and the shadow perspective stays in the range
        the renderer's setter accepts: it starts at 0.5 and only ever takes a
        value the setter accepted. */
    ghost predicate Valid()
      reads this, renderer
    {
      renderer.Valid() && 0.0 < p < 1.0
    }

    function CurrentFlags(): (f: Flags)
      reads this
    {
      Flags(running, exitStatus, dirty)
    }

    function CurrentShadow(): (sh: Shadow)
      reads this
    {
      Shadow(r, p, z, rVelocity, pVelocity, zVelocity)
    }

    /** Loading the image file is replaced by the renderer's inputs. */
    constructor (original: Size, rotozoom: (Size, real, real) -> Size)
      ensures Valid() && fresh(renderer)
      ensures renderer.original == original && renderer.rotozoom == rotozoom
      ensures renderer.State() == Initial && renderer.image == None
      ensures CurrentFlags() == Flags(false, 0, false)
      ensures CurrentShadow() == Shadow(0.0, 0.5, 1.0, 0.0, 0.0, 0.0)
    {
      running := false;
      dirty := false;
      exitStatus := 0;
      renderer := new Mode7(original, rotozoom);
      r := 0.0;
      p := 0.5;
      z := 1.0;
      rVelocity := 0.0;
      pVelocity := 0.0;
      zVelocity := 0.0;
    }

    /** `handle_input` with the polled events and the held keys as inputs. */
    method HandleInput(events: seq<Event>, keys: Pressed)
      modifies this`running, this`exitStatus, this`dirty,
               this`pVelocity, this`rVelocity, this`zVelocity
      ensures CurrentFlags() == ApplyEvents(old(CurrentFlags()), events)
      ensures pVelocity == PairVelocity(keys.up, keys.down, -PerspectiveSpeed)
      ensures rVelocity == PairVelocity(keys.left, keys.right, RotationSpeed)
      ensures zVelocity == PairVelocity(keys.z, keys.x, ZoomSpeed)
    {
      var i := 0;
      while i < |events|
        invariant 0 <= i <= |events|
        invariant CurrentFlags() == ApplyEvents(old(CurrentFlags()), events[..i])
      {
        assert events[..i + 1][..i] == events[..i];
        match events[i] {
          case Quit =>
            exitStatus := 0;
            running := false;
          case KeyDown(k) =>
            if k == Escape {
              exitStatus := 0;
              running := false;
            }
          case VideoResize(_, _) =>
            dirty := true;
          case Other =>
        }
        i := i + 1;
      }
      assert events[..i] == events;

      if keys.up {
        pVelocity := -PerspectiveSpeed;
      } else if keys.down {
        pVelocity := PerspectiveSpeed;
      } else {
        pVelocity := 0.0;
      }

      if keys.left {
        rVelocity := RotationSpeed;
      } else if keys.right {
        rVelocity := -RotationSpeed;
      } else {
        rVelocity := 0.0;
      }

      if keys.z {
        zVelocity := ZoomSpeed;
      } else if keys.x {
        zVelocity := -ZoomSpeed;
      } else {
        zVelocity := 0.0;
      }
    }

    /** `update(dt)`.  A `Raised` outcome is the ValueError that the zoom
        setter lets escape. */
    method Update(dt: real) returns (outcome: Outcome)
      requires Valid()
      modifies this`p, this`z, this`r,
               renderer`zoom, renderer`perspective, renderer`rotation, renderer`dirty
      ensures Valid()
      ensures Tick(CurrentShadow(), renderer.State(), outcome) == Step(old(CurrentShadow()), old(renderer.State()), dt)
    {
      var candidate := p + pVelocity * dt;
      var accepted := renderer.SetPerspective(candidate);
      if accepted == Pass {
        p := candidate;
      }
      ghost var afterP := renderer.State();
      assert afterP == match WritePerspective(old(renderer.State()), candidate)
                       case Ok(s) => s
                       case Err(_) => old(renderer.State());

      z := z + zVelocity * dt;
      r := r + rVelocity * dt;
      renderer.SetRotation(r);
      ghost var afterR := renderer.State();
      assert afterR == WriteRotation(afterP, r);
      outcome := renderer.SetZoom(z);
      assert renderer.State() == match WriteZoom(afterR, z)
                                 case Ok(s) => s
                                 case Err(_) => afterR;
      assert CurrentShadow() == Step(old(CurrentShadow()), old(renderer.State()), dt).shadow;
    }
  }
}
