/** The per-object effects (src/components/SimulationEffects.js): the choice of
    effect from a simulation entry, the markup of the arc-reactor blast, and
    the per-frame updates that `useFrame` runs on the three.js objects.

    The frame clock (`state.clock.getElapsedTime()`) is the parameter `time`.
    `Math.sin` and `Math.cos` are the parameters `sin` and `cos`, left
    uninterpreted; where a bound is proved, the requires states the only
    fact used about them, that their values lie in [-1, 1]. */
module SimulationEffects {
  import opened SceneJson

  // ---------------------------------------------------------------------------
  // Choosing the effect

  /** A simulation entry: its `type` and its `active` flag. */
  datatype Simulation = Simulation(kind: string, active: bool)

  /** The effect component `SimulationManager` renders, with its props. */
  datatype Effect =
    | ArcReactorBlast(position: Vec3, active: bool)
    | HoverAnimation(active: bool, speed: real)
    | RotationAnimation(active: bool, speed: real)

  /** The `speed` default of `HoverAnimation` and `RotationAnimation`. */
  const DefaultSpeed: real := 1.0

  /** `SimulationManager`: nothing without an active simulation; otherwise the
      effect named by its type, or nothing for an unknown type. The manager
      passes no `speed`, so hover and rotation run at the default speed. */
  function SimulationManager(simulation: Option<Simulation>, objectPosition: Vec3): (e: Option<Effect>)
    ensures e.Some? ==> e.value.active
  {
    if simulation == None || !simulation.value.active then None
    else if simulation.value.kind == "arc_reactor_blast" then Some(ArcReactorBlast(objectPosition, true))
    else if simulation.value.kind == "hover" then Some(HoverAnimation(true, DefaultSpeed))
    else if simulation.value.kind == "rotate" then Some(RotationAnimation(true, DefaultSpeed))
    else None
  }

  /** The three effect types the manager knows. */
  predicate KnownEffect(kind: string) {
    kind == "arc_reactor_blast" || kind == "hover" || kind == "rotate"
  }

  /** There is an effect exactly when the simulation is present, active and of
      a known type; the effect matches the type, is itself active (so its own
      `active` guard never stops it), sits at the object's position for the
      blast, and runs at speed 1 for hover and rotation. */
  lemma ManagerDispatch(simulation: Option<Simulation>, objectPosition: Vec3)
    ensures SimulationManager(simulation, objectPosition).Some?
            <==> simulation.Some? && simulation.value.active && KnownEffect(simulation.value.kind)
    ensures match SimulationManager(simulation, objectPosition)
            case None => true
            case Some(e) =>
              && e.active
              && (e.ArcReactorBlast? <==> simulation.value.kind == "arc_reactor_blast")
              && (e.HoverAnimation? <==> simulation.value.kind == "hover")
              && (e.RotationAnimation? <==> simulation.value.kind == "rotate")
              && (e.ArcReactorBlast? ==> e.position == objectPosition)
              && (!e.ArcReactorBlast? ==> e.speed == 1.0)
  {
  }

  // ---------------------------------------------------------------------------
  // The blast's markup

  /** A `meshStandardMaterial` with an emissive colour. */
  datatype Glow = Glow(color: string, emissive: string, emissiveIntensity: real, transparent: bool, opacity: real)

  datatype Mesh =
    | SphereMesh(radius: real, widthSegments: nat, heightSegments: nat, material: Glow)
    | CylinderMesh(radiusTop: real, radiusBottom: real, height: real, radialSegments: nat, material: Glow)

  /** The blast's group: the pulsing core, the particle group, the beam. */
  datatype BlastAssembly = BlastAssembly(position: Vec3, core: Mesh, particles: seq<Mesh>, beam: Mesh)

  /** The number of particles the blast renders. */
  const ParticleCount: nat := 12

  /** The markup of `ArcReactorBlast`: nothing while inactive. */
  function BlastView(position: Vec3, active: bool): (b: Option<BlastAssembly>)
    ensures b.Some? <==> active
    ensures b.Some? ==> |b.value.particles| == ParticleCount
  {
    if !active then None
    else
      var core := SphereMesh(0.3, 16, 16, Glow("#00ffff", "#00ffff", 3.0, true, 0.8));
      var particle := SphereMesh(0.05, 8, 8, Glow("#00ffff", "#00ffff", 2.0, false, 1.0));
      var beam := CylinderMesh(0.1, 0.3, 3.0, 8, Glow("#00ffff", "#00ffff", 2.0, true, 0.6));
      Some(BlastAssembly(position, core, seq(ParticleCount, _ => particle), beam))
  }

  /** An inactive blast renders nothing; an active one renders, at the
      object's position, one core sphere, exactly twelve identical particle
      spheres and one beam cylinder. */
  lemma BlastViewShape(position: Vec3, active: bool)
    ensures BlastView(position, active).None? <==> !active
    ensures active ==>
              var b := BlastView(position, active).value;
              && b.position == position
              && b.core.SphereMesh? && b.beam.CylinderMesh?
              && |b.particles| == 12
              && forall i :: 0 <= i < |b.particles| ==> b.particles[i] == b.particles[0] && b.particles[i].SphereMesh?
  {
  }

  // ---------------------------------------------------------------------------
  // The objects the frame callbacks update

  /** A three.js object as far as the effects touch it: its position, its
      Euler rotation, its scale vector and its material's emissive intensity. */
  class Object3D {
    var position: Vec3
    var rotation: Vec3
    var scale: Vec3
    var emissiveIntensity: real
  }

  /** The blast's particle group: its own rotation and its child meshes. */
  class ParticleGroup {
    var rotation: Vec3
    const children: seq<Object3D>

    /** Each child is a distinct mesh. */
    ghost predicate Distinct()
      reads this
    {
      forall a, b :: 0 <= a < b < |children| ==> children[a] != children[b]
    }
  }

  /** `Math.PI`: the double nearest to pi, as an exact rational. */
  const Pi: real := 884279719003555.0 / 281474976710656.0

  /** Particle `i`'s base angle on a ring of `n` particles: `(i / n) * PI * 2`. */
  function ParticleAngle(i: nat, n: nat): real
    requires n > 0
  {
    (i as real / n as real) * Pi * 2.0
  }

  /** Where particle `i` of `n` is put at time `time`. */
  function ParticlePosition(i: nat, n: nat, time: real, sin: real -> real, cos: real -> real): Vec3
    requires n > 0
  {
    var angle := ParticleAngle(i, n);
    var radius := 0.5 + sin(time * 2.0 + i as real) * 0.2;
    Vec3(cos(angle + time) * radius, sin(time * 3.0 + i as real) * 0.3, sin(angle + time) * radius)
  }

  /** The core's uniform scale at time `time`. */
  function CorePulse(time: real, sin: real -> real): real {
    1.0 + sin(time * 5.0) * 0.3
  }

  /** The core's emissive intensity at time `time`. */
  function CoreGlow(time: real, sin: real -> real): real {
    3.0 + sin(time * 8.0) * 2.0
  }

  /** The particle group's yaw step per frame. */
  const BlastSpin: real := 0.02

  /** The `useFrame` callback of `ArcReactorBlast`: `mesh` and `particles` are
      the `current` of its two refs (`null` before mount). Inactive, or
      without the core mesh, it returns at once. Otherwise it sets the core's
      scale and glow from the clock, turns the particle group by 0.02 and
      puts each particle on its ring. */
  method BlastFrame(active: bool, mesh: Object3D?, particles: ParticleGroup?, time: real,
                    sin: real -> real, cos: real -> real)
    requires particles != null ==> particles.Distinct() && mesh !in particles.children
    modifies mesh, particles, if particles == null then {} else set p | p in particles.children
    ensures !active || mesh == null ==>
              (mesh != null ==> unchanged(mesh))
              && (particles != null ==> unchanged(particles) && unchanged(set p | p in particles.children))
    ensures active && mesh != null ==>
              && mesh.scale == Vec3(CorePulse(time, sin), CorePulse(time, sin), CorePulse(time, sin))
              && mesh.emissiveIntensity == CoreGlow(time, sin)
              && mesh.position == old(mesh.position) && mesh.rotation == old(mesh.rotation)
    ensures active && mesh != null && particles != null ==>
              && particles.rotation == old(particles.rotation).(y := old(particles.rotation.y) + BlastSpin)
              && forall i :: 0 <= i < |particles.children| ==>
                   && particles.children[i].position
                      == ParticlePosition(i, |particles.children|, time, sin, cos)
                   && particles.children[i].rotation == old(particles.children[i].rotation)
                   && particles.children[i].scale == old(particles.children[i].scale)
                   && particles.children[i].emissiveIntensity == old(particles.children[i].emissiveIntensity)
  {
    if !active || mesh == null {
      return;
    }
    var pulse := CorePulse(time, sin);
    mesh.scale := Vec3(pulse, pulse, pulse);
    mesh.emissiveIntensity := CoreGlow(time, sin);
    if particles != null {
      particles.rotation := particles.rotation.(y := particles.rotation.y + BlastSpin);
      PlaceParticles(particles.children, time, sin, cos);
    }
  }

  /** The `forEach` over the particle group's children: particle `i` of `n`
      gets its position on the ring, each coordinate written in turn; nothing
      else of any particle changes. */
  method PlaceParticles(children: seq<Object3D>, time: real, sin: real -> real, cos: real -> real)
    requires forall a, b :: 0 <= a < b < |children| ==> children[a] != children[b]
    modifies set p | p in children
    ensures forall i :: 0 <= i < |children| ==>
              && children[i].position == ParticlePosition(i, |children|, time, sin, cos)
              && children[i].rotation == old(children[i].rotation)
              && children[i].scale == old(children[i].scale)
              && children[i].emissiveIntensity == old(children[i].emissiveIntensity)
  {
    var n := |children|;
    var i := 0;
    while i < n
      invariant 0 <= i <= n
      invariant forall j :: 0 <= j < i ==> children[j].position == ParticlePosition(j, n, time, sin, cos)
      invariant forall j :: 0 <= j < n ==>
                  && children[j].rotation == old(children[j].rotation)
                  && children[j].scale == old(children[j].scale)
                  && children[j].emissiveIntensity == old(children[j].emissiveIntensity)
    {
      var particle := children[i];
      var angle := ParticleAngle(i, n);
      var radius := 0.5 + sin(time * 2.0 + i as real) * 0.2;
      var position := particle.position;
      position := position.(x := cos(angle + time) * radius);
      position := position.(z := sin(angle + time) * radius);
      position := position.(y := sin(time * 3.0 + i as real) * 0.3);
      assert position == ParticlePosition(i, n, time, sin, cos);
      assert forall j :: 0 <= j < n && j != i ==> children[j] != particle;
      particle.position := position;
      i := i + 1;
    }
  }

  /** The hover step per frame at time `time`. */
  function HoverOffset(time: real, speed: real, sin: real -> real): real {
    sin(time * speed * 2.0) * 0.001
  }

  /** The `useFrame` callback of `HoverAnimation`: `target` is
      `objectRef.current`. Inactive, or without a target, it returns at once;
      otherwise it nudges only the target's `position.y`. */
  method HoverFrame(active: bool, target: Object3D?, speed: real, time: real, sin: real -> real)
    modifies target
    ensures !active || target == null ==> target != null ==> unchanged(target)
    ensures active && target != null ==>
              && target.position == old(target.position).(y := old(target.position.y) + HoverOffset(time, speed, sin))
              && target.rotation == old(target.rotation) && target.scale == old(target.scale)
              && target.emissiveIntensity == old(target.emissiveIntensity)
  {
    if !active || target == null {
      return;
    }
    target.position := target.position.(y := target.position.y + sin(time * speed * 2.0) * 0.001);
  }

  /** The yaw step per frame of `RotationAnimation`. */
  function RotationStep(speed: real): real {
    0.01 * speed
  }

  /** The `useFrame` callback of `RotationAnimation`. Inactive, or without a
      target, it returns at once; otherwise it adds `0.01 * speed` to the
      target's `rotation.y` and changes nothing else. */
  method RotationFrame(active: bool, target: Object3D?, speed: real)
    modifies target
    ensures !active || target == null ==> target != null ==> unchanged(target)
    ensures active && target != null ==>
              && target.rotation == old(target.rotation).(y := old(target.rotation.y) + RotationStep(speed))
              && target.position == old(target.position) && target.scale == old(target.scale)
              && target.emissiveIntensity == old(target.emissiveIntensity)
  {
    if !active || target == null {
      return;
    }
    target.rotation := target.rotation.(y := target.rotation.y + 0.01 * speed);
  }

  // ---------------------------------------------------------------------------
  // Many frames

  /** A value after `n` frames that each add `step` to it. */
  function AfterFrames(start: real, step: real, n: nat): real {
    if n == 0 then start else AfterFrames(start, step, n - 1) + step
  }

  /** `n` frames of a fixed step add `n` times the step: `n` rotate frames add
      `n * 0.01 * speed` to the yaw, `n` active blast frames add `n * 0.02` to
      the particle group's yaw. The yaw is never clamped or wrapped. */
  lemma {:induction false} AfterFramesLinear(start: real, step: real, n: nat)
    ensures AfterFrames(start, step, n) == start + n as real * step
  {
    if n > 0 {
      AfterFramesLinear(start, step, n - 1);
      assert (n - 1) as real * step + step == n as real * step;
    }
  }

  /** `n` frames of an active `RotationAnimation` at speed `speed`: the yaw
      grows by `n * 0.01 * speed`, unclamped and unwrapped, and nothing else
      of the target changes. */
  method RotateFrames(target: Object3D, speed: real, n: nat)
    modifies target
    ensures target.rotation == old(target.rotation).(y := old(target.rotation.y) + n as real * 0.01 * speed)
    ensures target.position == old(target.position) && target.scale == old(target.scale)
    ensures target.emissiveIntensity == old(target.emissiveIntensity)
  {
    var i := 0;
    while i < n
      invariant 0 <= i <= n
      invariant target.rotation == old(target.rotation).(y := AfterFrames(old(target.rotation.y), RotationStep(speed), i))
      invariant target.position == old(target.position) && target.scale == old(target.scale)
      invariant target.emissiveIntensity == old(target.emissiveIntensity)
    {
      RotationFrame(true, target, speed);
      i := i + 1;
    }
    AfterFramesLinear(old(target.rotation.y), RotationStep(speed), n);
  }

  /** One frame of an active, mounted `ArcReactorBlast` at each of the clock
      readings `times`: the particle group's yaw grows by `0.02` per frame,
      its other angles and the core's position and rotation stay put. */
  method BlastFrames(mesh: Object3D, particles: ParticleGroup, times: seq<real>,
                     sin: real -> real, cos: real -> real)
    requires particles.Distinct() && mesh !in particles.children
    modifies mesh, particles, set p | p in particles.children
    ensures particles.rotation
            == old(particles.rotation).(y := old(particles.rotation.y) + |times| as real * 0.02)
    ensures mesh.position == old(mesh.position) && mesh.rotation == old(mesh.rotation)
  {
    var i := 0;
    while i < |times|
      invariant 0 <= i <= |times|
      invariant particles.rotation
                == old(particles.rotation).(y := AfterFrames(old(particles.rotation.y), BlastSpin, i))
      invariant mesh.position == old(mesh.position) && mesh.rotation == old(mesh.rotation)
    {
      BlastFrame(true, mesh, particles, times[i], sin, cos);
      i := i + 1;
    }
    AfterFramesLinear(old(particles.rotation.y), BlastSpin, |times|);
  }

  /** The height after one hover frame at each of the clock readings `times`. */
  function HoverAfter(y: real, speed: real, times: seq<real>, sin: real -> real): real {
    if times == [] then y
    else HoverAfter(y, speed, times[..|times| - 1], sin) + HoverOffset(times[|times| - 1], speed, sin)
  }

  /** Each hover frame moves the object by at most 0.001, so `n` frames move
      it by at most `n * 0.001` from where it started. */
  lemma {:induction false} HoverDriftBounded(y: real, speed: real, times: seq<real>, sin: real -> real)
    requires forall v :: -1.0 <= sin(v) <= 1.0
    ensures y - |times| as real * 0.001 <= HoverAfter(y, speed, times, sin) <= y + |times| as real * 0.001
  {
    if times != [] {
      HoverDriftBounded(y, speed, times[..|times| - 1], sin);
      var t := times[|times| - 1];
      assert -1.0 <= sin(t * speed * 2.0) <= 1.0;
    }
  }

  /** One frame of an active `HoverAnimation` at each of the clock readings
      `times`: the height ends at `HoverAfter` of those readings, so within
      `|times| * 0.001` of where it started by `HoverDriftBounded`; nothing
      else of the target changes. */
  method HoverFrames(target: Object3D, speed: real, times: seq<real>, sin: real -> real)
    modifies target
    ensures target.position == old(target.position).(y := HoverAfter(old(target.position.y), speed, times, sin))
    ensures target.rotation == old(target.rotation) && target.scale == old(target.scale)
    ensures target.emissiveIntensity == old(target.emissiveIntensity)
  {
    var i := 0;
    while i < |times|
      invariant 0 <= i <= |times|
      invariant target.position == old(target.position).(y := HoverAfter(old(target.position.y), speed, times[..i], sin))
      invariant target.rotation == old(target.rotation) && target.scale == old(target.scale)
      invariant target.emissiveIntensity == old(target.emissiveIntensity)
    {
      HoverFrame(true, target, speed, times[i], sin);
      assert times[..i + 1][..i] == times[..i];
      i := i + 1;
    }
    assert times[..|times|] == times;
  }

  /** The core pulses between 0.7 and 1.3 times its size and glows with an
      intensity between 1 and 5. */
  lemma CorePulseBounded(time: real, sin: real -> real)
    requires forall v :: -1.0 <= sin(v) <= 1.0
    ensures 0.7 <= CorePulse(time, sin) <= 1.3
    ensures 1.0 <= CoreGlow(time, sin) <= 5.0
  {
    assert -1.0 <= sin(time * 5.0) <= 1.0;
    assert -1.0 <= sin(time * 8.0) <= 1.0;
  }

  /** On the rendered ring of twelve, particle `i` starts at angle
      `i * PI / 6`, in `[0, 2 PI)`. */
  lemma ParticleAngleClosedForm(i: nat)
    requires i < ParticleCount
    ensures ParticleAngle(i, ParticleCount) == i as real * Pi / 6.0
    ensures 0.0 <= ParticleAngle(i, ParticleCount) < 2.0 * Pi
  {
  }

  /** On the rendered ring of twelve, particle `i` starts at angle
      `i * PI / 6`: the base angles are evenly spaced, lie in `[0, 2 PI)`, and
      so are pairwise distinct. */
  lemma ParticleAnglesEvenlySpaced(i: nat, j: nat)
    requires i < j < ParticleCount
    ensures ParticleAngle(i, ParticleCount) == i as real * Pi / 6.0
    ensures 0.0 <= ParticleAngle(i, ParticleCount) < ParticleAngle(j, ParticleCount) < 2.0 * Pi
  {
  }
}
