/**
 * The ambient fog backdrop: a fixed pool of drifting particles, each
 * reset in place when its life runs out or it drifts past a horizontal
 * slack around the canvas.
 *
 * Particle state is exact `real` arithmetic; the canvas size is a pair
 * of naturals (a canvas's width and height are whole pixels), and every
 * uniform random draw is an input in [0, 1).
 */
module Fog {

  /** Horizontal distance past either canvas edge a particle may drift before it is reset. */
  const Slack: real := 200.0

  /** Number of particles pushed into the pool when the fog starts. */
  const PoolSize: nat := 30

  /** The seven uniform draws one reset consumes, in the order the reset reads them. */
  datatype Draws = Draws(x: real, y: real, vx: real, vy: real, size: real, alpha: real, life: real)

  predicate Unit(r: real) { 0.0 <= r < 1.0 }

  predicate ValidDraws(d: Draws) {
    Unit(d.x) && Unit(d.y) && Unit(d.vx) && Unit(d.vy) && Unit(d.size) && Unit(d.alpha) && Unit(d.life)
  }

  predicate AllValidDraws(ds: seq<Draws>) {
    forall i :: 0 <= i < |ds| ==> ValidDraws(ds[i])
  }

  /** The value of one particle: position, velocity, radius, peak opacity and remaining life. */
  datatype ParticleState = ParticleState(x: real, y: real, vx: real, vy: real, size: real, alpha: real, life: real)

  /** The state `reset` assigns, scaled from the draws into each field's range. */
  function Respawn(d: Draws, width: nat, height: nat): ParticleState {
    ParticleState(
      d.x * width as real,
      d.y * height as real,
      (d.vx - 0.5) * 0.5,
      (d.vy - 0.5) * 0.2,
      d.size * 200.0 + 50.0,
      d.alpha * 0.05,
      d.life * 1000.0)
  }

  /** The first half of `update`: move by the velocity and spend one unit of life. */
  function Advance(p: ParticleState): ParticleState {
    p.(x := p.x + p.vx, y := p.y + p.vy, life := p.life - 1.0)
  }

  /** The reset guard of `update`; the vertical position plays no part in it. */
  predicate Expired(p: ParticleState, width: nat) {
    p.life <= 0.0 || p.x < -Slack || p.x > width as real + Slack
  }

  /** One call of `update`: advance, then reset from `d` if the guard holds. */
  function Step(p: ParticleState, d: Draws, width: nat, height: nat): ParticleState {
    var m := Advance(p);
    if Expired(m, width) then Respawn(d, width, height) else m
  }

  /** The ranges of the fields that only a reset assigns, plus the life range. */
  predicate Settled(p: ParticleState) {
    -0.25 <= p.vx < 0.25 && -0.1 <= p.vy < 0.1 &&
    50.0 <= p.size < 250.0 && 0.0 <= p.alpha < 0.05 &&
    0.0 <= p.life < 1000.0
  }

  predicate WithinSlack(p: ParticleState, width: nat) {
    -Slack <= p.x <= width as real + Slack
  }

  predicate AllSettled(ps: seq<ParticleState>) {
    forall i :: 0 <= i < |ps| ==> Settled(ps[i])
  }

  predicate AllWithinSlack(ps: seq<ParticleState>, width: nat) {
    forall i :: 0 <= i < |ps| ==> WithinSlack(ps[i], width)
  }

  /** A draw in [0, 1) scaled by a canvas dimension lands on the canvas. */
  lemma ScaledUnit(r: real, n: nat)
    requires Unit(r)
    ensures 0.0 <= r * n as real <= n as real
    ensures 0 < n ==> r * n as real < n as real
  {
    var w := n as real;
    assert r * w <= 1.0 * w;
    assert w - r * w == (1.0 - r) * w;
  }

  /** Each field `reset` assigns lies in its range when every draw lies in [0, 1). */
  lemma RespawnInRange(d: Draws, width: nat, height: nat)
    requires ValidDraws(d)
    ensures var p := Respawn(d, width, height);
      0.0 <= p.x <= width as real && (0 < width ==> p.x < width as real) &&
      0.0 <= p.y <= height as real && (0 < height ==> p.y < height as real) &&
      Settled(p)
  {
    var p := Respawn(d, width, height);
    assert Settled(p);
    assert p.x == d.x * width as real && p.y == d.y * height as real;
    ScaledUnit(d.x, width);
    assert d.x * width as real <= width as real;
    assert 0.0 <= p.x <= width as real && (0 < width ==> p.x < width as real);
    ScaledUnit(d.y, height);
    assert d.y * height as real <= height as real;
    assert 0.0 <= p.y <= height as real && (0 < height ==> p.y < height as real);
  }

  /** A particle that survives the guard has moved by its velocity, lost exactly one unit of life and kept everything else. */
  lemma StepWithoutReset(p: ParticleState, d: Draws, width: nat, height: nat)
    requires !Expired(Advance(p), width)
    ensures var r := Step(p, d, width, height);
      r.x == p.x + p.vx && r.y == p.y + p.vy && r.life == p.life - 1.0 &&
      r.vx == p.vx && r.vy == p.vy && r.size == p.size && r.alpha == p.alpha &&
      0.0 < r.life < p.life
  {
  }

  /** A particle caught by the guard takes the reset state, whatever it was before. */
  lemma StepWithReset(p: ParticleState, q: ParticleState, d: Draws, width: nat, height: nat)
    requires Expired(Advance(p), width) && Expired(Advance(q), width)
    ensures Step(p, d, width, height) == Step(q, d, width, height) == Respawn(d, width, height)
  {
  }

  /** The guard is exactly: no life left, or past the slack on either side, after the move. */
  lemma ExpiredAfterMoveIff(p: ParticleState, width: nat)
    ensures Expired(Advance(p), width) <==>
      (p.life <= 1.0 || p.x + p.vx < -200.0 || p.x + p.vx > width as real + 200.0)
  {
  }

  /** The vertical position never decides a reset: changing it changes only the vertical position of the outcome. */
  lemma StepIgnoresY(p: ParticleState, y: real, d: Draws, width: nat, height: nat)
    ensures Expired(Advance(p.(y := y)), width) == Expired(Advance(p), width)
    ensures Step(p.(y := y), d, width, height) ==
      if Expired(Advance(p), width) then Step(p, d, width, height)
      else Step(p, d, width, height).(y := y + p.vy)
  {
  }

  /** After any update the particle is inside the slack and has life left to spend. */
  lemma StepBounds(p: ParticleState, d: Draws, width: nat, height: nat)
    requires ValidDraws(d)
    ensures WithinSlack(Step(p, d, width, height), width)
    ensures Step(p, d, width, height).life >= 0.0
  {
    if Expired(Advance(p), width) {
      RespawnInRange(d, width, height);
    }
  }

  /** The field ranges established by a reset survive every later update, at any canvas size. */
  lemma StepKeepsSettled(p: ParticleState, d: Draws, width: nat, height: nat)
    requires Settled(p) && ValidDraws(d)
    ensures Settled(Step(p, d, width, height))
  {
    if Expired(Advance(p), width) {
      RespawnInRange(d, width, height);
    }
  }

  /** One frame over the pool: every particle updated once with its own draws, the pool's length and order kept. */
  function StepAll(ps: seq<ParticleState>, ds: seq<Draws>, width: nat, height: nat): (r: seq<ParticleState>)
    requires |ds| == |ps|
    ensures |r| == |ps|
    ensures forall i :: 0 <= i < |ps| ==> r[i] == Step(ps[i], ds[i], width, height)
  {
    if ps == [] then [] else [Step(ps[0], ds[0], width, height)] + StepAll(ps[1..], ds[1..], width, height)
  }

  /** The particles pushed when the fog starts, one reset each. */
  function SpawnAll(ds: seq<Draws>, width: nat, height: nat): (r: seq<ParticleState>)
    ensures |r| == |ds|
    ensures forall i :: 0 <= i < |ds| ==> r[i] == Respawn(ds[i], width, height)
  {
    if ds == [] then [] else [Respawn(ds[0], width, height)] + SpawnAll(ds[1..], width, height)
  }

  /** A freshly spawned pool is settled and lies on the canvas. */
  lemma SpawnAllSettled(ds: seq<Draws>, width: nat, height: nat)
    requires AllValidDraws(ds)
    ensures AllSettled(SpawnAll(ds, width, height))
    ensures AllWithinSlack(SpawnAll(ds, width, height), width)
  {
    forall i | 0 <= i < |ds|
      ensures Settled(SpawnAll(ds, width, height)[i]) && WithinSlack(SpawnAll(ds, width, height)[i], width)
    {
      RespawnInRange(ds[i], width, height);
    }
  }

  /** A frame keeps a settled pool settled and leaves every particle inside the slack. */
  lemma StepAllKeepsSettled(ps: seq<ParticleState>, ds: seq<Draws>, width: nat, height: nat)
    requires |ds| == |ps| && AllSettled(ps) && AllValidDraws(ds)
    ensures AllSettled(StepAll(ps, ds, width, height))
    ensures AllWithinSlack(StepAll(ps, ds, width, height), width)
  {
    forall i | 0 <= i < |ps|
      ensures Settled(StepAll(ps, ds, width, height)[i]) && WithinSlack(StepAll(ps, ds, width, height)[i], width)
    {
      StepKeepsSettled(ps[i], ds[i], width, height);
      StepBounds(ps[i], ds[i], width, height);
    }
  }

  /** One fog particle; `reset` and `update` overwrite its fields in place. */
  class Particle {
    var x: real
    var y: real
    var vx: real
    var vy: real
    var size: real
    var alpha: real
    var life: real

    ghost function State(): ParticleState
      reads this
    {
      ParticleState(x, y, vx, vy, size, alpha, life)
    }

    /** A new particle starts from a reset. */
    constructor (d: Draws, width: nat, height: nat)
      ensures State() == Respawn(d, width, height)
    {
      new;
      Reset(d, width, height);
    }

    method Reset(d: Draws, width: nat, height: nat)
      modifies this
      ensures State() == Respawn(d, width, height)
    {
      x := d.x * width as real;
      y := d.y * height as real;
      vx := (d.vx - 0.5) * 0.5;
      vy := (d.vy - 0.5) * 0.2;
      size := d.size * 200.0 + 50.0;
      alpha := d.alpha * 0.05;
      life := d.life * 1000.0;
    }

    /** `d` is used only when the particle is reset. */
    method Update(d: Draws, width: nat, height: nat)
      modifies this
      ensures State() == Step(old(State()), d, width, height)
    {
      x := x + vx;
      y := y + vy;
      life := life - 1.0;
      if life <= 0.0 || x < -Slack || x > width as real + Slack {
        Reset(d, width, height);
      }
    }
  }

  ghost function StatesOf(ps: seq<Particle>): (r: seq<ParticleState>)
    reads set p | p in ps
    ensures |r| == |ps|
    ensures forall i :: 0 <= i < |ps| ==> r[i] == ps[i].State()
  {
    if ps == [] then [] else [ps[0].State()] + StatesOf(ps[1..])
  }

  ghost predicate Distinct(ps: seq<Particle>) {
    forall i, j :: 0 <= i < j < |ps| ==> ps[i] != ps[j]
  }

  lemma DistinctSnoc(ps: seq<Particle>, p: Particle)
    requires Distinct(ps) && p !in ps
    ensures Distinct(ps + [p])
  {
  }

  lemma StatesOfSnoc(ps: seq<Particle>, p: Particle)
    ensures StatesOf(ps + [p]) == StatesOf(ps) + [p.State()]
  {
    assert StatesOf(ps + [p])[|ps|] == (ps + [p])[|ps|].State();
  }

  lemma SpawnAllSnoc(ds: seq<Draws>, d: Draws, width: nat, height: nat)
    ensures SpawnAll(ds + [d], width, height) == SpawnAll(ds, width, height) + [Respawn(d, width, height)]
  {
    assert SpawnAll(ds + [d], width, height)[|ds|] == Respawn((ds + [d])[|ds|], width, height);
  }

  /** One more push extends the spawned states by the reset from the next draw. */
  lemma SpawnPrefixStep(before: seq<ParticleState>, spawn: seq<Draws>, i: nat, width: nat, height: nat)
    requires i < |spawn|
    ensures before + SpawnAll(spawn[..i], width, height) + [Respawn(spawn[i], width, height)] ==
      before + SpawnAll(spawn[..i + 1], width, height)
  {
    assert spawn[..i + 1] == spawn[..i] + [spawn[i]];
    SpawnAllSnoc(spawn[..i], spawn[i], width, height);
  }

  /** The particle pool together with the canvas bounds it is simulated in. */
  class FogField {
    var particles: seq<Particle>
    var width: nat
    var height: nat

    /** Every pool slot holds its own particle. */
    ghost predicate Valid()
      reads this
    {
      Distinct(particles)
    }

    ghost function States(): seq<ParticleState>
      reads this, set p | p in particles
    {
      StatesOf(particles)
    }

    /** The pool starts empty on a canvas of the given size. */
    constructor (canvasWidth: nat, canvasHeight: nat)
      ensures Valid() && particles == [] && width == canvasWidth && height == canvasHeight
    {
      particles := [];
      width, height := canvasWidth, canvasHeight;
    }

    /** A new canvas size, taken up by the next frame; no particle is touched. */
    method Resize(innerWidth: nat, innerHeight: nat)
      modifies this`width, this`height
      ensures width == innerWidth && height == innerHeight
      ensures particles == old(particles) && States() == old(States())
    {
      width, height := innerWidth, innerHeight;
    }

    /** One frame: every particle of the pool updated once, in pool order, with its own draws. */
    method AnimateFog(draws: seq<Draws>)
      requires Valid() && |draws| == |particles|
      modifies set p | p in particles
      ensures particles == old(particles)
      ensures States() == StepAll(old(States()), draws, width, height)
      ensures AllSettled(old(States())) && AllValidDraws(draws) ==>
        AllSettled(States()) && AllWithinSlack(States(), width)
    {
      ghost var before := States();
      ghost var after := StepAll(before, draws, width, height);
      var i := 0;
      while i < |particles|
        invariant 0 <= i <= |particles|
        invariant forall k :: 0 <= k < |particles| ==>
          particles[k].State() == if k < i then after[k] else before[k]
      {
        particles[i].Update(draws[i], width, height);
        i := i + 1;
      }
      assert States() == after;
      if AllSettled(before) && AllValidDraws(draws) {
        StepAllKeepsSettled(before, draws, width, height);
      }
    }

    /** Appends one new particle, reset from `d`. */
    method Push(d: Draws) returns (p: Particle)
      requires Valid()
      modifies this`particles
      ensures Valid() && fresh(p) && particles == old(particles) + [p]
      ensures States() == old(States()) + [Respawn(d, width, height)]
    {
      ghost var was := StatesOf(particles);
      p := new Particle(d, width, height);
      assert StatesOf(particles) == was;
      ghost var reset := p.State();
      DistinctSnoc(particles, p);
      StatesOfSnoc(particles, p);
      particles := particles + [p];
      assert States() == was + [reset];
    }

    /** The counted loop of the fog start: push exactly `PoolSize` new particles, each from its own reset. */
    method Populate(spawn: seq<Draws>)
      requires Valid() && |spawn| == PoolSize
      modifies this`particles
      ensures Valid()
      ensures |particles| == |old(particles)| + PoolSize && particles[..|old(particles)|] == old(particles)
      ensures forall k :: |old(particles)| <= k < |particles| ==> fresh(particles[k])
      ensures States() == old(States()) + SpawnAll(spawn, width, height)
    {
      ghost var before := States();
      var i := 0;
      while i < PoolSize
        invariant 0 <= i <= PoolSize
        invariant |particles| == |old(particles)| + i && particles[..|old(particles)|] == old(particles)
        invariant Valid()
        invariant forall k :: |old(particles)| <= k < |particles| ==> fresh(particles[k])
        invariant States() == before + SpawnAll(spawn[..i], width, height)
      {
        var p := Push(spawn[i]);
        SpawnPrefixStep(before, spawn, i, width, height);
        i := i + 1;
      }
      assert spawn[..PoolSize] == spawn;
    }

    /** Resize to the window, push the new particles, then run the first frame. */
    method InitFog(innerWidth: nat, innerHeight: nat, spawn: seq<Draws>, firstFrame: seq<Draws>)
      requires Valid()
      requires |spawn| == PoolSize && |firstFrame| == |particles| + PoolSize
      modifies this, set p | p in particles
      ensures Valid()
      ensures width == innerWidth && height == innerHeight
      ensures |particles| == |old(particles)| + PoolSize && particles[..|old(particles)|] == old(particles)
      ensures forall k :: |old(particles)| <= k < |particles| ==> fresh(particles[k])
      ensures States() == StepAll(old(States()) + SpawnAll(spawn, innerWidth, innerHeight), firstFrame, innerWidth, innerHeight)
      ensures AllSettled(old(States())) && AllValidDraws(spawn) && AllValidDraws(firstFrame) ==>
        AllSettled(States()) && AllWithinSlack(States(), width)
    {
      ghost var before := States();
      Resize(innerWidth, innerHeight);
      Populate(spawn);
      ghost var spawned := States();
      AnimateFog(firstFrame);
      if AllSettled(before) && AllValidDraws(spawn) && AllValidDraws(firstFrame) {
        SpawnAllSettled(spawn, innerWidth, innerHeight);
        assert AllSettled(spawned);
      }
    }
  }
}
