/**
 * The particle field of the dongle's status screen: a fixed array of fifteen
 * particles seeded from the pseudo-random source, which drift across a
 * 240 x 135 canvas and wrap at its edges, and the list of canvas draw
 * commands that renders them at half resolution.
 *
 * Positions and velocities are floats in the program. In exact arithmetic
 * they are whole numbers of hundredths of a pixel (integer initial
 * positions, velocities k/100 for k in -50..49), so the model keeps them as
 * integers in hundredths; the rounding of the float operations is left out.
 */
module StatusScreen {
  import opened Bytes
  import opened PseudoRandom

  const ParticleCount: nat := 15
  const CanvasWidth: int := 240
  const CanvasHeight: int := 135

  /** Sub-pixel resolution of the model: one pixel is `Unit` hundredths. */
  const Unit: int := 100
  /** The canvas extent in hundredths of a pixel. */
  const Width: int := CanvasWidth * Unit
  const Height: int := CanvasHeight * Unit

  /** Colours and opacities handed to the canvas. */
  const Background: int := 0x0a0a2e
  const OpaCover: Byte := 255
  /** Brightness above which a particle also gets a halo. */
  const HaloThreshold: int := 150

  /** One particle: position and velocity in hundredths of a pixel. */
  datatype Particle = Particle(x: int, y: int, vx: int, vy: int, brightness: Byte)

  /** What `init_particles` promises of every particle it writes. */
  ghost predicate Spawned(p: Particle) {
    p.x % Unit == 0 && 0 <= p.x <= (CanvasWidth - 1) * Unit &&
    p.y % Unit == 0 && 0 <= p.y <= (CanvasHeight - 1) * Unit &&
    -50 <= p.vx <= 49 && -50 <= p.vy <= 49 &&
    100 <= p.brightness <= 255
  }

  /** The closed range a coordinate lies in after a wrap. */
  ghost predicate OnCanvas(p: Particle) {
    0 <= p.x <= Width && 0 <= p.y <= Height
  }

  // ---------------------------------------------------------------------
  // Initialisation

  /** The particle built from the five draws that follow seed `s`: x, y, vx, vy, brightness. */
  function Spawn(s: bv32): (p: Particle)
    ensures Spawned(p)
  {
    var dx := NextSeed(s);
    var dy := NextSeed(dx);
    var dvx := NextSeed(dy);
    var dvy := NextSeed(dvx);
    var db := NextSeed(dvy);
    Particle((dx as int % CanvasWidth) * Unit,
             (dy as int % CanvasHeight) * Unit,
             dvx as int % 100 - 50,
             dvy as int % 100 - 50,
             100 + db as int % 156)
  }

  /** The ensemble `init_particles` writes when the seed is `s`: particle i takes draws 5i+1 .. 5i+5. */
  function Ensemble(s: bv32): (r: seq<Particle>)
    ensures |r| == ParticleCount
    ensures forall i :: 0 <= i < |r| ==> Spawned(r[i])
  {
    seq(ParticleCount, i requires 0 <= i < ParticleCount => Spawn(SeedAfter(s, 5 * i)))
  }

  /** The first particle from seed 12345: x = 46, y = 95, vx = -0.26, vy = 0.23, brightness 246. */
  lemma FirstParticle()
    ensures Ensemble(InitialSeed)[0] == Particle(4600, 9500, -26, 23, 246)
  {
  }

  // ---------------------------------------------------------------------
  // Motion

  /** The wrap of lines 78-88: below zero goes to the extent itself, the extent or above to zero. */
  function Wrap(v: int, extent: int): (r: int)
    ensures 0 <= extent ==> 0 <= r <= extent
    ensures 0 <= v < extent ==> r == v
    ensures 0 < extent ==> (r == extent <==> v < 0)
  {
    if v < 0 then extent else if v >= extent then 0 else v
  }

  /** One tick of one particle: move by the velocity, then wrap each coordinate. */
  function Step(p: Particle): (q: Particle)
    ensures OnCanvas(q)
    ensures q.vx == p.vx && q.vy == p.vy && q.brightness == p.brightness
    ensures q.x == Width <==> p.x + p.vx < 0
    ensures q.y == Height <==> p.y + p.vy < 0
  {
    Particle(Wrap(p.x + p.vx, Width), Wrap(p.y + p.vy, Height), p.vx, p.vy, p.brightness)
  }

  /** `update_particles` applied to a whole ensemble: each particle on its own. */
  function StepAll(ps: seq<Particle>): (r: seq<Particle>)
    ensures |r| == |ps|
    ensures forall i :: 0 <= i < |r| ==> OnCanvas(r[i])
    ensures forall i :: 0 <= i < |r| ==>
      r[i].vx == ps[i].vx && r[i].vy == ps[i].vy && r[i].brightness == ps[i].brightness
  {
    seq(|ps|, i requires 0 <= i < |ps| => Step(ps[i]))
  }

  /**
   * The wrap against a true torus: a moved coordinate in [0, extent] is the
   * moved coordinate modulo the extent; one that overshoots the far edge is
   * set to 0 and one that undershoots zero is set to the extent itself, in
   * both cases at most one velocity step away from where the torus puts it.
   */
  lemma StepIsNearlyToroidal(p: Particle)
    requires OnCanvas(p) && -Width < p.vx < Width && -Height < p.vy < Height
    ensures var nx := p.x + p.vx;
      (0 <= nx <= Width ==> Step(p).x == nx % Width) &&
      (nx > Width ==> Step(p).x == 0 && nx % Width == nx - Width <= p.vx) &&
      (nx < 0 ==> Step(p).x == Width && nx % Width == Width + nx && Width - nx % Width <= -p.vx)
    ensures var ny := p.y + p.vy;
      (0 <= ny <= Height ==> Step(p).y == ny % Height) &&
      (ny > Height ==> Step(p).y == 0 && ny % Height == ny - Height <= p.vy) &&
      (ny < 0 ==> Step(p).y == Height && ny % Height == Height + ny && Height - ny % Height <= -p.vy)
  {
  }

  /** The closed upper edge is reachable: a particle at 0 moving left lands on 240, not in [0, 240). */
  lemma UnderflowLandsOnEdge()
    ensures Step(Particle(0, 0, -1, -1, 100)) == Particle(Width, Height, -1, -1, 100)
  {
  }

  /**
   * The ensemble after `n` ticks. Whatever the starting state, after at
   * least one tick every particle is on the closed canvas, and no number of
   * ticks changes a velocity or a brightness.
   */
  function Ticks(ps: seq<Particle>, n: nat): (r: seq<Particle>)
    ensures |r| == |ps|
    ensures n >= 1 ==> forall i :: 0 <= i < |r| ==> OnCanvas(r[i])
    ensures forall i :: 0 <= i < |r| ==>
      r[i].vx == ps[i].vx && r[i].vy == ps[i].vy && r[i].brightness == ps[i].brightness
  {
    if n == 0 then ps else StepAll(Ticks(ps, n - 1))
  }

  // ---------------------------------------------------------------------
  // Rendering

  /** A call into the canvas. */
  datatype Command =
    | FillBg(color: int, opa: Byte)
    | DrawRect(x: int, y: int, w: int, h: int, color: int, opa: Byte)

  /** The colour of particle `i`: three colours round-robin. */
  function Palette(i: nat): (r: int)
    ensures r == 0x4d80ff <==> i % 3 == 0
    ensures r == 0x80ffff <==> i % 3 == 1
    ensures r == 0xcc66ff <==> i % 3 == 2
  {
    if i % 3 == 0 then 0x4d80ff else if i % 3 == 1 then 0x80ffff else 0xcc66ff
  }

  /**
   * The half-resolution canvas pixel of a coordinate, `(int)(x / 2)`: C's
   * conversion to `int` rounds toward zero, unlike Dafny's `/` on negatives.
   */
  function Pixel(c: int): (q: int)
    ensures c >= 0 ==> 0 <= 200 * q <= c < 200 * q + 200
    ensures c < 0 ==> 200 * q - 200 < c <= 200 * q <= 0
  {
    if c >= 0 then c / (2 * Unit) else -((-c) / (2 * Unit))
  }

  /** The commands for particle `i`: its 3x3 core, then a 5x5 halo at half opacity when it is bright. */
  function ParticleCommands(i: nat, p: Particle): (r: seq<Command>)
    ensures |r| == if p.brightness > HaloThreshold then 2 else 1
    ensures forall k :: 0 <= k < |r| ==> r[k].DrawRect? && r[k].color == Palette(i)
    ensures r[0].x == Pixel(p.x) - 1 && r[0].y == Pixel(p.y) - 1 && r[0].opa == p.brightness
    ensures |r| == 2 ==>
      r[1].x < r[0].x && r[0].x + r[0].w < r[1].x + r[1].w &&
      r[1].y < r[0].y && r[0].y + r[0].h < r[1].y + r[1].h &&
      r[1].opa == r[0].opa / 2
  {
    var px, py := Pixel(p.x), Pixel(p.y);
    [DrawRect(px - 1, py - 1, 3, 3, Palette(i), p.brightness)] +
    (if p.brightness > HaloThreshold then [DrawRect(px - 2, py - 2, 5, 5, Palette(i), p.brightness / 2)] else [])
  }

  /** The rectangles for the particles of `ps`, in index order. */
  function Rects(ps: seq<Particle>): seq<Command>
    decreases |ps|
  {
    if ps == [] then [] else Rects(ps[..|ps| - 1]) + ParticleCommands(|ps| - 1, ps[|ps| - 1])
  }

  /** What `draw_particles` sends to the canvas. */
  function Render(ps: seq<Particle>): (r: seq<Command>)
    ensures |r| >= 1 + |ps| && r[0] == FillBg(Background, OpaCover)
  {
    RectsShape(ps);
    [FillBg(Background, OpaCover)] + Rects(ps)
  }

  /** How many particles are bright enough for a halo. */
  function BrightCount(ps: seq<Particle>): nat {
    if ps == [] then 0 else (if ps[0].brightness > HaloThreshold then 1 else 0) + BrightCount(ps[1..])
  }

  lemma {:induction false} BrightCountSnoc(ps: seq<Particle>, p: Particle)
    ensures BrightCount(ps + [p]) == BrightCount(ps) + (if p.brightness > HaloThreshold then 1 else 0)
  {
    if ps != [] {
      assert (ps + [p])[1..] == ps[1..] + [p];
      BrightCountSnoc(ps[1..], p);
    }
  }

  /** `Rects` holds one core per particle and one halo per bright particle, and nothing but rectangles. */
  lemma {:induction false} RectsShape(ps: seq<Particle>)
    ensures |Rects(ps)| == |ps| + BrightCount(ps)
    ensures forall k :: 0 <= k < |Rects(ps)| ==> Rects(ps)[k].DrawRect?
  {
    if ps != [] {
      var init := ps[..|ps| - 1];
      RectsShape(init);
      assert ps == init + [ps[|ps| - 1]];
      BrightCountSnoc(init, ps[|ps| - 1]);
    }
  }

  /**
   * The command sequence of `draw_particles`: the background fill first, then
   * only rectangles, one core per particle plus one halo per bright particle.
   */
  lemma RenderShape(ps: seq<Particle>)
    ensures |Render(ps)| == 1 + |ps| + BrightCount(ps)
    ensures Render(ps)[0] == FillBg(0x0a0a2e, 255)
    ensures forall k :: 1 <= k < |Render(ps)| ==> Render(ps)[k].DrawRect?
  {
    RectsShape(ps);
  }

  /**
   * Particle `i`'s core rectangle sits right after the fill, the earlier
   * cores and the earlier halos; its halo, when bright, comes next.
   */
  lemma {:induction false} RenderAt(ps: seq<Particle>, i: nat)
    requires i < |ps|
    ensures 1 + i + BrightCount(ps[..i]) < |Render(ps)|
    ensures Render(ps)[1 + i + BrightCount(ps[..i])] ==
      DrawRect(Pixel(ps[i].x) - 1, Pixel(ps[i].y) - 1, 3, 3, Palette(i), ps[i].brightness)
    ensures ps[i].brightness > 150 ==>
      2 + i + BrightCount(ps[..i]) < |Render(ps)| &&
      Render(ps)[2 + i + BrightCount(ps[..i])] ==
        DrawRect(Pixel(ps[i].x) - 2, Pixel(ps[i].y) - 2, 5, 5, Palette(i), ps[i].brightness / 2)
  {
    RectsAt(ps, i);
    var k := i + BrightCount(ps[..i]);
    var cs := ParticleCommands(i, ps[i]);
    assert Render(ps)[1 + k] == Rects(ps)[k] == cs[0];
    if ps[i].brightness > 150 {
      assert Render(ps)[2 + k] == Rects(ps)[k + 1] == cs[1];
    }
  }

  lemma {:induction false} RectsAt(ps: seq<Particle>, i: nat)
    requires i < |ps|
    ensures i + BrightCount(ps[..i]) + |ParticleCommands(i, ps[i])| <= |Rects(ps)|
    ensures forall j :: 0 <= j < |ParticleCommands(i, ps[i])| ==>
      Rects(ps)[i + BrightCount(ps[..i]) + j] == ParticleCommands(i, ps[i])[j]
  {
    var n := |ps|;
    var init := ps[..n - 1];
    assert Rects(ps) == Rects(init) + ParticleCommands(n - 1, ps[n - 1]);
    if i < n - 1 {
      RectsAt(init, i);
      assert init[..i] == ps[..i];
    } else {
      RectsShape(init);
      assert init == ps[..i];
    }
  }

  // ---------------------------------------------------------------------
  // The imperative field

  /** One iteration of the loop of `draw_particles`: the core of particle `i`, then its halo when bright. */
  method DrawParticle(i: nat, p: Particle) returns (rects: seq<Command>)
    ensures rects == ParticleCommands(i, p)
  {
    var x := Pixel(p.x);
    var y := Pixel(p.y);
    var bright := p.brightness;
    var color: int;
    if i % 3 == 0 {
      color := 0x4d80ff;
    } else if i % 3 == 1 {
      color := 0x80ffff;
    } else {
      color := 0xcc66ff;
    }
    rects := [DrawRect(x - 1, y - 1, 3, 3, color, bright)];
    if bright > HaloThreshold {
      rects := rects + [DrawRect(x - 2, y - 2, 5, 5, color, bright / 2)];
    }
  }

  /** The static state of the status screen: the seed of `pseudo_rand` and `particles[15]`. */
  class ParticleField {
    var seed: bv32
    const particles: array<Particle>

    ghost predicate Valid()
      reads this
    {
      particles.Length == ParticleCount
    }

    /** The statics as the program starts: seed 12345, particles zero-initialised. */
    constructor ()
      ensures Valid() && fresh(particles)
      ensures seed == InitialSeed
      ensures forall i :: 0 <= i < particles.Length ==> particles[i] == Particle(0, 0, 0, 0, 0)
    {
      seed := InitialSeed;
      particles := new Particle[ParticleCount](_ => Particle(0, 0, 0, 0, 0));
    }

    /** `pseudo_rand`: advance the seed one step and return it. */
    method PseudoRand() returns (r: int)
      modifies this`seed
      ensures seed == NextSeed(old(seed))
      ensures r == seed as int && 0 <= r < 0x8000_0000
    {
      seed := NextSeed(seed);
      r := seed as int;
    }

    /** The body of the loop in `init_particles`: five draws set x, y, vx, vy and brightness, in that order. */
    method SpawnParticle(p0: Particle) returns (p: Particle)
      modifies this`seed
      ensures p == Spawn(old(seed))
      ensures seed == NextSeed(NextSeed(NextSeed(NextSeed(NextSeed(old(seed))))))
    {
      p := p0;
      var r := PseudoRand();
      p := p.(x := (r % CanvasWidth) * Unit);
      r := PseudoRand();
      p := p.(y := (r % CanvasHeight) * Unit);
      r := PseudoRand();
      p := p.(vx := r % 100 - 50);
      r := PseudoRand();
      p := p.(vy := r % 100 - 50);
      r := PseudoRand();
      p := p.(brightness := 100 + r % 156);
    }

    /** `init_particles`: fill the array from the generator, five draws per particle. */
    method InitParticles()
      requires Valid()
      modifies this`seed, particles
      ensures Valid()
      ensures particles[..] == Ensemble(old(seed))
      ensures seed == SeedAfter(old(seed), 5 * ParticleCount)
      ensures forall i :: 0 <= i < particles.Length ==> Spawned(particles[i])
    {
      ghost var s0 := seed;
      for i := 0 to ParticleCount
        invariant seed == SeedAfter(s0, 5 * i)
        invariant forall j :: 0 <= j < i ==> particles[j] == Spawn(SeedAfter(s0, 5 * j))
      {
        var p := SpawnParticle(particles[i]);
        SeedAfterFive(s0, 5 * i);
        particles[i] := p;
      }
      assert particles[..] == Ensemble(s0);
    }

    /** `update_particles`: move and wrap every particle in place. */
    method UpdateParticles()
      requires Valid()
      modifies particles
      ensures particles[..] == StepAll(old(particles[..]))
      ensures forall i :: 0 <= i < particles.Length ==> OnCanvas(particles[i])
    {
      for i := 0 to ParticleCount
        invariant forall j :: 0 <= j < i ==> particles[j] == Step(old(particles[j]))
        invariant forall j :: i <= j < ParticleCount ==> particles[j] == old(particles[j])
      {
        particles[i] := particles[i].(x := particles[i].x + particles[i].vx);
        particles[i] := particles[i].(y := particles[i].y + particles[i].vy);
        if particles[i].x < 0 {
          particles[i] := particles[i].(x := Width);
        } else if particles[i].x >= Width {
          particles[i] := particles[i].(x := 0);
        }
        if particles[i].y < 0 {
          particles[i] := particles[i].(y := Height);
        } else if particles[i].y >= Height {
          particles[i] := particles[i].(y := 0);
        }
      }
    }

    /** `draw_particles`: the commands it sends to the canvas; it changes no particle. */
    method DrawParticles() returns (cmds: seq<Command>)
      requires Valid()
      ensures cmds == Render(particles[..])
    {
      cmds := [FillBg(Background, OpaCover)];
      for i := 0 to ParticleCount
        invariant cmds == [FillBg(Background, OpaCover)] + Rects(particles[..i])
      {
        var rects := DrawParticle(i, particles[i]);
        cmds := cmds + rects;
        assert particles[..i + 1][..i] == particles[..i];
      }
      assert particles[..ParticleCount] == particles[..];
    }

    /** `particle_timer_cb`: one tick is an update followed by a redraw. */
    method Tick() returns (cmds: seq<Command>)
      requires Valid()
      modifies particles
      ensures particles[..] == StepAll(old(particles[..]))
      ensures cmds == Render(particles[..])
    {
      UpdateParticles();
      cmds := DrawParticles();
    }

    /** The start of the particle system when the screen is built: initialise, then draw once. */
    method Start() returns (cmds: seq<Command>)
      requires Valid()
      modifies this`seed, particles
      ensures Valid()
      ensures particles[..] == Ensemble(old(seed))
      ensures seed == SeedAfter(old(seed), 5 * ParticleCount)
      ensures cmds == Render(particles[..])
    {
      InitParticles();
      cmds := DrawParticles();
    }
  }

  /** From power-on the first frame is a fixed function of the seed 12345. */
  method StartFromPowerOn() returns (cmds: seq<Command>)
    ensures cmds == Render(Ensemble(InitialSeed))
  {
    var field := new ParticleField();
    cmds := field.Start();
  }
}
