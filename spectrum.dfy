/**
 * The arithmetic of the circular spectrum animator (ui/visualizer.py), as functions:
 * the "tech" gradient palette, per-channel colour easing, the per-mode target-level
 * rules, the spring integrator and the bar geometry handed to the renderer.
 *
 * Reals are exact; `math.sin`/`math.cos` are parameters bounded by callers where a
 * property needs it, and random draws are unit values `u` turned into
 * `uniform(a, b) = a + (b - a) * u`.
 */
module Spectrum {
  import opened Prelude
  import opened Config

  const NumBars: nat := 90
  const Radius: real := 150.0
  const BarWidth: int := 7
  const MinHeight: real := 10.0
  const MaxHeight: real := 160.0
  const LevelMin: real := 0.05
  const LevelMax: real := 1.3
  /** `math.pi` */
  const Pi: real := 3.141592653589793

  /** The seven key colours of the tech gradient, top of the circle first. */
  const KeyColors: seq<Color> := [
    Color(0, 100, 255), Color(150, 0, 255), Color(255, 50, 200), Color(100, 50, 255),
    Color(50, 150, 255), Color(50, 200, 255), Color(0, 255, 200)
  ]

  predicate ChannelOk(x: int) { 0 <= x <= 255 }

  predicate ColorOk(c: Color) { ChannelOk(c.r) && ChannelOk(c.g) && ChannelOk(c.b) }

  predicate PaletteOk(p: seq<Color>) { forall i :: 0 <= i < |p| ==> ColorOk(p[i]) }

  predicate Between(x: int, a: int, b: int) { Min(a, b) <= x <= Max(a, b) }

  predicate ColorBetween(c: Color, a: Color, b: Color)
  {
    Between(c.r, a.r, b.r) && Between(c.g, a.g, b.g) && Between(c.b, a.b, b.b)
  }

  // ---------------------------------------------------------------- palette

  /** Multiplying by a positive number preserves strict order, so it can be cancelled. */
  lemma MulCancelLt(a: int, b: int, s: int)
    requires s > 0 && a * s < b * s
    ensures a < b
  {
    assert (b - a) * s == b * s - a * s;
  }

  /** Euclidean division by a positive divisor is monotone between multiples. */
  lemma DivBounds(x: int, lo: int, hi: int, s: int)
    requires s > 0 && lo * s <= x <= hi * s
    ensures lo <= x / s <= hi
  {
    var q, r := x / s, x % s;
    assert x == q * s + r && 0 <= r < s;
    assert (q + 1) * s == q * s + s;
    MulCancelLt(lo, q + 1, s);
    assert (hi + 1) * s == hi * s + s;
    MulCancelLt(q, hi + 1, s);
  }

  /**
   * Channel `j` of a section of `steps` entries from `a` to `b`:
   * `int(a + (b - a) * (j / steps))`. The value lies between `a` and `b`, so it is
   * never negative and `int` is the floor, which Dafny's `/` computes.
   */
  function LerpChannel(a: int, b: int, j: nat, steps: nat): (x: int)
    requires j < steps
    ensures Between(x, a, b)
    ensures j == 0 ==> x == a
  {
    var d := b - a;
    if d >= 0 then
      DivBounds(d * j, 0, d, steps);
      a + d * j / steps
    else
      DivBounds(d * j, d, 0, steps);
      a + d * j / steps
  }

  /** Entry `j` of the section from `c1` to `c2`, each channel interpolated alone. */
  function Lerp(c1: Color, c2: Color, j: nat, steps: nat): (c: Color)
    requires j < steps
    ensures ColorBetween(c, c1, c2)
    ensures j == 0 ==> c == c1
  {
    Color(LerpChannel(c1.r, c2.r, j, steps), LerpChannel(c1.g, c2.g, j, steps),
          LerpChannel(c1.b, c2.b, j, steps))
  }

  /** Section `k`: `steps` colours from key colour `k` towards key colour `k + 1`. */
  function Section(k: nat, steps: nat): (s: seq<Color>)
    requires k < |KeyColors| - 1
    ensures |s| == steps
  {
    seq(steps, j requires 0 <= j < steps => Lerp(KeyColors[k], KeyColors[k + 1], j, steps))
  }

  /** The first `m` sections, in order. */
  function Sections(m: nat, steps: nat): (s: seq<Color>)
    requires m <= |KeyColors| - 1
    ensures |s| == m * steps
  {
    if m == 0 then [] else Sections(m - 1, steps) + Section(m - 1, steps)
  }

  /**
   * `_create_tech_gradient`: six sections of `n // 6` colours each, then the last key
   * colour repeated until there are `n` colours.
   */
  function TechGradient(n: nat): (p: seq<Color>)
    ensures |p| == n
  {
    var steps := n / (|KeyColors| - 1);
    Sections(|KeyColors| - 1, steps) + seq(n - (|KeyColors| - 1) * steps, _ => KeyColors[6])
  }

  /** Division facts for an index inside the `q`-th block of `s`. */
  lemma DivInBlock(k: int, q: int, s: int)
    requires s > 0 && q * s <= k < q * s + s
    ensures k / s == q && k % s == k - q * s
  {
    var d, r := k / s, k % s;
    assert k == d * s + r && 0 <= r < s;
    assert (q + 1) * s == q * s + s;
    MulCancelLt(d, q + 1, s);
    assert (d + 1) * s == d * s + s;
    MulCancelLt(q, d + 1, s);
  }

  /** Entry `k` of the first `m` sections is the `(k % steps)`-th step of section `k / steps`. */
  lemma {:induction false} SectionsAt(m: nat, steps: nat, k: nat)
    requires m <= |KeyColors| - 1 && k < m * steps
    ensures 0 < steps && k / steps < m
    ensures Sections(m, steps)[k]
         == Lerp(KeyColors[k / steps], KeyColors[k / steps + 1], k % steps, steps)
  {
    assert m > 0 && steps > 0;
    assert (m - 1) * steps + steps == m * steps;
    if k < (m - 1) * steps {
      SectionsAt(m - 1, steps, k);
    } else {
      DivInBlock(k, m - 1, steps);
    }
  }

  /** Entry `k` of the gradient: an interpolated colour in the six sections, else the last key colour. */
  lemma TechGradientAt(n: nat, k: nat)
    requires k < n
    ensures |TechGradient(n)| == n
    ensures k < 6 * (n / 6) ==> 0 < n / 6 && k / (n / 6) < 6
    ensures var steps := n / 6;
            TechGradient(n)[k]
            == if k < 6 * steps then Lerp(KeyColors[k / steps], KeyColors[k / steps + 1], k % steps, steps)
               else KeyColors[6]
  {
    assert |KeyColors| - 1 == 6;
    var steps := n / 6;
    assert 6 * steps <= n;
    var head := Sections(6, steps);
    var padding := seq(n - 6 * steps, _ => KeyColors[6]);
    assert TechGradient(n) == head + padding;
    if k < 6 * steps {
      SectionsAt(6, steps, k);
      assert TechGradient(n)[k] == head[k];
    } else {
      assert TechGradient(n)[k] == padding[k - 6 * steps];
    }
  }

  /** The gradient always has exactly `n` colours. */
  lemma TechGradientLength(n: nat)
    ensures |TechGradient(n)| == n
  {
  }

  /** Section `k` starts exactly on key colour `k`. */
  lemma TechGradientSectionStart(n: nat, k: nat)
    requires n >= 6 && k < 6
    ensures k * (n / 6) < n && TechGradient(n)[k * (n / 6)] == KeyColors[k]
  {
    var steps := n / 6;
    var start := k * steps;
    assert start < 6 * steps <= n;
    DivInBlock(start, k, steps);
    TechGradientAt(n, start);
    assert TechGradient(n)[start] == Lerp(KeyColors[k], KeyColors[k + 1], 0, steps);
  }

  /** Every interpolated entry lies, channel by channel, between the key colours of its section. */
  lemma TechGradientBetweenKeys(n: nat, k: nat)
    requires k < 6 * (n / 6)
    ensures n / 6 > 0 && k < n && k / (n / 6) < 6
    ensures ColorBetween(TechGradient(n)[k], KeyColors[k / (n / 6)], KeyColors[k / (n / 6) + 1])
  {
    TechGradientAt(n, k);
    SectionsAt(6, n / 6, k);
  }

  /** Past the six sections every entry is the last key colour; there are `n % 6` such entries. */
  lemma TechGradientPadding(n: nat)
    ensures n - 6 * (n / 6) == n % 6
    ensures forall k :: 6 * (n / 6) <= k < n ==> TechGradient(n)[k] == KeyColors[6]
  {
    forall k | 6 * (n / 6) <= k < n
      ensures TechGradient(n)[k] == KeyColors[6]
    {
      TechGradientAt(n, k);
    }
  }

  /** With 90 bars the gradient is six sections of fifteen and has no padding. */
  lemma TechGradientOfNinety()
    ensures TechGradient(90) == Sections(6, 15)
  {
    assert |KeyColors| - 1 == 6 && 90 / 6 == 15;
    assert seq(90 - 6 * 15, _ => KeyColors[6]) == [];
  }

  /** With fewer than six bars every entry is the last key colour. */
  lemma TechGradientTiny(n: nat)
    requires n < 6
    ensures forall k :: 0 <= k < n ==> TechGradient(n)[k] == KeyColors[6]
  {
    TechGradientPadding(n);
  }

  /** All channels of the gradient lie in [0, 255]. */
  lemma TechGradientOk(n: nat)
    ensures PaletteOk(TechGradient(n))
  {
    forall k | 0 <= k < |TechGradient(n)|
      ensures ColorOk(TechGradient(n)[k])
    {
      TechGradientAt(n, k);
      if k < 6 * (n / 6) {
        TechGradientBetweenKeys(n, k);
      }
    }
  }

  // ---------------------------------------------------------------- easing

  /**
   * One easing step of a channel: `int(c + (t - c) * 0.1)`, the floor for the
   * non-negative channels the animator holds. It never passes the target, never moves
   * away from it, and stays put exactly when it is on target or less than ten below it.
   */
  function EaseChannel(c: int, t: int): (x: int)
    ensures Between(x, c, t)
    ensures Abs(t - x) <= Abs(t - c)
    ensures x == c <==> (c == t || 0 < t - c < 10)
  {
    c + (t - c) / 10
  }

  function Ease(c: Color, t: Color): (e: Color)
    ensures ColorBetween(e, c, t)
    ensures c == t ==> e == c
  {
    Color(EaseChannel(c.r, t.r), EaseChannel(c.g, t.g), EaseChannel(c.b, t.b))
  }

  /** One easing step of every bar colour towards its target. */
  function EaseAll(cs: seq<Color>, ts: seq<Color>): (es: seq<Color>)
    requires |cs| == |ts|
    ensures |es| == |cs|
  {
    seq(|cs|, i requires 0 <= i < |cs| => Ease(cs[i], ts[i]))
  }

  /** Easing a palette towards itself leaves it as it is. */
  lemma EaseAllFixed(cs: seq<Color>)
    ensures EaseAll(cs, cs) == cs
  {
  }

  /** Easing keeps channels in [0, 255]. */
  lemma EaseAllOk(cs: seq<Color>, ts: seq<Color>)
    requires |cs| == |ts| && PaletteOk(cs) && PaletteOk(ts)
    ensures PaletteOk(EaseAll(cs, ts))
  {
    forall i | 0 <= i < |cs|
      ensures ColorOk(EaseAll(cs, ts)[i])
    {
      assert ColorOk(cs[i]) && ColorOk(ts[i]);
    }
  }

  // ---------------------------------------------------------------- targets

  /** `int(n * 0.75)`: the focal bar, three quarters round the circle. */
  function LeftCenter(n: nat): (c: nat)
    ensures n > 0 ==> c < n
  {
    3 * n / 4
  }

  /** Distance from bar `i` to `center` going the short way round a circle of `n` bars. */
  function CircularDistance(n: nat, i: int, center: int): (d: int)
    requires 0 <= i < n && 0 <= center < n
    ensures 0 <= d && 2 * d <= n
    ensures d == 0 <==> i == center
  {
    var dist := Abs(i - center);
    if 2 * dist > n then n - dist else dist
  }

  /** `max(floor, 1 - dist / (n * spread))`: 1 at the focal bar, falling off, never below `floor`. */
  function ShapeFactor(n: nat, i: int, spread: real, floor: real): (s: real)
    requires 0 <= i < n && spread > 0.0
    ensures floor <= s
    ensures floor <= 1.0 ==> s <= 1.0
    ensures i == LeftCenter(n) ==> s == MaxR(floor, 1.0)
  {
    var dist := CircularDistance(n, i, LeftCenter(n));
    var width := n as real * spread;
    assert 0.0 <= dist as real / width;
    MaxR(floor, 1.0 - dist as real / width)
  }

  /** `random.uniform(a, b)` from a unit draw `u`. */
  function Uniform(a: real, b: real, u: real): real
  {
    a + (b - a) * u
  }

  /** The documented range of `math.sin` and `math.cos`. */
  ghost predicate UnitBounded(f: real -> real)
  {
    forall x :: -1.0 <= f(x) <= 1.0
  }

  predicate UnitDraw(u: real) { 0.0 <= u <= 1.0 }

  /** Idle: focal shape, slow breathing and a little noise. */
  function IdleTarget(i: int, time: real, sin: real -> real, u: real): real
    requires 0 <= i < NumBars
  {
    var shape := ShapeFactor(NumBars, i, 0.35, 0.1);
    var breath := sin(time * 2.0 + i as real * 0.1) * 0.1;
    shape * 0.5 + breath + Uniform(0.0, 0.05, u)
  }

  /** Listening: a gentle synchronised pulse. */
  function ListeningTarget(i: int, time: real, sin: real -> real): real
  {
    0.3 + sin(time * 4.0 + i as real * 0.2) * 0.1
  }

  /** Thinking: a ripple rotating round the circle. */
  function ThinkingTarget(i: int, time: real, sin: real -> real): real
  {
    var angle := (i as real / NumBars as real) * Pi * 2.0;
    0.4 + sin(angle * 3.0 + time * 8.0) * 0.4
  }

  /** Python's `time % 0.5`: floor modulo, always in [0, 0.5). */
  function BeatPhase(time: real): (p: real)
    ensures 0.0 <= p < 0.5
  {
    time - 0.5 * (time / 0.5).Floor as real
  }

  /** The shared kick: a draw in [0.3, 0.6] during the first tenth of each half second, else 0. */
  function Beat(time: real, u: real): real
  {
    if BeatPhase(time) < 0.1 then Uniform(0.3, 0.6, u) else 0.0
  }

  /** `max(0.05, min(1.3, x))` */
  function Clamp(x: real): (r: real)
    ensures LevelMin <= r <= LevelMax
    ensures LevelMin <= x <= LevelMax ==> r == x
  {
    MaxR(LevelMin, MinR(LevelMax, x))
  }

  /** Speaking: beat, fast wave and jitter, shaped towards the focal bar, clamped. */
  function SpeakingTarget(i: int, time: real, sin: real -> real, beat: real, u: real): real
    requires 0 <= i < NumBars
  {
    var bias := ShapeFactor(NumBars, i, 0.45, 0.15);
    var jitter := Uniform(0.0, 0.3, u);
    var wave := sin(time * 15.0 + i as real * 0.5) * 0.2;
    var energy := beat + wave + jitter;
    var level := 0.2 + energy * 0.8;
    Clamp(level * bias)
  }

  /**
   * `_generate_audio_levels`: the new target of every bar under `mode`; an unrecognised
   * mode leaves the targets as they were.
   */
  function Regenerate(mode: string, time: real, sin: real -> real, beatDraw: real,
                      draws: seq<real>, prev: seq<real>): (r: seq<real>)
    requires |draws| == NumBars && |prev| == NumBars
    ensures |r| == NumBars
  {
    if mode == "idle" then
      seq(NumBars, i requires 0 <= i < NumBars => IdleTarget(i, time, sin, draws[i]))
    else if mode == "listening" then
      seq(NumBars, i requires 0 <= i < NumBars => ListeningTarget(i, time, sin))
    else if mode == "speaking" then
      var beat := Beat(time, beatDraw);
      seq(NumBars, i requires 0 <= i < NumBars => SpeakingTarget(i, time, sin, beat, draws[i]))
    else if mode == "thinking" then
      seq(NumBars, i requires 0 <= i < NumBars => ThinkingTarget(i, time, sin))
    else
      prev
  }

  predicate KnownMode(mode: string)
  {
    mode == "idle" || mode == "listening" || mode == "speaking" || mode == "thinking"
  }

  /** Under an unrecognised mode regeneration changes nothing. */
  lemma RegenerateUnknownMode(mode: string, time: real, sin: real -> real, beatDraw: real,
                              draws: seq<real>, prev: seq<real>)
    requires |draws| == NumBars && |prev| == NumBars && !KnownMode(mode)
    ensures Regenerate(mode, time, sin, beatDraw, draws, prev) == prev
  {
  }

  /** Idle targets lie in [-0.05, 0.65]. */
  lemma IdleTargetRange(i: int, time: real, sin: real -> real, u: real)
    requires 0 <= i < NumBars && UnitBounded(sin) && UnitDraw(u)
    ensures -0.05 <= IdleTarget(i, time, sin, u) <= 0.65
  {
    assert -1.0 <= sin(time * 2.0 + i as real * 0.1) <= 1.0;
  }

  /** Listening targets lie in [0.2, 0.4]. */
  lemma ListeningTargetRange(i: int, time: real, sin: real -> real)
    requires UnitBounded(sin)
    ensures 0.2 <= ListeningTarget(i, time, sin) <= 0.4
  {
    assert -1.0 <= sin(time * 4.0 + i as real * 0.2) <= 1.0;
  }

  /** Thinking targets lie in [0, 0.8]. */
  lemma ThinkingTargetRange(i: int, time: real, sin: real -> real)
    requires UnitBounded(sin)
    ensures 0.0 <= ThinkingTarget(i, time, sin) <= 0.8
  {
    var angle := (i as real / NumBars as real) * Pi * 2.0;
    assert -1.0 <= sin(angle * 3.0 + time * 8.0) <= 1.0;
  }

  /**
   * After regeneration every target lies in the range of its mode's rule; speaking
   * targets in particular are clamped to [0.05, 1.3].
   */
  lemma RegenerateRange(mode: string, time: real, sin: real -> real, beatDraw: real,
                        draws: seq<real>, prev: seq<real>, i: int)
    requires |draws| == NumBars && |prev| == NumBars && 0 <= i < NumBars
    requires UnitBounded(sin) && forall k :: 0 <= k < NumBars ==> UnitDraw(draws[k])
    ensures var r := Regenerate(mode, time, sin, beatDraw, draws, prev);
            && (mode == "idle" ==> -0.05 <= r[i] <= 0.65)
            && (mode == "listening" ==> 0.2 <= r[i] <= 0.4)
            && (mode == "speaking" ==> LevelMin <= r[i] <= LevelMax)
            && (mode == "thinking" ==> 0.0 <= r[i] <= 0.8)
            && (!KnownMode(mode) ==> r[i] == prev[i])
  {
    if mode == "idle" {
      IdleTargetRange(i, time, sin, draws[i]);
    } else if mode == "listening" {
      ListeningTargetRange(i, time, sin);
    } else if mode == "thinking" {
      ThinkingTargetRange(i, time, sin);
    }
  }

  // ---------------------------------------------------------------- physics

  /** Spring stiffness: 40 while speaking, 10 in every other mode. */
  function Speed(mode: string): (k: real)
    ensures 10.0 <= k <= 40.0
  {
    if mode == "speaking" then 40.0 else 10.0
  }

  /** Velocity damping: 0.5 while speaking, 0.85 in every other mode: each step keeps between half and 85% of the speed. */
  function Damping(mode: string): (d: real)
    ensures 0.5 <= d <= 0.85
  {
    if mode == "speaking" then 0.5 else 0.85
  }

  datatype Bar = Bar(level: real, velocity: real)

  /**
   * One integration step of one bar: accelerate towards the target, damp, move, clamp.
   * Whatever the inputs, the new level lies in [0.05, 1.3].
   */
  function Integrate(mode: string, level: real, velocity: real, target: real, dt: real): (b: Bar)
    ensures LevelMin <= b.level <= LevelMax
  {
    var v := (velocity + (target - level) * Speed(mode) * dt) * Damping(mode);
    Bar(Clamp(level + v * dt), v)
  }

  /** With `dt = 0` a level is only clamped, while the velocity is still damped. */
  lemma IntegrateFrozen(mode: string, level: real, velocity: real, target: real)
    ensures Integrate(mode, level, velocity, target, 0.0) == Bar(Clamp(level), velocity * Damping(mode))
  {
  }

  /** A bar resting on its target, within range, stays there. */
  lemma IntegrateAtRest(mode: string, level: real, dt: real)
    requires LevelMin <= level <= LevelMax
    ensures Integrate(mode, level, 0.0, level, dt) == Bar(level, 0.0)
  {
  }

  // ---------------------------------------------------------------- geometry

  datatype Point = Point(x: real, y: real)

  /** One bar as the renderer receives it: a thick line from `inner` to `outer` in `color`. */
  datatype Segment = Segment(inner: Point, outer: Point, color: Color, width: int)

  /** `(i / N) * 2 pi - pi / 2 + rotation`: bar 0 points straight up before rotation. */
  function BarAngle(i: int, rotation: real): real
  {
    (i as real / NumBars as real) * Pi * 2.0 - Pi / 2.0 + rotation
  }

  /** Drawn length `10 + level * 160`; for a level in [0.05, 1.3] it lies in [18, 218]. */
  function BarHeight(level: real): (h: real)
    ensures LevelMin <= level <= LevelMax ==> 18.0 <= h <= 218.0
  {
    MinHeight + level * MaxHeight
  }

  /** The line for bar `i`: from the radius circle outwards by the bar's height. */
  function BarSegment(cx: int, cy: int, i: int, level: real, rotation: real, color: Color,
                      cos: real -> real, sin: real -> real): Segment
  {
    var angle := BarAngle(i, rotation);
    var height := BarHeight(level);
    Segment(Point(cx as real + cos(angle) * Radius, cy as real + sin(angle) * Radius),
            Point(cx as real + cos(angle) * (Radius + height), cy as real + sin(angle) * (Radius + height)),
            color, BarWidth)
  }

  /**
   * Both ends lie on the bar's ray; the outer end is `BarHeight(level)` further along it.
   * Given `cos^2 + sin^2 = 1`, the inner end lies on the circle of radius 150 round the
   * centre and the outer end on the circle of radius `150 + BarHeight(level)`.
   */
  lemma SegmentAlongRay(cx: int, cy: int, i: int, level: real, rotation: real, color: Color,
                        cos: real -> real, sin: real -> real)
    requires forall x :: cos(x) * cos(x) + sin(x) * sin(x) == 1.0
    ensures var s := BarSegment(cx, cy, i, level, rotation, color, cos, sin);
            var a := BarAngle(i, rotation);
            && s.outer.x - s.inner.x == cos(a) * BarHeight(level)
            && s.outer.y - s.inner.y == sin(a) * BarHeight(level)
            && Square(s.inner.x - cx as real) + Square(s.inner.y - cy as real) == Square(Radius)
            && Square(s.outer.x - cx as real) + Square(s.outer.y - cy as real)
               == Square(Radius + BarHeight(level))
  {
    var a := BarAngle(i, rotation);
    var c, sn := cos(a), sin(a);
    assert c * c + sn * sn == 1.0;
    OnCircle(c, sn, Radius);
    OnCircle(c, sn, Radius + BarHeight(level));
  }

  function Square(x: real): real { x * x }

  /** A point at distance `r` along a unit direction lies on the circle of radius `r`. */
  lemma OnCircle(c: real, s: real, r: real)
    requires c * c + s * s == 1.0
    ensures Square(c * r) + Square(s * r) == Square(r)
  {
    assert Square(c * r) + Square(s * r) == (c * c + s * s) * (r * r);
  }
}
