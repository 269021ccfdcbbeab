/**
 * The circular spectrum animator of ui/visualizer.py as a class over arrays.
 *
 * `colors` is the very array that holds the idle palette, and `targetColors` starts
 * as that array too: easing writes through `colors` into the idle palette itself.
 */
module Visualizer {
  import opened Prelude
  import opened Config
  import opened Spectrum

  /** `_create_tech_gradient`, built by appending in two nested loops and then padding. */
  method BuildTechGradient(n: nat) returns (colors: seq<Color>)
    ensures colors == TechGradient(n)
  {
    colors := [];
    var sections := |KeyColors| - 1;
    var steps := n / sections;
    for i := 0 to sections
      invariant colors == Sections(i, steps)
    {
      var c1, c2 := KeyColors[i], KeyColors[i + 1];
      for j := 0 to steps
        invariant colors == Sections(i, steps) + Section(i, steps)[..j]
      {
        assert Section(i, steps)[..j + 1] == Section(i, steps)[..j] + [Lerp(c1, c2, j, steps)];
        colors := colors + [Lerp(c1, c2, j, steps)];
      }
      assert Section(i, steps)[..steps] == Section(i, steps);
    }
    while |colors| < n
      invariant sections * steps <= |colors| <= n
      invariant colors == Sections(sections, steps) + seq(|colors| - sections * steps, _ => KeyColors[6])
      decreases n - |colors|
    {
      var pad := |colors| - sections * steps;
      assert seq(pad + 1, _ => KeyColors[6]) == seq(pad, _ => KeyColors[6]) + [KeyColors[6]];
      colors := colors + [KeyColors[|KeyColors| - 1]];
    }
  }

  /** `random.random() < refresh_rate`, the rate being 1.0 while speaking and 0.3 otherwise. */
  predicate Refreshes(mode: string, draw: real)
  {
    draw < (if mode == "speaking" then 1.0 else 0.3)
  }

  /** A draw of `random.random()` lies in [0, 1), so speaking frames always regenerate. */
  lemma SpeakingAlwaysRefreshes(draw: real)
    requires 0.0 <= draw < 1.0
    ensures Refreshes("speaking", draw)
  {
  }

  /** `[0.0] * n`: a fresh list of `n` zeros. */
  method Zeros(n: nat) returns (a: array<real>)
    ensures fresh(a) && a.Length == n && forall i :: 0 <= i < n ==> a[i] == 0.0
  {
    a := new real[n](_ => 0.0);
  }

  /** A fresh array holding the colours of a palette, in order. */
  method PaletteArray(palette: seq<Color>) returns (a: array<Color>)
    ensures fresh(a) && a[..] == palette
  {
    a := new Color[|palette|](i requires 0 <= i < |palette| => palette[i]);
  }

  class CircularSpectrum {
    const cx: int
    const cy: int
    const levels: array<real>
    const targetLevels: array<real>
    const velocities: array<real>
    const idlePalette: array<Color>
    const listeningPalette: array<Color>
    const speakingPalette: array<Color>
    const thinkingPalette: array<Color>
    /** The bar colours: the same array as `idlePalette`, never a copy. */
    const colors: array<Color>
    var targetColors: array<Color>
    var time: real
    var rotation: real
    var mode: string
    ghost const Repr: set<object>

    /** The arrays the animator owns. */
    ghost function Footprint(): set<object>
    {
      {levels as object, targetLevels as object, velocities as object, idlePalette as object,
       listeningPalette as object, speakingPalette as object, thinkingPalette as object}
    }

    ghost predicate Valid()
      reads this, Repr
    {
      && Repr == Footprint()
      && levels.Length == NumBars && targetLevels.Length == NumBars && velocities.Length == NumBars
      && idlePalette.Length == NumBars && listeningPalette.Length == NumBars
      && speakingPalette.Length == NumBars && thinkingPalette.Length == NumBars
      && levels != targetLevels && levels != velocities && targetLevels != velocities
      && idlePalette != listeningPalette && idlePalette != speakingPalette
      && idlePalette != thinkingPalette && listeningPalette != speakingPalette
      && listeningPalette != thinkingPalette && speakingPalette != thinkingPalette
      && colors == idlePalette
      && targetColors in {idlePalette, listeningPalette, speakingPalette, thinkingPalette}
      && PaletteOk(idlePalette[..]) && PaletteOk(listeningPalette[..])
      && PaletteOk(speakingPalette[..]) && PaletteOk(thinkingPalette[..])
    }

    /** `color_schemes.get(m)`: the palette registered under a mode name. */
    function Scheme(m: string): Option<array<Color>>
    {
      if m == "idle" then Some(idlePalette)
      else if m == "listening" then Some(listeningPalette)
      else if m == "speaking" then Some(speakingPalette)
      else if m == "thinking" then Some(thinkingPalette)
      else None
    }

    /**
     * `__init__`: levels, targets and velocities all 0, mode "idle", the idle and
     * speaking palettes two separately built tech gradients, and the bar colours and
     * colour targets both the idle palette array. The hue-sweep palettes of the
     * listening and thinking modes are given.
     */
    constructor (centerX: int, centerY: int, listening: seq<Color>, thinking: seq<Color>)
      requires |listening| == NumBars && |thinking| == NumBars
      requires PaletteOk(listening) && PaletteOk(thinking)
      ensures Valid() && fresh(Repr)
      ensures cx == centerX && cy == centerY
      ensures mode == "idle" && time == 0.0 && rotation == 0.0
      ensures forall i :: 0 <= i < NumBars ==>
                levels[i] == 0.0 && targetLevels[i] == 0.0 && velocities[i] == 0.0
      ensures idlePalette[..] == TechGradient(NumBars) && speakingPalette[..] == TechGradient(NumBars)
      ensures listeningPalette[..] == listening && thinkingPalette[..] == thinking
      ensures colors == idlePalette && targetColors == colors
    {
      TechGradientLength(NumBars);
      TechGradientOk(NumBars);
      var idle := BuildTechGradient(NumBars);
      var speaking := BuildTechGradient(NumBars);
      var lv := Zeros(NumBars);
      var tl := Zeros(NumBars);
      var vs := Zeros(NumBars);
      var ip := PaletteArray(idle);
      var lp := PaletteArray(listening);
      var sp := PaletteArray(speaking);
      var tp := PaletteArray(thinking);
      cx, cy := centerX, centerY;
      levels, targetLevels, velocities := lv, tl, vs;
      time, mode, rotation := 0.0, "idle", 0.0;
      idlePalette, listeningPalette, speakingPalette, thinkingPalette := ip, lp, sp, tp;
      colors := ip;
      targetColors := ip;
      Repr := {lv as object, tl as object, vs as object, ip as object, lp as object,
               sp as object, tp as object};
    }

    /**
     * `set_mode`: always records the mode; switches the colour targets only for the four
     * registered mode names. No colour, level, target level or velocity changes.
     */
    method SetMode(m: string)
      requires Valid()
      modifies this
      ensures Valid() && unchanged(Repr)
      ensures mode == m
      ensures targetColors == (if Scheme(m).Some? then Scheme(m).value else old(targetColors))
      ensures time == old(time) && rotation == old(rotation)
    {
      mode := m;
      var scheme := Scheme(m);
      if scheme.Some? {
        targetColors := scheme.value;
      }
    }

    /** The colour-easing loop of `update`, written through `colors` (the idle palette). */
    method EaseColors()
      requires Valid()
      modifies colors
      ensures Valid()
      ensures colors[..] == EaseAll(old(colors[..]), old(targetColors[..]))
    {
      for i := 0 to NumBars
        invariant forall j :: 0 <= j < i ==> colors[j] == Ease(old(colors[j]), old(targetColors[j]))
        invariant forall j :: i <= j < NumBars ==>
                    colors[j] == old(colors[j]) && targetColors[j] == old(targetColors[j])
      {
        var current := colors[i];
        var target := targetColors[i];
        colors[i] := Ease(current, target);
      }
      EaseAllOk(old(colors[..]), old(targetColors[..]));
    }

    /** `_generate_audio_levels`: rewrite every target level by the rule of the current mode. */
    method GenerateAudioLevels(sin: real -> real, beatDraw: real, draws: seq<real>)
      requires Valid() && |draws| == NumBars
      modifies targetLevels
      ensures targetLevels[..] == Regenerate(mode, time, sin, beatDraw, draws, old(targetLevels[..]))
    {
      var t := time;
      if mode == "idle" {
        GenerateIdle(sin, draws);
        assert targetLevels[..] == seq(NumBars, i requires 0 <= i < NumBars => IdleTarget(i, t, sin, draws[i]));
      } else if mode == "listening" {
        GenerateListening(sin);
        assert targetLevels[..] == seq(NumBars, i requires 0 <= i < NumBars => ListeningTarget(i, t, sin));
      } else if mode == "speaking" {
        var beat := 0.0;
        if BeatPhase(time) < 0.1 {
          beat := Uniform(0.3, 0.6, beatDraw);
        }
        GenerateSpeaking(sin, beat, draws);
        assert targetLevels[..]
               == seq(NumBars, i requires 0 <= i < NumBars => SpeakingTarget(i, t, sin, beat, draws[i]));
      } else if mode == "thinking" {
        GenerateThinking(sin);
        assert targetLevels[..] == seq(NumBars, i requires 0 <= i < NumBars => ThinkingTarget(i, t, sin));
      }
    }

    /** The idle branch of `_generate_audio_levels`. */
    method GenerateIdle(sin: real -> real, draws: seq<real>)
      requires Valid() && |draws| == NumBars
      modifies targetLevels
      ensures forall i :: 0 <= i < NumBars ==> targetLevels[i] == IdleTarget(i, time, sin, draws[i])
    {
      for i := 0 to NumBars
        invariant forall j :: 0 <= j < i ==> targetLevels[j] == IdleTarget(j, time, sin, draws[j])
      {
        var shapeFactor := ShapeFactor(NumBars, i, 0.35, 0.1);
        var breath := sin(time * 2.0 + i as real * 0.1) * 0.1;
        targetLevels[i] := shapeFactor * 0.5 + breath + Uniform(0.0, 0.05, draws[i]);
      }
    }

    /** The listening branch of `_generate_audio_levels`. */
    method GenerateListening(sin: real -> real)
      requires Valid()
      modifies targetLevels
      ensures forall i :: 0 <= i < NumBars ==> targetLevels[i] == ListeningTarget(i, time, sin)
    {
      for i := 0 to NumBars
        invariant forall j :: 0 <= j < i ==> targetLevels[j] == ListeningTarget(j, time, sin)
      {
        var base := 0.3 + sin(time * 4.0 + i as real * 0.2) * 0.1;
        targetLevels[i] := base;
      }
    }

    /** The speaking branch of `_generate_audio_levels`, after the shared beat is drawn. */
    method GenerateSpeaking(sin: real -> real, beat: real, draws: seq<real>)
      requires Valid() && |draws| == NumBars
      modifies targetLevels
      ensures forall i :: 0 <= i < NumBars ==>
                targetLevels[i] == SpeakingTarget(i, time, sin, beat, draws[i])
    {
      for i := 0 to NumBars
        invariant forall j :: 0 <= j < i ==>
                    targetLevels[j] == SpeakingTarget(j, time, sin, beat, draws[j])
      {
        targetLevels[i] := SpeakingTarget(i, time, sin, beat, draws[i]);
      }
    }

    /** The thinking branch of `_generate_audio_levels`. */
    method GenerateThinking(sin: real -> real)
      requires Valid()
      modifies targetLevels
      ensures forall i :: 0 <= i < NumBars ==> targetLevels[i] == ThinkingTarget(i, time, sin)
    {
      for i := 0 to NumBars
        invariant forall j :: 0 <= j < i ==> targetLevels[j] == ThinkingTarget(j, time, sin)
      {
        var angle := (i as real / NumBars as real) * Pi * 2.0;
        var wave := sin(angle * 3.0 + time * 8.0) * 0.4;
        targetLevels[i] := 0.4 + wave;
      }
    }

    /** The physics loop of `update`: one `Integrate` step per bar. */
    method StepPhysics(dt: real)
      requires Valid()
      modifies levels, velocities
      ensures Valid()
      ensures forall i :: 0 <= i < NumBars ==>
                Bar(levels[i], velocities[i])
                == Integrate(mode, old(levels[i]), old(velocities[i]), targetLevels[i], dt)
    {
      for i := 0 to NumBars
        invariant forall j :: 0 <= j < i ==>
                    Bar(levels[j], velocities[j])
                    == Integrate(mode, old(levels[j]), old(velocities[j]), targetLevels[j], dt)
        invariant forall j :: i <= j < NumBars ==>
                    levels[j] == old(levels[j]) && velocities[j] == old(velocities[j])
      {
        var bar := Integrate(mode, levels[i], velocities[i], targetLevels[i], dt);
        velocities[i] := bar.velocity;
        levels[i] := bar.level;
      }
    }

    /**
     * `update(dt)`: advance the clock and rotation, ease every colour a tenth of the way
     * to its target, regenerate the targets when the refresh draw says so, then integrate.
     * Every level ends in [0.05, 1.3] whatever `dt`, targets or velocities were.
     */
    method Update(dt: real, refreshDraw: real, sin: real -> real, beatDraw: real, draws: seq<real>)
      requires Valid()
      requires 0.0 <= refreshDraw < 1.0 && |draws| == NumBars
      modifies this, colors, targetLevels, levels, velocities
      ensures Valid()
      ensures time == old(time) + dt && rotation == old(rotation) + dt * 0.1
      ensures mode == old(mode) && targetColors == old(targetColors)
      ensures colors[..] == EaseAll(old(colors[..]), old(targetColors[..]))
      ensures old(targetColors) == colors ==> colors[..] == old(colors[..])
      ensures listeningPalette[..] == old(listeningPalette[..])
      ensures speakingPalette[..] == old(speakingPalette[..])
      ensures thinkingPalette[..] == old(thinkingPalette[..])
      ensures targetLevels[..]
              == if Refreshes(mode, refreshDraw)
                 then Regenerate(mode, time, sin, beatDraw, draws, old(targetLevels[..]))
                 else old(targetLevels[..])
      ensures forall i :: 0 <= i < NumBars ==>
                Bar(levels[i], velocities[i])
                == Integrate(mode, old(levels[i]), old(velocities[i]), targetLevels[i], dt)
      ensures forall i :: 0 <= i < NumBars ==> LevelMin <= levels[i] <= LevelMax
    {
      time := time + dt;
      rotation := rotation + dt * 0.1;
      EaseColors();
      EaseAllFixed(old(colors[..]));
      var refreshRate := if mode == "speaking" then 1.0 else 0.3;
      if refreshDraw < refreshRate {
        GenerateAudioLevels(sin, beatDraw, draws);
      }
      StepPhysics(dt);
    }

    /**
     * The numbers `_draw_bars` hands to the renderer: for each bar its inner and outer
     * end on the bar's ray and its current colour.
     */
    method Segments(cos: real -> real, sin: real -> real) returns (segments: seq<Segment>)
      requires Valid()
      ensures |segments| == NumBars
      ensures forall i :: 0 <= i < NumBars ==>
                segments[i] == BarSegment(cx, cy, i, levels[i], rotation, colors[i], cos, sin)
    {
      segments := [];
      for i := 0 to NumBars
        invariant |segments| == i
        invariant forall j :: 0 <= j < i ==>
                    segments[j] == BarSegment(cx, cy, j, levels[j], rotation, colors[j], cos, sin)
      {
        var angle := BarAngle(i, rotation);
        var height := BarHeight(levels[i]);
        var inner := Point(cx as real + cos(angle) * Radius, cy as real + sin(angle) * Radius);
        var outer := Point(cx as real + cos(angle) * (Radius + height),
                           cy as real + sin(angle) * (Radius + height));
        assert Segment(inner, outer, colors[i], BarWidth)
               == BarSegment(cx, cy, i, levels[i], rotation, colors[i], cos, sin);
        segments := segments + [Segment(inner, outer, colors[i], BarWidth)];
      }
    }
  }
}
