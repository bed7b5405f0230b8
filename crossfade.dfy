/** The inner-panel crossfade engine shared by `innerCrossfadePalette` and
    `innerCrossfadeTwoColorCore`: the master beat rescaled to a cycle, the
    front panel's phase offset, the two eased triangle envelopes of a panel,
    and the palette-stepping latch. */
module Crossfade {
  import opened Ints
  import opened FastLed

  /** A crossfade's timing constants (its BPM, 15 in both patterns, only
      feeds `beat8`, which is an input of the model). */
  datatype Config = Config(cycle: u8, offset: u8, duration1: u8, duration2: u8)

  const PaletteConfig := Config(160, 60, 100, 100)
  const TwoColorConfig := Config(120, 40, 75, 75)

  /** The constants the engine can run with: a non-empty cycle, and no
      one-step window (its `map` would divide by zero). */
  predicate WellFormed(c: Config)
  {
    c.cycle > 0 && c.duration1 != 1 && c.duration2 != 1
  }

  /** `back_beat = map(beat8(BPM), 0, 255, 0, T)`: the master beat rescaled
      to the closed range [0, T]; it reaches T only at the last beat8 step. */
  function BackBeat(beat8: u8, cycle: u8): (r: u8)
    requires cycle > 0
    ensures r <= cycle
    ensures r == cycle <==> beat8 == 255
    ensures beat8 == 0 ==> r == 0
  {
    MapOntoRange(beat8, 255, cycle);
    ToU8(ArduinoMap(beat8, 0, 255, 0, cycle))
  }

  /** `front_beat = (back_beat + offset) % T`: always inside [0, T). */
  function FrontBeat(back: u8, offset: u8, cycle: u8): (r: u8)
    requires cycle > 0
    ensures r < cycle
    ensures back + offset < cycle ==> r == back + offset
  {
    ModOfSmall(back + offset, cycle);
    (back + offset) % cycle
  }

  /** `start2 = (duration1 / 2) - (duration1 / 4)`: the second window opens
      while the first is still open. */
  function SecondStart(d1: u8): (s: u8)
    ensures d1 > 0 ==> s < d1
    ensures s <= d1 / 2
  {
    d1 / 2 - d1 / 4
  }

  /** `map(progress, 0, duration - 1, 0, 255)` inside a window: 0 at the
      window's first step, 255 at its last, strictly between elsewhere. */
  function Ramp(progress: int, duration: u8): (r: u8)
    requires 0 <= progress < duration && duration != 1
    ensures progress == 0 ==> r == 0
    ensures progress == duration - 1 ==> r == 255
    ensures 0 < progress < duration - 1 ==> 0 < r < 255
  {
    MapOntoRange(progress, duration - 1, 255);
    ArduinoMap(progress, 0, duration - 1, 0, 255)
  }

  /** The ramp never goes back within a window. */
  lemma RampMonotone(p: int, q: int, duration: u8)
    requires 0 <= p <= q < duration && duration != 1
    ensures Ramp(p, duration) <= Ramp(q, duration)
  {
    MapMonotone(p, q, duration - 1, 255);
  }

  /** A panel's two brightness outputs. */
  datatype Envelope = Envelope(first: u8, second: u8)

  /** The `calculatePanelAnimation` / `calculatePanelBrightness` lambda: both
      outputs start at 0 and each is set to the eased triangle of its ramp
      only while the beat is inside its window: the first window is
      [0, d1), the second [start2, start2 + d2), and an output is dark
      whenever the beat is outside its window. */
  function PanelEnvelope(lib: Library, beat: u8, d1: u8, d2: u8): (e: Envelope)
    requires d1 != 1 && d2 != 1
    ensures beat >= d1 ==> e.first == 0
    ensures beat < SecondStart(d1) || beat >= SecondStart(d1) + d2 ==> e.second == 0
  {
    var s2 := SecondStart(d1);
    Envelope(
      if beat < d1 then lib.ease8InOutCubic(lib.triwave8(Ramp(beat, d1))) else 0,
      if s2 <= beat < s2 + d2 then lib.ease8InOutCubic(lib.triwave8(Ramp(beat - s2, d2))) else 0)
  }

  /** Both windows end inside the cycle. */
  predicate WindowsFit(c: Config)
  {
    c.duration1 <= c.cycle && SecondStart(c.duration1) + c.duration2 <= c.cycle
  }

  /** The constants of both crossfade patterns: second windows open at 25
      (d1 = 100) and 19 (d1 = 75), and all windows end inside the cycle. */
  lemma ShippedConfigs()
    ensures WellFormed(PaletteConfig) && WindowsFit(PaletteConfig)
    ensures WellFormed(TwoColorConfig) && WindowsFit(TwoColorConfig)
    ensures SecondStart(PaletteConfig.duration1) == 25
    ensures SecondStart(TwoColorConfig.duration1) == 19
  {
  }

  /** When beat8 is 255 the back beat equals T, past both windows, so the
      back panel is dark in that frame. */
  lemma DarkAtCycleEnd(lib: Library, c: Config)
    requires WellFormed(c) && WindowsFit(c)
    ensures BackBeat(255, c.cycle) == c.cycle
    ensures PanelEnvelope(lib, BackBeat(255, c.cycle), c.duration1, c.duration2) == Envelope(0, 0)
  {
  }

  /** The front panel's beat is the back panel's beat shifted by the
      offset around the cycle: the same beat8 never puts the two panels at
      the same point of their cycle unless the offset is a whole cycle. */
  lemma PanelsOutOfPhase(beat8: u8, c: Config)
    requires WellFormed(c) && 0 < c.offset < c.cycle
    ensures var back := BackBeat(beat8, c.cycle);
            back < c.cycle ==> FrontBeat(back, c.offset, c.cycle) != back
  {
    var back := BackBeat(beat8, c.cycle);
    if back < c.cycle {
      var s := back + c.offset;
      if s >= c.cycle {
        DivModUnique(s, c.cycle, 1, s - c.cycle);
      }
    }
  }

  // ---- Palette-stepping latch (innerCrossfadePalette) ----

  const PALETTE_STEP := 50

  /** One panel's `*_palette_index` and `*_is_active` statics. */
  datatype PanelLatch = PanelLatch(index: u8, active: bool)

  /** One frame of the latch: a new cycle is caught when the beat is below 2
      and the latch is clear; the latch clears once the beat is above 2. */
  function LatchStep(l: PanelLatch, beat: u8): (r: PanelLatch)
    ensures r.index == l.index || r.index == (l.index + 100) % 256
  {
    if beat < 2 && !l.active then PanelLatch(ToU8(l.index + PALETTE_STEP * 2), true)
    else if beat > 2 then PanelLatch(l.index, false)
    else l
  }

  /** The index moves, by exactly 100 modulo 256, precisely on a caught
      cycle start; the latch is cleared only by a beat above 2, and a beat
      of exactly 2 changes nothing. */
  lemma LatchStepCases(l: PanelLatch, beat: u8)
    ensures LatchStep(l, beat).index != l.index <==> beat < 2 && !l.active
    ensures LatchStep(l, beat).index != l.index ==> LatchStep(l, beat).index == (l.index + 100) % 256
    ensures l.active && !LatchStep(l, beat).active ==> beat > 2
    ensures beat == 2 ==> LatchStep(l, beat) == l
    ensures LatchStep(l, beat).active <==> beat < 2 || (beat == 2 && l.active)
  {
  }

  /** The latch after a run of consecutive frames. */
  function LatchRun(l: PanelLatch, beats: seq<u8>): PanelLatch
    decreases |beats|
  {
    if |beats| == 0 then l else LatchRun(LatchStep(l, beats[0]), beats[1..])
  }

  /** However many consecutive frames the beat stays below 2, the palette
      index advances at most once: exactly once if the latch was clear. */
  lemma {:induction false} NearZeroRunAdvancesOnce(l: PanelLatch, beats: seq<u8>)
    requires forall i :: 0 <= i < |beats| ==> beats[i] < 2
    ensures LatchRun(l, beats) ==
      if |beats| == 0 || l.active then l else PanelLatch((l.index + 100) % 256, true)
    decreases |beats|
  {
    if |beats| > 0 {
      var l' := LatchStep(l, beats[0]);
      assert l'.active;
      NearZeroRunAdvancesOnce(l', beats[1..]);
      if |beats| > 1 {
        assert LatchRun(l', beats[1..]) == l';
      }
    }
  }

  /** A panel pixel: the colour scaled by its envelope value, which is first
      scaled by the panel's brightness ceiling. */
  function PanelPixel(lib: Library, color: RGB, brightness: u8, ceiling: u8): RGB
  {
    NScale8(lib, color, lib.scale8(brightness, ceiling))
  }
}
