/** The firmware's state and frame logic: the globals of the sketch and the
    `static` state of every pattern, held by one object that owns the frame
    buffer, with one method per pattern, the pattern advance and one pass
    of the main loop. */
module Firmware {
  import opened Ints
  import opened FastLed
  import opened Segments
  import opened Timing
  import opened Crossfade
  import opened Ring
  import opened Selection

  datatype Option<T> = None | Some(value: T)

  const BRIGHTNESS_OUTER: u8 := 15
  const BRIGHTNESS_INNER_FRONT: u8 := 20
  const BRIGHTNESS_INNER_BACK: u8 := 25
  /** `pulseHeadBrightness`: a global that nothing ever writes. */
  const PULSE_HEAD_BRIGHTNESS: u8 := 255
  /** `headLuma` of `outerComet`: `BRIGHTNESS_OUTER - 5`, also never written. */
  const HEAD_LUMA: u8 := BRIGHTNESS_OUTER - 5

  /** What the clock and FastLED's oscillators give one frame. */
  datatype FrameInputs = FrameInputs(
    millis: u32,       // millis()
    beat8: u8,         // beat8(15), read by both crossfade patterns
    wispySpeed: u16,   // beatsin16(15, 30, 150) in wispyRainbow
    wmPos: u16,        // beatsin16(wmSpeed, 0, leds_outer.len - 1)
    wmBri: u8,         // beatsin8(wmSpeed * 2, wmIntensity / 4, wmIntensity)
    sinelonPosA: u16,  // beatsin16(beatA, 0, leds_outer.len - 1)
    sinelonPosB: u16,  // beatsin16(beatB, 0, leds_outer.len - 1)
    bpmBeat: u8)       // beatsin8(32, 64, 255) in bpm and bpmFlood
  {
    /** The ring positions are pixels of the ring: `beatsin16(_, 0, 15)`
        stays within [0, 15]. */
    predicate OnRing()
    {
      wmPos < OUTER_LEN && sinelonPosA < OUTER_LEN && sinelonPosB < OUTER_LEN
    }
  }

  /** An 8-bit counter bumped when its gate fired. */
  function Bump(x: u8, fired: bool): u8
  {
    if fired then ToU8(x + 1) else x
  }

  /** The tail step of a gate tick: every channel times 0.99 when it fired. */
  function Tail(c: RGB, fired: bool): RGB
  {
    if fired then DecayColor(c) else c
  }

  /** A ring pixel of `outerRainbow` / `wispyRainbow` before the heads: the
      rainbow palette at the pixel's index, scaled to the outer ceiling. */
  function RainbowPixel(lib: Library, hue: u8, k: int): RGB
  {
    NScale8(lib, lib.colorFromPalette(RainbowLoopAgroGamma, RingColorIndex(hue, k), 110), BRIGHTNESS_OUTER)
  }

  /** Is k one of the two heads at `head`? */
  predicate IsHead(head: nat, k: int)
    requires head < OUTER_LEN
  {
    k == head || k == OppositeHead(head)
  }

  /** A ring pixel of `dualSinePulsePattern` before the tail step. */
  function PulsePixel(lib: Library, color: RGB, head: nat, k: int): RGB
    requires head < OUTER_LEN
  {
    if IsHead(head, k) then Times(lib, color, PULSE_HEAD_BRIGHTNESS) else color
  }

  /** A ring pixel of `wispyRainbow` before the tail step. */
  function WispyPixel(lib: Library, hue: u8, head: nat, k: int): RGB
    requires head < OUTER_LEN
  {
    if IsHead(head, k) then Times(lib, RainbowPixel(lib, hue, k), PULSE_HEAD_BRIGHTNESS)
    else RainbowPixel(lib, hue, k)
  }

  /** The colour written at a comet in round i of `sinelonDualEffect`'s loop. */
  function SinelonColor(lib: Library, index: u8, i: int): RGB
  {
    lib.colorFromPalette(RainbowSherbetAgroGamma, RingColorIndex(index, i), 110)
  }

  /** The loop rewrites both comet pixels in each of its sixteen rounds, so
      the colours left are those of round 15, whose palette indices keep the
      127-step gap between the two comets. */
  lemma SinelonLastRoundKeepsGap(indexA: u8, indexB: u8)
    requires SinelonGap(indexA, indexB)
    ensures SinelonGap(RingColorIndex(indexA, OUTER_LEN - 1), RingColorIndex(indexB, OUTER_LEN - 1))
  {
  }

  /** `ColorFromPalette(myRainbowPalette, index + step, 255)`: the index
      sum is truncated to the 8-bit palette index. */
  function PaletteColor(lib: Library, index: u8, step: int): RGB
  {
    lib.colorFromPalette(RainbowLoopAgroGamma, ToU8(index + step), 255)
  }

  /** `innerHuePosition - 127` as a CHSV hue. */
  function DiametricHue(hue: u8): u8
  {
    ToU8(hue - 127)
  }

  /** The back panel's hue stays 127 steps behind the front's, around the
      256-step hue wheel (roughly half a turn, 180 degrees). */
  lemma DiametricHueOpposite(hue: u8)
    ensures (hue - DiametricHue(hue)) % 256 == 127
    ensures DiametricHue(hue) != hue
  {
  }

  /** The palette `washingMachineEffect` renders with when its function-local
      `static` palette has already been initialised by an earlier call. */
  function LatchedPalette(latch: Option<Palette>, argument: Palette): Palette
  {
    if latch.Some? then latch.value else argument
  }

  /** The source as written: after `wmTiamat` has run once, `wmYelmag`
      renders with the Tiamat palette, not the Yelmag one it passes. */
  lemma WashingMachinePaletteLatched()
    ensures var first := LatchedPalette(None, TiamatAgroGamma);
            LatchedPalette(Some(first), YelmagAgroGamma) == TiamatAgroGamma
    ensures TiamatAgroGamma != YelmagAgroGamma
  {
  }

  /** No two call sites share a timer. */
  ghost predicate GatesDistinct(gates: seq<Gate>)
  {
    forall i, j :: 0 <= i < j < |gates| ==> gates[i] != gates[j]
  }

  // ---- The pattern tables as specifications ----

  /** The state the outer patterns read and write: `outerHuePosition`,
      `outerLEDPosition`, the statics of `wispyRainbow`, `sinelonDualEffect`
      and `washingMachineEffect`, and the last-fired times of the timers
      the table's outer patterns use. */
  datatype OuterStatics = OuterStatics(
    hue: u8, head: int, lastMoveTime: u16, sinelonA: u8, sinelonB: u8, wmLatch: Option<Palette>,
    pulseMoveLast: u32, pulseTailLast: u32, wispyHueLast: u32, wispyTailLast: u32, sinelonLast: u32)
  {
    predicate OnRing()
    {
      0 <= head < OUTER_LEN
    }
  }

  /** The statics of `innerCrossfadePalette`: one latch per panel. */
  datatype InnerStatics = InnerStatics(back: PanelLatch, front: PanelLatch)

  /** The outer statics at power-up, every timer started at `now`. */
  function InitialOuter(now: u32): OuterStatics
  {
    OuterStatics(0, 0, 0, 0, 127, None, now, now, now, now, now)
  }

  /** The inner statics at power-up. */
  const InitialInner := InnerStatics(PanelLatch(0, false), PanelLatch(1, false))

  /** The base colour of the four `dualSinePulsePattern` entries: `daylight`,
      `berlinMode`, `cyanMode` and `magentaMode`. */
  function PulseColor(p: OuterPattern): RGB
  {
    match p
    case BerlinMode => RGB(10, 0, 0)
    case CyanMode => RGB(0, 10, 10)
    case MagentaMode => RGB(10, 0, 10)
    case _ => RGB(10, 10, 10)
  }

  predicate IsPulse(p: OuterPattern)
  {
    p == Daylight || p == BerlinMode || p == CyanMode || p == MagentaMode
  }

  /** The palette a washing-machine entry passes. */
  function WashPalette(p: OuterPattern): Palette
  {
    if p == WmTiamat then TiamatAgroGamma else YelmagAgroGamma
  }

  /** Ring pixel k after outer entry `p` runs from statics `s`, where the
      pixel held `prev` before. */
  function OuterPixel(lib: Library, p: OuterPattern, inp: FrameInputs, s: OuterStatics, prev: RGB, k: nat): RGB
    requires s.OnRing() && inp.OnRing() && k < OUTER_LEN
  {
    match p
    case WispyRainbow =>
      Tail(WispyPixel(lib, s.hue, s.head, k), Fires(50, s.wispyTailLast, inp.millis))
    case Daylight | BerlinMode | CyanMode | MagentaMode =>
      Tail(PulsePixel(lib, PulseColor(p), s.head, k), Fires(50, s.pulseTailLast, inp.millis))
    case WmTiamat | WmYelmag =>
      if IsHead(inp.wmPos as nat, k)
      then lib.colorFromPalette(LatchedPalette(s.wmLatch, WashPalette(p)), WashingColorIndex(inp.wmPos as nat), inp.wmBri)
      else lib.fadeToBlackBy(prev, 20)
    case SinelonDualEffect =>
      if k == inp.sinelonPosB as nat then SinelonColor(lib, s.sinelonB, OUTER_LEN - 1)
      else if k == inp.sinelonPosA as nat then SinelonColor(lib, s.sinelonA, OUTER_LEN - 1)
      else lib.fadeToBlackBy(prev, 20)
    case Bpm =>
      lib.colorFromPalette(RainbowLoopAgroGamma, RingColorIndex(s.hue, k), BpmBrightness(inp.bpmBeat, k))
    case BpmFlood =>
      lib.colorFromPalette(RainbowLoopAgroGamma, inp.bpmBeat, 150)
  }

  /** The outer statics after outer entry `p` runs from `s`. */
  function OuterStep(p: OuterPattern, inp: FrameInputs, s: OuterStatics): (r: OuterStatics)
    requires s.OnRing()
    ensures r.OnRing()
  {
    match p
    case WispyRainbow =>
      var due := MoveDue(s.lastMoveTime, ToU16(inp.millis), inp.wispySpeed);
      s.(hue := Bump(s.hue, Fires(20, s.wispyHueLast, inp.millis)),
         head := if due then NextHead(s.head) else s.head,
         lastMoveTime := if due then ToU16(inp.millis) else s.lastMoveTime,
         wispyHueLast := GateAfter(20, s.wispyHueLast, inp.millis),
         wispyTailLast := GateAfter(50, s.wispyTailLast, inp.millis))
    case Daylight | BerlinMode | CyanMode | MagentaMode =>
      s.(head := if Fires(150, s.pulseMoveLast, inp.millis) then NextHead(s.head) else s.head,
         pulseMoveLast := GateAfter(150, s.pulseMoveLast, inp.millis),
         pulseTailLast := GateAfter(50, s.pulseTailLast, inp.millis))
    case WmTiamat | WmYelmag =>
      s.(wmLatch := Some(LatchedPalette(s.wmLatch, WashPalette(p))))
    case SinelonDualEffect =>
      var fired := Fires(20, s.sinelonLast, inp.millis);
      s.(sinelonA := Bump(s.sinelonA, fired), sinelonB := Bump(s.sinelonB, fired),
         sinelonLast := GateAfter(20, s.sinelonLast, inp.millis))
    case Bpm | BpmFlood => s
  }

  /** The two colours of a two-colour crossfade entry, back panel first. */
  function TwoColors(p: InnerPattern): (RGB, RGB)
  {
    match p
    case InnerCrossfadeOrangeCyan => (Orange, Cyan)
    case InnerCrossfadeMagentaTurquoise => (Magenta, Turquoise)
    case InnerCrossfadeGoldPink => (Gold, DeepPink)
    case _ => (Red, White)
  }

  /** The inner statics after inner entry `p` runs from `s` on `beat8`. */
  function InnerStep(p: InnerPattern, beat8: u8, s: InnerStatics): InnerStatics
  {
    if p == InnerCrossfadePalette then
      var back := BackBeat(beat8, PaletteConfig.cycle);
      var front := FrontBeat(back, PaletteConfig.offset, PaletteConfig.cycle);
      InnerStatics(LatchStep(s.back, back), LatchStep(s.front, front))
    else s
  }

  /** Panel pixel k after inner entry `p` runs from `s` on `beat8`. Every
      inner entry rewrites all four panel pixels. */
  function InnerPixel(lib: Library, p: InnerPattern, beat8: u8, s: InnerStatics, k: nat): RGB
    requires OUTER_LEN <= k < NUM_LEDS
  {
    var c := if p == InnerCrossfadePalette then PaletteConfig else TwoColorConfig;
    var back := BackBeat(beat8, c.cycle);
    var front := FrontBeat(back, c.offset, c.cycle);
    var eb := PanelEnvelope(lib, back, c.duration1, c.duration2);
    var ef := PanelEnvelope(lib, front, c.duration1, c.duration2);
    var n := InnerStep(p, beat8, s);
    var (b1, b2, f1, f2) :=
      if p == InnerCrossfadePalette
      then (PaletteColor(lib, n.back.index, 0), PaletteColor(lib, n.back.index, PALETTE_STEP),
            PaletteColor(lib, n.front.index, 0), PaletteColor(lib, n.front.index, PALETTE_STEP))
      else (TwoColors(p).0, TwoColors(p).0, TwoColors(p).1, TwoColors(p).1);
    if k == InnerBack.First() then PanelPixel(lib, b1, eb.first, BRIGHTNESS_INNER_BACK)
    else if k == InnerBack.Last() then PanelPixel(lib, b2, eb.second, BRIGHTNESS_INNER_BACK)
    else if k == InnerFront.First() then PanelPixel(lib, f1, ef.first, BRIGHTNESS_INNER_FRONT)
    else PanelPixel(lib, f2, ef.second, BRIGHTNESS_INNER_FRONT)
  }

  /** Pixel k of the frame one pass of `loop` draws with entries `outer`
      and `inner`, where the pixel held `prev` before they ran. */
  function FramePixel(lib: Library, outer: OuterPattern, inner: InnerPattern, inp: FrameInputs,
                      so: OuterStatics, si: InnerStatics, prev: RGB, k: nat): RGB
    requires so.OnRing() && inp.OnRing() && k < NUM_LEDS
  {
    if k < OUTER_LEN then OuterPixel(lib, outer, inp, so, prev, k) else InnerPixel(lib, inner, inp.beat8, si, k)
  }

  /** As written, once `wmTiamat` has run, a later `wmYelmag` frame keeps
      the Tiamat palette and draws its heads in Tiamat colours. */
  lemma YelmagAfterTiamatDrawsTiamat(lib: Library, s: OuterStatics, inp1: FrameInputs, inp2: FrameInputs, prev: RGB)
    requires s.OnRing() && inp1.OnRing() && inp2.OnRing() && s.wmLatch == None
    ensures var s1 := OuterStep(WmTiamat, inp1, s);
            && OuterStep(WmYelmag, inp2, s1).wmLatch == Some(TiamatAgroGamma)
            && OuterPixel(lib, WmYelmag, inp2, s1, prev, inp2.wmPos as nat)
               == lib.colorFromPalette(TiamatAgroGamma, WashingColorIndex(inp2.wmPos as nat), inp2.wmBri)
  {
  }

  class Luma {
    const lib: Library
    /** `leds_raw` with its views `leds_outer`, `leds_inner_front`, `leds_inner_back`. */
    const frame: FrameBuffer

    var outerCurrentPattern: u8
    var innerCurrentPattern: u8
    var outerHuePosition: u8
    var innerHuePosition: u8
    var outerLEDPosition: int
    /** The last values written to EEPROM addresses 0 and 1. */
    ghost var eepromOuter: u8
    ghost var eepromInner: u8

    // One `EVERY_N_MILLISECONDS` object per call site.
    const rainbowHueGate: Gate    // outerRainbow, 20 ms
    const pulseMoveGate: Gate     // dualSinePulsePattern, 150 ms
    const pulseTailGate: Gate     // dualSinePulsePattern, 50 ms
    const wispyHueGate: Gate      // wispyRainbow, 20 ms
    const wispyTailGate: Gate     // wispyRainbow, 50 ms
    const sinelonIndexGate: Gate  // sinelonDualEffect, 20 ms
    const cometMoveGate: Gate     // outerComet, 150 ms
    const cometTailGate: Gate     // outerComet, 50 ms
    const diametricHueGate: Gate  // innerDiametricFade, 100 ms

    // Function-local statics.
    var lastMoveTime: u16             // wispyRainbow
    var sinelonIndexA: u8             // sinelonDualEffect
    var sinelonIndexB: u8
    var wmPaletteLatch: Option<Palette>  // washingMachineEffect, as written
    var backPaletteIndex: u8          // innerCrossfadePalette
    var frontPaletteIndex: u8
    var backIsActive: bool
    var frontIsActive: bool

    ghost predicate Valid()
      reads this
    {
      && frame.leds.Length == NUM_LEDS
      && outerCurrentPattern < PATTERN_COUNT && innerCurrentPattern < PATTERN_COUNT
      && 0 <= outerLEDPosition < OUTER_LEN
      && SinelonGap(sinelonIndexA, sinelonIndexB)
      && rainbowHueGate.period == 20 && pulseMoveGate.period == 150 && pulseTailGate.period == 50
      && wispyHueGate.period == 20 && wispyTailGate.period == 50 && sinelonIndexGate.period == 20
      && cometMoveGate.period == 150 && cometTailGate.period == 50 && diametricHueGate.period == 100
      && GatesDistinct(Gates())
    }

    /** The nine `EVERY_N_MILLISECONDS` sites, in source order. */
    function Gates(): seq<Gate>
      reads this
    {
      [rainbowHueGate, pulseMoveGate, pulseTailGate, wispyHueGate, wispyTailGate,
       sinelonIndexGate, cometMoveGate, cometTailGate, diametricHueGate]
    }

    /** The outer patterns' state, as one value. */
    function OuterState(): OuterStatics
      reads this, pulseMoveGate, pulseTailGate, wispyHueGate, wispyTailGate, sinelonIndexGate
    {
      OuterStatics(outerHuePosition, outerLEDPosition, lastMoveTime, sinelonIndexA, sinelonIndexB, wmPaletteLatch,
                   pulseMoveGate.last, pulseTailGate.last, wispyHueGate.last, wispyTailGate.last, sinelonIndexGate.last)
    }

    /** The inner patterns' state, as one value. */
    function InnerState(): InnerStatics
      reads this
    {
      InnerStatics(PanelLatch(backPaletteIndex, backIsActive), PanelLatch(frontPaletteIndex, frontIsActive))
    }

    /** Power-up: the globals' and statics' initial values, then `setup`'s
        EEPROM read and bounds check. The corrected index is not written
        back. Every gate starts its first interval at `now`. */
    constructor Setup(lib: Library, storedOuter: u8, storedInner: u8, now: u32)
      ensures Valid() && fresh(frame) && fresh(frame.leds) && this.lib == lib
      ensures fresh(rainbowHueGate) && fresh(pulseMoveGate) && fresh(pulseTailGate)
      ensures fresh(wispyHueGate) && fresh(wispyTailGate) && fresh(sinelonIndexGate)
      ensures fresh(cometMoveGate) && fresh(cometTailGate) && fresh(diametricHueGate)
      ensures outerCurrentPattern == BoundsCorrect(storedOuter)
      ensures innerCurrentPattern == BoundsCorrect(storedInner)
      ensures eepromOuter == storedOuter && eepromInner == storedInner
      ensures forall k :: 0 <= k < NUM_LEDS ==> frame.leds[k] == Black
      ensures outerHuePosition == 0 && innerHuePosition == 0 && outerLEDPosition == 0
      ensures lastMoveTime == 0 && sinelonIndexA == 0 && sinelonIndexB == 127 && wmPaletteLatch == None
      ensures backPaletteIndex == 0 && frontPaletteIndex == 1 && !backIsActive && !frontIsActive
      ensures rainbowHueGate.last == now && pulseMoveGate.last == now && pulseTailGate.last == now
      ensures wispyHueGate.last == now && wispyTailGate.last == now && sinelonIndexGate.last == now
      ensures cometMoveGate.last == now && cometTailGate.last == now && diametricHueGate.last == now
    {
      this.lib := lib;
      frame := new FrameBuffer();
      rainbowHueGate := new Gate(20, now);
      pulseMoveGate := new Gate(150, now);
      pulseTailGate := new Gate(50, now);
      wispyHueGate := new Gate(20, now);
      wispyTailGate := new Gate(50, now);
      sinelonIndexGate := new Gate(20, now);
      cometMoveGate := new Gate(150, now);
      cometTailGate := new Gate(50, now);
      diametricHueGate := new Gate(100, now);
      outerHuePosition, innerHuePosition, outerLEDPosition := 0, 0, 0;
      lastMoveTime, sinelonIndexA, sinelonIndexB := 0, 0, 127;
      wmPaletteLatch := None;
      backPaletteIndex, frontPaletteIndex := 0, 1;
      backIsActive, frontIsActive := false, false;
      eepromOuter, eepromInner := storedOuter, storedInner;
      var outer, inner := storedOuter, storedInner;
      if outer >= PATTERN_COUNT {
        outer := 0;
      }
      if inner >= PATTERN_COUNT {
        inner := 0;
      }
      outerCurrentPattern, innerCurrentPattern := outer, inner;
    }

    // ---- Pattern selection ----

    /** `outerPatternAdvance`: next outer pattern, saved to EEPROM. */
    method OuterPatternAdvance()
      requires Valid()
      modifies this`outerCurrentPattern, this`eepromOuter
      ensures Valid()
      ensures outerCurrentPattern == Advance(old(outerCurrentPattern))
      ensures eepromOuter == outerCurrentPattern
    {
      outerCurrentPattern := ToU8((outerCurrentPattern + 1) % |OuterPatternList|);
      eepromOuter := outerCurrentPattern;
    }

    /** `innerPatternAdvance`: next inner pattern, saved to EEPROM. */
    method InnerPatternAdvance()
      requires Valid()
      modifies this`innerCurrentPattern, this`eepromInner
      ensures Valid()
      ensures innerCurrentPattern == Advance(old(innerCurrentPattern))
      ensures eepromInner == innerCurrentPattern
    {
      innerCurrentPattern := ToU8((innerCurrentPattern + 1) % |InnerPatternList|);
      eepromInner := innerCurrentPattern;
    }

    // ---- Outer patterns ----

    /** The rainbow loop shared by `outerRainbow` and `wispyRainbow`: ring
        pixel i from the rainbow palette at `RingColorIndex(hue, i)`, then the
        whole ring scaled to the outer ceiling. */
    method PaintRainbowRing()
      requires Valid()
      modifies frame.leds
      ensures forall k :: 0 <= k < NUM_LEDS ==>
        frame.leds[k] == if k < OUTER_LEN then RainbowPixel(lib, outerHuePosition, k) else old(frame.leds[k])
    {
      var i := 0;
      while i < OUTER_LEN
        invariant 0 <= i <= OUTER_LEN
        invariant forall k :: 0 <= k < NUM_LEDS ==>
          frame.leds[k] == if k < i then lib.colorFromPalette(RainbowLoopAgroGamma, RingColorIndex(outerHuePosition, k), 110)
                           else old(frame.leds[k])
      {
        frame.Set(Outer, i, lib.colorFromPalette(RainbowLoopAgroGamma, RingColorIndex(outerHuePosition, i), 110));
        i := i + 1;
      }
      frame.SetSegBrightness(lib, Outer, BRIGHTNESS_OUTER);
    }

    /** `outerRainbow`: the scaled rainbow on the ring; the hue advances by
        one each time the 20 ms gate fires. */
    method OuterRainbow(now: u32)
      requires Valid()
      modifies frame.leds, this`outerHuePosition, rainbowHueGate
      ensures Valid()
      ensures forall k :: 0 <= k < NUM_LEDS ==>
        frame.leds[k] == if k < OUTER_LEN then RainbowPixel(lib, old(outerHuePosition), k) else old(frame.leds[k])
      ensures outerHuePosition == Bump(old(outerHuePosition), Fires(20, old(rainbowHueGate.last), now))
      ensures rainbowHueGate.last == GateAfter(20, old(rainbowHueGate.last), now)
    {
      PaintRainbowRing();
      var fired := rainbowHueGate.Ready(now);
      if fired {
        outerHuePosition := ToU8(outerHuePosition + 1);
      }
    }

    /** `dualSinePulsePattern(red, green, blue)`: the ring in the base colour
        with the head and its opposite at full head brightness; the head
        moves one pixel when the 150 ms gate fires and the ring decays when
        the 50 ms gate fires. */
    method DualSinePulsePattern(color: RGB, now: u32)
      requires Valid()
      modifies frame.leds, this`outerLEDPosition, pulseMoveGate, pulseTailGate
      ensures Valid()
      ensures forall k :: 0 <= k < NUM_LEDS ==>
        frame.leds[k] == if k < OUTER_LEN
          then Tail(PulsePixel(lib, color, old(outerLEDPosition), k), Fires(50, old(pulseTailGate.last), now))
          else old(frame.leds[k])
      ensures outerLEDPosition ==
        if Fires(150, old(pulseMoveGate.last), now) then NextHead(old(outerLEDPosition)) else old(outerLEDPosition)
      ensures pulseMoveGate.last == GateAfter(150, old(pulseMoveGate.last), now)
      ensures pulseTailGate.last == GateAfter(50, old(pulseTailGate.last), now)
    {
      var head: nat := outerLEDPosition;
      frame.FillSolid(Outer, color);
      frame.Set(Outer, head, Times(lib, color, PULSE_HEAD_BRIGHTNESS));
      frame.Set(Outer, OppositeHead(head), Times(lib, color, PULSE_HEAD_BRIGHTNESS));
      var move := pulseMoveGate.Ready(now);
      if move {
        outerLEDPosition := NextHead(head);
      }
      var tail := pulseTailGate.Ready(now);
      if tail {
        frame.DecayTail(Outer);
      }
    }

    /** Multiplies the head pixel and its opposite by the head brightness,
        reading each pixel back from the buffer. */
    method BrightenHeads(head: nat)
      requires frame.leds.Length == NUM_LEDS && head < OUTER_LEN
      modifies frame.leds
      ensures forall k :: 0 <= k < NUM_LEDS ==>
        frame.leds[k] == if IsHead(head, k) then Times(lib, old(frame.leds[k]), PULSE_HEAD_BRIGHTNESS)
                         else old(frame.leds[k])
    {
      frame.Set(Outer, head, Times(lib, frame.leds[head], PULSE_HEAD_BRIGHTNESS));
      var opposite := OppositeHead(head);
      frame.Set(Outer, opposite, Times(lib, frame.leds[opposite], PULSE_HEAD_BRIGHTNESS));
    }

    /** `wispyRainbow`: the scaled rainbow with both heads multiplied to full
        brightness; the hue advances on the 20 ms gate, the head moves when
        more than `dynamicSpeed` ms (16-bit clock) have passed since its last
        move, and the ring decays on the 50 ms gate. */
    method WispyRainbow(now: u32, dynamicSpeed: u16)
      requires Valid()
      modifies frame.leds, this`outerHuePosition, this`outerLEDPosition, this`lastMoveTime,
               wispyHueGate, wispyTailGate
      ensures Valid()
      ensures forall k :: 0 <= k < NUM_LEDS ==>
        frame.leds[k] == if k < OUTER_LEN
          then Tail(WispyPixel(lib, old(outerHuePosition), old(outerLEDPosition), k), Fires(50, old(wispyTailGate.last), now))
          else old(frame.leds[k])
      ensures outerHuePosition == Bump(old(outerHuePosition), Fires(20, old(wispyHueGate.last), now))
      ensures var due := MoveDue(old(lastMoveTime), ToU16(now), dynamicSpeed);
              && outerLEDPosition == (if due then NextHead(old(outerLEDPosition)) else old(outerLEDPosition))
              && lastMoveTime == (if due then ToU16(now) else old(lastMoveTime))
      ensures wispyHueGate.last == GateAfter(20, old(wispyHueGate.last), now)
      ensures wispyTailGate.last == GateAfter(50, old(wispyTailGate.last), now)
    {
      PaintRainbowRing();
      var hueFired := wispyHueGate.Ready(now);
      if hueFired {
        outerHuePosition := ToU8(outerHuePosition + 1);
      }
      var head: nat := outerLEDPosition;
      BrightenHeads(head);
      var now16 := ToU16(now);
      if Elapsed16(lastMoveTime, now16) > dynamicSpeed {
        outerLEDPosition := NextHead(head);
        lastMoveTime := now16;
      }
      var tail := wispyTailGate.Ready(now);
      if tail {
        frame.DecayTail(Outer);
      }
    }
  
    /** `washingMachineEffect(palette)` with the palette it is passed: the
        ring fades by 20, then the head at `pos` and its opposite get the
        palette colour at `pos * 15` with brightness `bri`. */
    method WashingMachineEffect(palette: Palette, pos: nat, bri: u8)
      requires Valid() && pos < OUTER_LEN
      modifies frame.leds
      ensures Valid()
      ensures forall k :: 0 <= k < NUM_LEDS ==>
        frame.leds[k] == if !(k < OUTER_LEN) then old(frame.leds[k])
                         else if IsHead(pos, k) then lib.colorFromPalette(palette, WashingColorIndex(pos), bri)
                         else lib.fadeToBlackBy(old(frame.leds[k]), 20)
    {
      frame.FadeToBlackBy(lib, Outer, 20);
      var c := lib.colorFromPalette(palette, WashingColorIndex(pos), bri);
      frame.Set(Outer, pos, c);
      frame.Set(Outer, OppositeHead(pos), c);
    }

    /** `washingMachineEffect` as written: its `static` palette is
        initialised by the first call and every later call renders with it,
        whatever palette it is passed. */
    method WashingMachineEffectAsWritten(palette: Palette, pos: nat, bri: u8)
      requires Valid() && pos < OUTER_LEN
      modifies frame.leds, this`wmPaletteLatch
      ensures Valid()
      ensures wmPaletteLatch == Some(LatchedPalette(old(wmPaletteLatch), palette))
      ensures forall k :: 0 <= k < NUM_LEDS ==>
        frame.leds[k] == if !(k < OUTER_LEN) then old(frame.leds[k])
                         else if IsHead(pos, k) then lib.colorFromPalette(wmPaletteLatch.value, WashingColorIndex(pos), bri)
                         else lib.fadeToBlackBy(old(frame.leds[k]), 20)
    {
      if wmPaletteLatch.None? {
        wmPaletteLatch := Some(palette);
      }
      WashingMachineEffect(wmPaletteLatch.value, pos, bri);
    }

    /** `sinelonDualEffect`: the ring fades by 20 and two comets at `posA`
        and `posB` take sherbet colours; comet B is written after comet A, so
        it wins when they meet. Both palette indices advance when the 20 ms
        gate fires. */
    method SinelonDualEffect(posA: nat, posB: nat, now: u32)
      requires Valid() && posA < OUTER_LEN && posB < OUTER_LEN
      modifies frame.leds, this`sinelonIndexA, this`sinelonIndexB, sinelonIndexGate
      ensures Valid()
      ensures forall k :: 0 <= k < NUM_LEDS ==>
        frame.leds[k] == if !(k < OUTER_LEN) then old(frame.leds[k])
                         else if k == posB then SinelonColor(lib, old(sinelonIndexB), OUTER_LEN - 1)
                         else if k == posA then SinelonColor(lib, old(sinelonIndexA), OUTER_LEN - 1)
                         else lib.fadeToBlackBy(old(frame.leds[k]), 20)
      ensures var fired := Fires(20, old(sinelonIndexGate.last), now);
              sinelonIndexA == Bump(old(sinelonIndexA), fired) && sinelonIndexB == Bump(old(sinelonIndexB), fired)
      ensures sinelonIndexGate.last == GateAfter(20, old(sinelonIndexGate.last), now)
    {
      frame.FadeToBlackBy(lib, Outer, 20);
      ghost var faded := frame.leds[..];
      var i := 0;
      while i < OUTER_LEN
        invariant 0 <= i <= OUTER_LEN
        invariant forall k :: 0 <= k < NUM_LEDS ==>
          frame.leds[k] == if i > 0 && k == posB then SinelonColor(lib, sinelonIndexB, i - 1)
                           else if i > 0 && k == posA then SinelonColor(lib, sinelonIndexA, i - 1)
                           else faded[k]
        modifies frame.leds
      {
        frame.Set(Outer, posA, SinelonColor(lib, sinelonIndexA, i));
        frame.Set(Outer, posB, SinelonColor(lib, sinelonIndexB, i));
        i := i + 1;
      }
      var fired := sinelonIndexGate.Ready(now);
      if fired {
        SinelonAdvanceKeepsGap(sinelonIndexA, sinelonIndexB);
        sinelonIndexA := ToU8(sinelonIndexA + 1);
        sinelonIndexB := ToU8(sinelonIndexB + 1);
      }
    }

    /** `bpm`: ring pixel i takes the rainbow palette at its ring index, at
        brightness `beat - 1 + 10 * i` truncated to 8 bits. */
    method Bpm(beat: u8)
      requires Valid()
      modifies frame.leds
      ensures Valid()
      ensures forall k :: 0 <= k < NUM_LEDS ==>
        frame.leds[k] == if k < OUTER_LEN
          then lib.colorFromPalette(RainbowLoopAgroGamma, RingColorIndex(outerHuePosition, k), BpmBrightness(beat, k))
          else old(frame.leds[k])
    {
      var i := 0;
      while i < OUTER_LEN
        invariant 0 <= i <= OUTER_LEN
        invariant forall k :: 0 <= k < NUM_LEDS ==>
          frame.leds[k] == if k < i
            then lib.colorFromPalette(RainbowLoopAgroGamma, RingColorIndex(outerHuePosition, k), BpmBrightness(beat, k))
            else old(frame.leds[k])
      {
        frame.Set(Outer, i, lib.colorFromPalette(RainbowLoopAgroGamma, RingColorIndex(outerHuePosition, i), BpmBrightness(beat, i)));
        i := i + 1;
      }
    }

    /** `bpmFlood`: the whole ring in one colour, the rainbow palette at the
        beat, brightness 150. */
    method BpmFlood(beat: u8)
      requires Valid()
      modifies frame.leds
      ensures Valid()
      ensures forall k :: 0 <= k < NUM_LEDS ==>
        frame.leds[k] == if k < OUTER_LEN then lib.colorFromPalette(RainbowLoopAgroGamma, beat, 150)
                         else old(frame.leds[k])
    {
      frame.FillSolid(Outer, lib.colorFromPalette(RainbowLoopAgroGamma, beat, 150));
    }

    /** `outerComet`: the head pixel set to grey `headLuma`, the rest of the
        ring left as it was; the head moves on the 150 ms gate and the ring
        decays on the 50 ms gate, so the old positions fade into a tail. */
    method OuterComet(now: u32)
      requires Valid()
      modifies frame.leds, this`outerLEDPosition, cometMoveGate, cometTailGate
      ensures Valid()
      ensures forall k :: 0 <= k < NUM_LEDS ==>
        frame.leds[k] == if !(k < OUTER_LEN) then old(frame.leds[k])
                         else Tail(if k == old(outerLEDPosition) then RGB(HEAD_LUMA, HEAD_LUMA, HEAD_LUMA) else old(frame.leds[k]),
                                   Fires(50, old(cometTailGate.last), now))
      ensures outerLEDPosition ==
        if Fires(150, old(cometMoveGate.last), now) then NextHead(old(outerLEDPosition)) else old(outerLEDPosition)
      ensures cometMoveGate.last == GateAfter(150, old(cometMoveGate.last), now)
      ensures cometTailGate.last == GateAfter(50, old(cometTailGate.last), now)
    {
      var head: nat := outerLEDPosition;
      frame.Set(Outer, head, RGB(HEAD_LUMA, HEAD_LUMA, HEAD_LUMA));
      var move := cometMoveGate.Ready(now);
      if move {
        outerLEDPosition := NextHead(head);
      }
      var tail := cometTailGate.Ready(now);
      if tail {
        frame.DecayTail(Outer);
      }
    }

    // ---- Inner patterns ----

    /** `innerBlOnRd`: front panel blue at its ceiling, back panel red at its
        ceiling. */
    method InnerBlOnRd()
      requires Valid()
      modifies frame.leds
      ensures Valid()
      ensures forall k :: 0 <= k < NUM_LEDS ==>
        frame.leds[k] == if InnerFront.Contains(k) then RGB(0, 0, BRIGHTNESS_INNER_FRONT)
                         else if InnerBack.Contains(k) then RGB(BRIGHTNESS_INNER_BACK, 0, 0)
                         else old(frame.leds[k])
    {
      frame.FillSolid(InnerFront, RGB(0, 0, BRIGHTNESS_INNER_FRONT));
      frame.FillSolid(InnerBack, RGB(BRIGHTNESS_INNER_BACK, 0, 0));
    }

    /** `innerDiametricFade`: the front panel at hue `innerHuePosition`, the
        back panel at `innerHuePosition - 127`, each scaled to its ceiling;
        the hue advances on the 100 ms gate. */
    method InnerDiametricFade(now: u32)
      requires Valid()
      modifies frame.leds, this`innerHuePosition, diametricHueGate
      ensures Valid()
      ensures forall k :: 0 <= k < NUM_LEDS ==>
        frame.leds[k] ==
          if InnerFront.Contains(k) then NScale8(lib, lib.hsv2rgb(HSV(old(innerHuePosition), 255, 255)), BRIGHTNESS_INNER_FRONT)
          else if InnerBack.Contains(k) then NScale8(lib, lib.hsv2rgb(HSV(DiametricHue(old(innerHuePosition)), 255, 255)), BRIGHTNESS_INNER_BACK)
          else old(frame.leds[k])
      ensures innerHuePosition == Bump(old(innerHuePosition), Fires(100, old(diametricHueGate.last), now))
      ensures diametricHueGate.last == GateAfter(100, old(diametricHueGate.last), now)
    {
      frame.FillSolid(InnerFront, lib.hsv2rgb(HSV(innerHuePosition, 255, 255)));
      frame.FillSolid(InnerBack, lib.hsv2rgb(HSV(DiametricHue(innerHuePosition), 255, 255)));
      frame.SetSegBrightness(lib, InnerFront, BRIGHTNESS_INNER_FRONT);
      frame.SetSegBrightness(lib, InnerBack, BRIGHTNESS_INNER_BACK);
      var fired := diametricHueGate.Ready(now);
      if fired {
        innerHuePosition := ToU8(innerHuePosition + 1);
      }
    }

    /** Writes one panel's two pixels: each colour scaled by its envelope
        output, itself scaled by the panel's ceiling. */
    method ApplyPanel(seg: Segment, color1: RGB, color2: RGB, env: Envelope, ceiling: u8)
      requires Valid() && seg.Len() == 2
      modifies frame.leds
      ensures Valid()
      ensures forall k :: 0 <= k < NUM_LEDS ==>
        frame.leds[k] == if k == seg.First() then PanelPixel(lib, color1, env.first, ceiling)
                         else if k == seg.First() + 1 then PanelPixel(lib, color2, env.second, ceiling)
                         else old(frame.leds[k])
    {
      frame.Set(seg, 0, PanelPixel(lib, color1, env.first, ceiling));
      frame.Set(seg, 1, PanelPixel(lib, color2, env.second, ceiling));
    }

    /** The two latch blocks of `innerCrossfadePalette`: the back panel's on
        the back beat, then the front panel's on the front beat. */
    method StepLatches(back: u8, front: u8)
      modifies this`backPaletteIndex, this`backIsActive, this`frontPaletteIndex, this`frontIsActive
      ensures PanelLatch(backPaletteIndex, backIsActive) == LatchStep(PanelLatch(old(backPaletteIndex), old(backIsActive)), back)
      ensures PanelLatch(frontPaletteIndex, frontIsActive) == LatchStep(PanelLatch(old(frontPaletteIndex), old(frontIsActive)), front)
    {
      if back < 2 && !backIsActive {
        backIsActive := true;
        backPaletteIndex := ToU8(backPaletteIndex + PALETTE_STEP * 2);
      } else if back > 2 {
        backIsActive := false;
      }
      if front < 2 && !frontIsActive {
        frontIsActive := true;
        frontPaletteIndex := ToU8(frontPaletteIndex + PALETTE_STEP * 2);
      } else if front > 2 {
        frontIsActive := false;
      }
    }

    /** `innerCrossfadePalette`: each panel's latch steps on its own beat
        (the front's offset by 60 in a 160-step cycle); each panel's two
        pixels take the rainbow palette at the panel's new index and 50
        beyond it, scaled by the two envelope outputs. */
    method InnerCrossfadePalette(beat8: u8)
      requires Valid()
      modifies frame.leds, this`backPaletteIndex, this`backIsActive, this`frontPaletteIndex, this`frontIsActive
      ensures Valid()
      ensures var back := BackBeat(beat8, PaletteConfig.cycle);
              var front := FrontBeat(back, PaletteConfig.offset, PaletteConfig.cycle);
              && PanelLatch(backPaletteIndex, backIsActive) == LatchStep(PanelLatch(old(backPaletteIndex), old(backIsActive)), back)
              && PanelLatch(frontPaletteIndex, frontIsActive) == LatchStep(PanelLatch(old(frontPaletteIndex), old(frontIsActive)), front)
      ensures var back := BackBeat(beat8, PaletteConfig.cycle);
              var front := FrontBeat(back, PaletteConfig.offset, PaletteConfig.cycle);
              var eb := PanelEnvelope(lib, back, PaletteConfig.duration1, PaletteConfig.duration2);
              var ef := PanelEnvelope(lib, front, PaletteConfig.duration1, PaletteConfig.duration2);
              forall k :: 0 <= k < NUM_LEDS ==>
                frame.leds[k] ==
                  if k == InnerBack.First() then PanelPixel(lib, PaletteColor(lib, backPaletteIndex, 0), eb.first, BRIGHTNESS_INNER_BACK)
                  else if k == InnerBack.Last() then PanelPixel(lib, PaletteColor(lib, backPaletteIndex, PALETTE_STEP), eb.second, BRIGHTNESS_INNER_BACK)
                  else if k == InnerFront.First() then PanelPixel(lib, PaletteColor(lib, frontPaletteIndex, 0), ef.first, BRIGHTNESS_INNER_FRONT)
                  else if k == InnerFront.Last() then PanelPixel(lib, PaletteColor(lib, frontPaletteIndex, PALETTE_STEP), ef.second, BRIGHTNESS_INNER_FRONT)
                  else old(frame.leds[k])
    {
      var back := BackBeat(beat8, PaletteConfig.cycle);
      var front := FrontBeat(back, PaletteConfig.offset, PaletteConfig.cycle);
      StepLatches(back, front);
      var eb := PanelEnvelope(lib, back, PaletteConfig.duration1, PaletteConfig.duration2);
      var ef := PanelEnvelope(lib, front, PaletteConfig.duration1, PaletteConfig.duration2);
      ApplyPanel(InnerBack, PaletteColor(lib, backPaletteIndex, 0), PaletteColor(lib, backPaletteIndex, PALETTE_STEP), eb, BRIGHTNESS_INNER_BACK);
      ApplyPanel(InnerFront, PaletteColor(lib, frontPaletteIndex, 0), PaletteColor(lib, frontPaletteIndex, PALETTE_STEP), ef, BRIGHTNESS_INNER_FRONT);
    }

    /** `innerCrossfadeTwoColorCore(back_color, front_color)`: both pixels of
        a panel in the panel's colour, scaled by the two envelope outputs of
        the panel's beat (the front's offset by 40 in a 120-step cycle). */
    method InnerCrossfadeTwoColorCore(backColor: RGB, frontColor: RGB, beat8: u8)
      requires Valid()
      modifies frame.leds
      ensures Valid()
      ensures var back := BackBeat(beat8, TwoColorConfig.cycle);
              var front := FrontBeat(back, TwoColorConfig.offset, TwoColorConfig.cycle);
              var eb := PanelEnvelope(lib, back, TwoColorConfig.duration1, TwoColorConfig.duration2);
              var ef := PanelEnvelope(lib, front, TwoColorConfig.duration1, TwoColorConfig.duration2);
              forall k :: 0 <= k < NUM_LEDS ==>
                frame.leds[k] ==
                  if k == InnerBack.First() then PanelPixel(lib, backColor, eb.first, BRIGHTNESS_INNER_BACK)
                  else if k == InnerBack.Last() then PanelPixel(lib, backColor, eb.second, BRIGHTNESS_INNER_BACK)
                  else if k == InnerFront.First() then PanelPixel(lib, frontColor, ef.first, BRIGHTNESS_INNER_FRONT)
                  else if k == InnerFront.Last() then PanelPixel(lib, frontColor, ef.second, BRIGHTNESS_INNER_FRONT)
                  else old(frame.leds[k])
    {
      var back := BackBeat(beat8, TwoColorConfig.cycle);
      var front := FrontBeat(back, TwoColorConfig.offset, TwoColorConfig.cycle);
      var eb := PanelEnvelope(lib, back, TwoColorConfig.duration1, TwoColorConfig.duration2);
      var ef := PanelEnvelope(lib, front, TwoColorConfig.duration1, TwoColorConfig.duration2);
      ApplyPanel(InnerBack, backColor, backColor, eb, BRIGHTNESS_INNER_BACK);
      ApplyPanel(InnerFront, frontColor, frontColor, ef, BRIGHTNESS_INNER_FRONT);
    }

    // ---- The main loop ----

    /** The button-1 handler: the whole buffer blanked, then both patterns
        advanced and saved. */
    method ButtonOnePressed()
      requires Valid()
      modifies frame.leds, this`outerCurrentPattern, this`eepromOuter, this`innerCurrentPattern, this`eepromInner
      ensures Valid()
      ensures forall k :: 0 <= k < NUM_LEDS ==> frame.leds[k] == Black
      ensures outerCurrentPattern == Advance(old(outerCurrentPattern)) && eepromOuter == outerCurrentPattern
      ensures innerCurrentPattern == Advance(old(innerCurrentPattern)) && eepromInner == innerCurrentPattern
    {
      frame.Clear();
      OuterPatternAdvance();
      InnerPatternAdvance();
    }

    /** Calls the outer pattern function `p` of the table: the ring and the
        outer statics become what entry `p` makes of them, and the inner
        panels keep their pixels. */
    method RenderOuter(p: OuterPattern, inp: FrameInputs)
      requires Valid() && inp.OnRing()
      modifies frame.leds, this`outerHuePosition, this`outerLEDPosition, this`lastMoveTime,
               this`sinelonIndexA, this`sinelonIndexB, this`wmPaletteLatch,
               pulseMoveGate, pulseTailGate, wispyHueGate, wispyTailGate, sinelonIndexGate
      ensures Valid()
      ensures OuterState() == OuterStep(p, inp, old(OuterState()))
      ensures forall k :: 0 <= k < NUM_LEDS ==>
        frame.leds[k] == if k < OUTER_LEN then OuterPixel(lib, p, inp, old(OuterState()), old(frame.leds[k]), k)
                         else old(frame.leds[k])
    {
      ghost var gs := Gates();
      assert gs[1] != gs[2] && gs[1] != gs[3] && gs[1] != gs[4] && gs[1] != gs[5] && gs[2] != gs[3]
          && gs[2] != gs[4] && gs[2] != gs[5] && gs[3] != gs[4] && gs[3] != gs[5] && gs[4] != gs[5];
      match p {
        case WispyRainbow => WispyRainbow(inp.millis, inp.wispySpeed);
        case Daylight | BerlinMode | CyanMode | MagentaMode => DualSinePulsePattern(PulseColor(p), inp.millis);
        case WmTiamat | WmYelmag => WashingMachineEffectAsWritten(WashPalette(p), inp.wmPos as nat, inp.wmBri);
        case SinelonDualEffect => SinelonDualEffect(inp.sinelonPosA as nat, inp.sinelonPosB as nat, inp.millis);
        case Bpm => Bpm(inp.bpmBeat);
        case BpmFlood => BpmFlood(inp.bpmBeat);
      }
    }

    /** Calls the inner pattern function `p` of the table: the panels and
        the inner statics become what entry `p` makes of them, and the ring
        keeps its pixels. */
    method RenderInner(p: InnerPattern, beat8: u8)
      requires Valid()
      modifies frame.leds, this`backPaletteIndex, this`backIsActive, this`frontPaletteIndex, this`frontIsActive
      ensures Valid()
      ensures InnerState() == InnerStep(p, beat8, old(InnerState()))
      ensures forall k :: 0 <= k < NUM_LEDS ==>
        frame.leds[k] == if k < OUTER_LEN then old(frame.leds[k]) else InnerPixel(lib, p, beat8, old(InnerState()), k)
    {
      match p {
        case InnerCrossfadePalette => InnerCrossfadePalette(beat8);
        case InnerCrossfadeRedWhite => InnerCrossfadeTwoColorCore(Red, White, beat8);
        case InnerCrossfadeOrangeCyan => InnerCrossfadeTwoColorCore(Orange, Cyan, beat8);
        case InnerCrossfadeMagentaTurquoise => InnerCrossfadeTwoColorCore(Magenta, Turquoise, beat8);
        case InnerCrossfadeGoldPink => InnerCrossfadeTwoColorCore(Gold, DeepPink, beat8);
      }
    }

    /** The two pattern calls of `loop`: the outer entry, then the inner one. */
    method RenderFrame(outer: OuterPattern, inner: InnerPattern, inp: FrameInputs)
      requires Valid() && inp.OnRing()
      modifies frame.leds, this`outerHuePosition, this`outerLEDPosition, this`lastMoveTime,
               this`sinelonIndexA, this`sinelonIndexB, this`wmPaletteLatch,
               this`backPaletteIndex, this`backIsActive, this`frontPaletteIndex, this`frontIsActive,
               pulseMoveGate, pulseTailGate, wispyHueGate, wispyTailGate, sinelonIndexGate
      ensures Valid()
      ensures OuterState() == OuterStep(outer, inp, old(OuterState()))
      ensures InnerState() == InnerStep(inner, inp.beat8, old(InnerState()))
      ensures forall k :: 0 <= k < NUM_LEDS ==>
        frame.leds[k] == FramePixel(lib, outer, inner, inp, old(OuterState()), old(InnerState()), old(frame.leds[k]), k)
    {
      RenderOuter(outer, inp);
      RenderInner(inner, inp.beat8);
    }

    /** One pass of `loop`: a press of button 1 blanks the buffer and
        advances both patterns (saving both indices); button 2's handler does
        nothing; then the outer and inner patterns at the current indices
        render. Returns the two patterns that ran. */
    method Loop(button1Fell: bool, button2Fell: bool, inp: FrameInputs)
      returns (outer: OuterPattern, inner: InnerPattern)
      requires Valid() && inp.OnRing()
      modifies frame.leds, this`outerCurrentPattern, this`eepromOuter, this`innerCurrentPattern, this`eepromInner,
               this`outerHuePosition, this`outerLEDPosition, this`lastMoveTime,
               this`sinelonIndexA, this`sinelonIndexB, this`wmPaletteLatch,
               this`backPaletteIndex, this`backIsActive, this`frontPaletteIndex, this`frontIsActive,
               pulseMoveGate, pulseTailGate, wispyHueGate, wispyTailGate, sinelonIndexGate
      ensures Valid()
      ensures outerCurrentPattern == if button1Fell then Advance(old(outerCurrentPattern)) else old(outerCurrentPattern)
      ensures innerCurrentPattern == if button1Fell then Advance(old(innerCurrentPattern)) else old(innerCurrentPattern)
      ensures eepromOuter == if button1Fell then outerCurrentPattern else old(eepromOuter)
      ensures eepromInner == if button1Fell then innerCurrentPattern else old(eepromInner)
      ensures outer == OuterPatternList[outerCurrentPattern] && inner == InnerPatternList[innerCurrentPattern]
      ensures OuterState() == OuterStep(outer, inp, old(OuterState()))
      ensures InnerState() == InnerStep(inner, inp.beat8, old(InnerState()))
      ensures forall k :: 0 <= k < NUM_LEDS ==>
        frame.leds[k] == FramePixel(lib, outer, inner, inp, old(OuterState()), old(InnerState()),
                                    if button1Fell then Black else old(frame.leds[k]), k)
    {
      if button1Fell {
        ButtonOnePressed();
      }
      if button2Fell {
        // patternBrightnessAdvance has an empty body.
      }
      outer := OuterPatternList[outerCurrentPattern];
      inner := InnerPatternList[innerCurrentPattern];
      RenderFrame(outer, inner, inp);
    }
  }

  /** Power-up as the Arduino core runs it: `setup` once, then the first
      pass of `loop` with no button pressed. The first frame draws the
      patterns at the stored indices, or at index 0 for an index outside the
      tables. */
  method SetupThenFirstLoop(lib: Library, storedOuter: u8, storedInner: u8, setupTime: u32, inp: FrameInputs)
    returns (l: Luma, outer: OuterPattern, inner: InnerPattern)
    requires inp.OnRing()
    ensures l.Valid()
    ensures outer == OuterPatternList[BoundsCorrect(storedOuter)]
    ensures inner == InnerPatternList[BoundsCorrect(storedInner)]
    ensures l.OuterState() == OuterStep(outer, inp, InitialOuter(setupTime))
    ensures l.InnerState() == InnerStep(inner, inp.beat8, InitialInner)
    ensures forall k :: 0 <= k < NUM_LEDS ==>
      l.frame.leds[k] == FramePixel(lib, outer, inner, inp, InitialOuter(setupTime), InitialInner, Black, k)
  {
    l := new Luma.Setup(lib, storedOuter, storedInner, setupTime);
    assert l.OuterState() == InitialOuter(setupTime) && l.InnerState() == InitialInner;
    outer, inner := l.Loop(false, false, inp);
  }
}
