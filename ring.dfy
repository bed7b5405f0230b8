/** Index arithmetic of the outer-ring patterns on the 16-pixel ring: the
    moving head and its opposite head, the per-pixel palette and hue
    indices, and the `fill_rainbow` helper. */
module Ring {
  import opened Ints
  import opened FastLed
  import opened Cyclic

  const OUTER_LEN := 16

  /** `(outerLEDPosition + 1) % leds_outer.len`: one gate firing moves the head. */
  function NextHead(p: nat): (q: nat)
    requires p < OUTER_LEN
    ensures q < OUTER_LEN
  {
    Succ(p, OUTER_LEN)
  }

  /** The head moves exactly one pixel forward around the ring, wrapping
      from the last pixel to the first, and sixteen moves bring it back. */
  lemma HeadMovesOnePixel(p: nat)
    requires p < OUTER_LEN
    ensures NextHead(p) == (p + 1) % OUTER_LEN
    ensures p < OUTER_LEN - 1 ==> NextHead(p) == p + 1
    ensures p == OUTER_LEN - 1 ==> NextHead(p) == 0
    ensures Steps(p, OUTER_LEN, OUTER_LEN) == p
  {
    FullTurnReturns(p, OUTER_LEN);
  }

  /** How many of a run of frames had the move gate fire. */
  function CountFired(fired: seq<bool>): nat
  {
    if |fired| == 0 then 0 else (if fired[0] then 1 else 0) + CountFired(fired[1..])
  }

  /** The head after a run of frames, one move per frame whose gate fired. */
  function HeadAfter(p: nat, fired: seq<bool>): (q: nat)
    requires p < OUTER_LEN
    ensures q < OUTER_LEN
    decreases |fired|
  {
    if |fired| == 0 then p else HeadAfter(if fired[0] then NextHead(p) else p, fired[1..])
  }

  /** Over any run of frames the head advances by exactly the number of
      times its move gate fired, modulo 16: no move is lost or doubled. */
  lemma {:induction false} HeadAfterCountsMoves(p: nat, fired: seq<bool>)
    requires p < OUTER_LEN
    ensures HeadAfter(p, fired) == Steps(p, OUTER_LEN, CountFired(fired))
    ensures HeadAfter(p, fired) == (p + CountFired(fired)) % OUTER_LEN
    decreases |fired|
  {
    if |fired| > 0 {
      var p' := if fired[0] then NextHead(p) else p;
      HeadAfterCountsMoves(p', fired[1..]);
      if fired[0] {
        StepsAfterSucc(p, OUTER_LEN, CountFired(fired[1..]));
      }
    }
    StepsIsModular(p, OUTER_LEN, CountFired(fired));
  }

  /** `(p + leds_outer.len / 2) % leds_outer.len`: the pixel diametrically
      opposite p (used by the dual-head patterns and `washingMachineEffect`). */
  function OppositeHead(p: nat): (q: nat)
    requires p < OUTER_LEN
    ensures q < OUTER_LEN
  {
    (p + OUTER_LEN / 2) % OUTER_LEN
  }

  /** The opposite head is never the head itself, and the relation is
      symmetric: each head is the other's opposite. */
  lemma OppositeHeadIsOther(p: nat)
    requires p < OUTER_LEN
    ensures OppositeHead(p) != p
    ensures OppositeHead(OppositeHead(p)) == p
    ensures OppositeHead(p) == if p < 8 then p + 8 else p - 8
  {
  }

  /** `(hue + i * (256 / leds_outer.len)) % 256`, the palette index of ring
      pixel i in `outerRainbow`, `wispyRainbow`, `bpm` and `sinelonDualEffect`. */
  function RingColorIndex(hue: u8, i: int): u8
  {
    ToU8(hue + i * (256 / OUTER_LEN))
  }

  /** The sixteen ring pixels get sixteen different palette indices, spaced
      16 apart: the rainbow covers the whole palette once. */
  lemma RingColorIndicesDistinct(hue: u8, i: int, j: int)
    requires 0 <= i < j < OUTER_LEN
    ensures RingColorIndex(hue, i) != RingColorIndex(hue, j)
    ensures RingColorIndex(hue, j) == (RingColorIndex(hue, i) + 16 * (j - i)) % 256
  {
  }

  /** The hue of pixel i written by `fill_rainbow`: the initial hue advanced
      i times by the delta, in 8-bit arithmetic. */
  function RainbowHue(initialHue: u8, deltaHue: u8, i: int): u8
  {
    ToU8(initialHue + i * deltaHue)
  }

  /** `fill_rainbow(target, numToFill, initialhue, deltahue, sat, val)`:
      pixel i gets hue initialhue + i * deltahue (mod 256); the pixels past
      numToFill are untouched. */
  method FillRainbow(lib: Library, target: array<RGB>, numToFill: int,
                     initialHue: u8, deltaHue: u8, sat: u8, val: u8)
    requires numToFill <= target.Length
    modifies target
    ensures forall i :: 0 <= i < target.Length ==>
      target[i] == if i < numToFill then lib.hsv2rgb(HSV(RainbowHue(initialHue, deltaHue, i), sat, val))
                   else old(target[i])
  {
    var hsv := HSV(initialHue, sat, val);
    var i := 0;
    while i < numToFill
      invariant 0 <= i <= if numToFill < 0 then 0 else numToFill
      invariant hsv == HSV(RainbowHue(initialHue, deltaHue, i), sat, val)
      invariant forall k :: 0 <= k < target.Length ==>
        target[k] == if k < i then lib.hsv2rgb(HSV(RainbowHue(initialHue, deltaHue, k), sat, val))
                     else old(target[k])
    {
      target[i] := lib.hsv2rgb(hsv);
      HueStep(initialHue, deltaHue, i);
      hsv := hsv.(hue := ToU8(hsv.hue + deltaHue));
      i := i + 1;
    }
  }

  /** `hsv.hue += deltahue` keeps the hue equal to the closed form. */
  lemma HueStep(initialHue: u8, deltaHue: u8, i: int)
    ensures ToU8(RainbowHue(initialHue, deltaHue, i) + deltaHue) == RainbowHue(initialHue, deltaHue, i + 1)
  {
    var a := initialHue + i * deltaHue;
    var q, r := a / 256, a % 256;
    assert a == q * 256 + r;
    assert a + deltaHue == initialHue + (i + 1) * deltaHue;
    DivModUnique(a + deltaHue, 256, q + (r + deltaHue) / 256, (r + deltaHue) % 256);
  }

  // ---- sinelonDualEffect's palette indices ----

  /** `indexA` starts at 0 and `indexB` at 127: B stays 127 ahead of A. */
  predicate SinelonGap(indexA: u8, indexB: u8)
  {
    (indexB - indexA) % 256 == 127
  }

  /** Advancing both indices by one (uint8_t wrap) keeps the gap. */
  lemma SinelonAdvanceKeepsGap(indexA: u8, indexB: u8)
    requires SinelonGap(indexA, indexB)
    ensures SinelonGap(ToU8(indexA + 1), ToU8(indexB + 1))
  {
  }

  // ---- bpm and washingMachineEffect ----

  /** `beat - 1 + (i * 10)` passed as a uint8_t brightness in `bpm`: pixel i
      is 10 steps brighter than pixel i - 1, wrapping modulo 256. */
  function BpmBrightness(beat: u8, i: int): (r: u8)
  {
    ToU8(beat - 1 + i * 10)
  }

  /** The brightness ladder of `bpm`: pixel i is 10 * i above pixel 0 modulo
      256; once beat - 1 + 10 * i passes 255 the brightness wraps to a dim
      value (for pixel 15 this happens whenever beat >= 107). */
  lemma BpmBrightnessLadder(beat: u8, i: int)
    requires 64 <= beat && 0 <= i < OUTER_LEN
    ensures BpmBrightness(beat, i) == (BpmBrightness(beat, 0) + 10 * i) % 256
    ensures beat - 1 + 10 * i < 256 ==> BpmBrightness(beat, i) == beat - 1 + 10 * i
    ensures beat - 1 + 10 * i >= 256 ==> BpmBrightness(beat, i) == beat - 1 + 10 * i - 256
  {
  }

  /** `(uint8_t)(pos * (255 / leds_outer.len))` in `washingMachineEffect`. */
  function WashingColorIndex(pos: nat): u8
  {
    ToU8(pos * (255 / OUTER_LEN))
  }

  /** On the ring the washing-machine index is 15 * pos, without wrap. */
  lemma WashingColorIndexNoWrap(pos: nat)
    requires pos < OUTER_LEN
    ensures WashingColorIndex(pos) == 15 * pos <= 225
  {
  }
}
