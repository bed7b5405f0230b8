# luma firmware — a verified model of the frame logic

`luma` is the firmware of an LED pendant: a 20-pixel WS2812 strip, split
into a 16-pixel outer ring and two 2-pixel inner acrylic panels (front and
back). Every pass of the main loop handles button 1, runs the current outer
pattern and the current inner pattern into the frame buffer, and shows the
frame. This project models, in Dafny, the integer logic that decides what
goes into the buffer:

- the buffer and its three fixed views, and the per-view operations
  `setSegBrightness`, `fill_solid`, `fadeToBlackBy`, the "dim the tail"
  loop and `FastLED.clear` (`segments.dfy`);
- every `EVERY_N_MILLISECONDS` call site as its own timer object, and the
  hand-rolled 16-bit movement gate of `wispyRainbow` (`timing.dfy`);
- the inner crossfade engine: the master beat rescaled with Arduino's
  `map`, the front panel's phase offset, the two eased triangle envelopes
  of a panel, and the palette-stepping latch (`crossfade.dfy`);
- the index arithmetic of the outer ring: the moving head and its opposite,
  the per-pixel palette index, `fill_rainbow`, the sinelon comet indices,
  the `bpm` brightness ladder and the washing-machine colour index
  (`ring.dfy`, with the shared `(x + 1) % n` step in `cyclic.dfy`);
- the two pattern tables, the start-up bounds check and the pattern
  advance (`selection.dfy`);
- the firmware's globals and function-local statics as the fields of one
  `Luma` object, one method per pattern, the button-1 handler and one pass
  of `loop` (`firmware.dfy`).

The 8-bit, 16-bit and 32-bit C types are subsets of `int` (`ints.dfy`);
every conversion back to an unsigned type whose value can leave the type's
range is an explicit `ToU8` / `ToU16` / `ToU32`; where the value provably
stays in range (`FrontBeat`, `Ramp`, `Advance`) it is returned as is and the
bound is proved. Arduino's `map` uses C's truncating division. FastLED's own
primitives (`scale8`, `CRGB * uint8_t`, `triwave8`, `ease8InOutCubic`,
`ColorFromPalette`, the HSV to RGB conversion and `fadeToBlackBy` on one
pixel) are not part of this model: they are the fields of a `Library`
value (`fastled.dfy`), total functions on 8-bit values whose only contract
is their type. The clock and FastLED's oscillators (`millis`, `beat8`,
`beatsin8`, `beatsin16`) are parameters of the methods.

The tail decay `(uint8_t)(x * 0.99f)` is modelled exactly as
`x * 99 / 100`: for every x in 0..255, 0.99x differs from the float product
by far less than the distance from 0.99x to the next integer when 0.99x is
not itself an integer (x * 99 / 100 has a fractional part that is a
multiple of 0.01), so truncation gives the same value.

`outerRainbow`, `outerComet`, `innerBlOnRd` and `innerDiametricFade` are
defined in src/main.cpp but are not in either pattern table, so `loop`
never reaches them; they are modelled as methods all the same.

## Model

| member | source | states |
|---|---|---|
| Ints.CDiv | src/main.cpp:457 | C's truncating division: the magnitude of the quotient is the quotient of the magnitudes, with the sign of the operands' product; on non-negative operands it is ordinary division |
| Ints.MapOntoRange | src/main.cpp:457 | `map(x, 0, inMax, 0, outMax)` for x in [0, inMax] lies in [0, outMax], is 0 at 0, outMax at inMax, and below outMax everywhere before inMax |
| Ints.MapMonotone | src/main.cpp:471 | `map` over [0, inMax] onto [0, outMax] never decreases |
| Segments.SegmentLengths | src/main.cpp:30-32 | the outer view has 16 pixels and each inner view 2 |
| Segments.SegmentsPartitionFrame | src/main.cpp:28-32 | the three views are pairwise disjoint and together cover exactly pixels 0..19 |
| Segments.Decay99 | src/main.cpp:244-246 | one tail step never brightens a channel and strictly dims every lit one |
| Segments.DecayReachesBlack | src/main.cpp:242-248 | after n tail steps a channel of value v is at most v - n, so it is black after v steps |
| Segments.FrameBuffer.constructor | src/main.cpp:28 | the global buffer: 20 pixels, all black |
| Segments.FrameBuffer.Set | src/main.cpp:235-238 | writing pixel i of a view changes exactly that pixel of the buffer |
| Segments.FrameBuffer.FillSolid | src/main.cpp:233 | every pixel of the view takes the colour; every pixel outside it is unchanged |
| Segments.FrameBuffer.SetSegBrightness | src/main.cpp:206-212 | every channel of every pixel in the view becomes `scale8(old, brightness)`; every pixel outside the view is unchanged |
| Segments.FrameBuffer.FadeToBlackBy | src/main.cpp:333 | every pixel of the view is faded by the amount; every pixel outside it is unchanged |
| Segments.FrameBuffer.DecayTail | src/main.cpp:242-248 | every channel of every pixel in the view takes one tail step; every pixel outside it is unchanged |
| Segments.FrameBuffer.Clear | src/main.cpp:615 | all 20 pixels black |
| Timing.ElapsedAcrossWrap | src/main.cpp:240 | the wrapping 32-bit difference `now - last` recovers the true elapsed time across a wrap of the clock |
| Timing.GateOncePerInterval | src/main.cpp:240 | a gate last fired at t fires at t + d exactly when d is at least its period, wrap-around included |
| Timing.Gate.constructor | src/main.cpp:225 | a gate starts its first interval at the given time with the given period |
| Timing.Gate.Ready | src/main.cpp:225 | the gate fires exactly when at least its period has elapsed, and then restarts its interval at `now`; otherwise it keeps its last-fired time |
| Timing.MoveDueMeasuresElapsed | src/main.cpp:282-291 | on the 16-bit truncated clock, with under 65536 ms between moves, the head moves exactly when strictly more than `dynamicSpeed` ms have passed |
| Ints.ArduinoMap | src/main.cpp:457 | Arduino's `map` with truncating division sends the bottom of the input range to the bottom of the output range and the top to the top |
| Ints.CDivExact | src/main.cpp:457 | truncating division exactly undoes a multiplication by a non-zero divisor, whatever the signs, which is what makes `map` hit the top of its range |
| Crossfade.BackBeat | src/main.cpp:457 | `back_beat` lies in [0, T], equals T exactly when beat8 is 255, and is 0 when beat8 is 0 |
| Crossfade.FrontBeat | src/main.cpp:459 | `front_beat` is always below T, and equals back + offset when that sum is below T |
| Crossfade.SecondStart | src/main.cpp:467 | the second window opens inside the first (before d1, at most d1 / 2) |
| Crossfade.Ramp | src/main.cpp:469-472 | inside a window the ramp is 0 at the window's first step, 255 at its last step and strictly between elsewhere |
| Crossfade.RampMonotone | src/main.cpp:471 | the ramp never decreases across a window |
| Crossfade.PanelEnvelope | src/main.cpp:464-479 | the first brightness output stays at its initial 0 from d1 on, and the second outside its window [d1/2 - d1/4, d1/2 - d1/4 + d2), for d1 = 100 and d2 = 100 that is [25, 125) |
| Crossfade.ShippedConfigs | src/main.cpp:447-454 | both patterns' constants are usable (no empty cycle, no one-step window), their windows end inside the cycle, and the second windows open at 25 and 19 |
| Crossfade.DarkAtCycleEnd | src/main.cpp:457 | when beat8 is 255 the back beat is T and both envelope outputs are 0 |
| Crossfade.PanelsOutOfPhase | src/main.cpp:457-459 | with an offset strictly inside the cycle, the front panel is never at the same point of its cycle as the back panel |
| Crossfade.LatchStep | src/main.cpp:483-495 | one frame's latch step leaves the palette index alone or moves it by 100 modulo 256, never anything else |
| Crossfade.LatchStepCases | src/main.cpp:483-495 | the palette index changes, by exactly 100 modulo 256, precisely when the beat is below 2 and the latch is clear; the latch clears only on a beat above 2; a beat of 2 changes nothing |
| Crossfade.NearZeroRunAdvancesOnce | src/main.cpp:483-488 | any run of frames with the beat below 2 advances the palette index exactly once if the latch was clear and never if it was set |
| Cyclic.Succ | src/main.cpp:596 | `(x + 1) % n` stays below n, moves to x + 1 below the last position and wraps from the last position to 0 |
| Cyclic.StepsIsModular | src/main.cpp:596 | k steps from x land at (x + k) % n |
| Cyclic.StepsAfterSucc | src/main.cpp:596 | one step followed by k steps is k + 1 steps |
| Cyclic.FullTurnReturns | src/main.cpp:596 | n steps from a position return to it |
| Cyclic.StepsDistinctWithinTurn | src/main.cpp:596 | within one turn no position is visited twice |
| Ring.NextHead | src/main.cpp:240 | the moved head stays on the ring |
| Ring.HeadMovesOnePixel | src/main.cpp:240 | each move advances the head by exactly one pixel modulo 16, and sixteen moves bring it back |
| Ring.HeadAfter | src/main.cpp:240 | over a run of frames, moving on each frame whose gate fired, the head stays on the ring |
| Ring.HeadAfterCountsMoves | src/main.cpp:240 | over any run of frames the head ends exactly as many pixels ahead, modulo 16, as its move gate fired: no move is lost or doubled |
| Ring.OppositeHead | src/main.cpp:237 | the opposite head is a ring pixel |
| Ring.OppositeHeadIsOther | src/main.cpp:342 | the opposite head is never the head itself, and each head is the other's opposite |
| Ring.RingColorIndicesDistinct | src/main.cpp:221 | the sixteen ring pixels get sixteen different palette indices, 16 apart modulo 256 |
| Ring.FillRainbow | src/main.cpp:251-261 | pixel i of the first numToFill pixels gets hue initialhue + i * deltahue modulo 256; the other pixels are unchanged |
| Ring.HueStep | src/main.cpp:259 | the 8-bit `hsv.hue += deltahue` keeps the hue equal to its closed form |
| Ring.SinelonAdvanceKeepsGap | src/main.cpp:378-381 | advancing both comet indices keeps indexB 127 ahead of indexA modulo 256 |
| Ring.BpmBrightnessLadder | src/main.cpp:390 | pixel i's brightness is pixel 0's plus 10 * i modulo 256, and wraps to a dim value once beat - 1 + 10 * i passes 255 |
| Ring.WashingColorIndexNoWrap | src/main.cpp:336 | on the ring the washing-machine palette index is 15 * pos, at most 225, without wrap |
| Selection.TableSizes | src/main.cpp:80-105 | both pattern tables have ten entries |
| Selection.BoundsCorrect | src/main.cpp:190-191 | a loaded index is always inside the table: kept when it was inside, 0 otherwise |
| Selection.Advance | src/main.cpp:596 | the advanced index is inside the table |
| Selection.AdvanceCycles | src/main.cpp:596 | an index moves to the next table entry, and from the last entry back to the first |
| Selection.AdvanceTimesIsSteps | src/main.cpp:594-604 | from an index inside the table, k presses are k steps round the ten-entry cycle |
| Selection.TenPressesReturn | src/main.cpp:594-604 | ten presses return an index to where it started and visit ten different patterns on the way |
| Selection.OutOfRangeLoadsAsZero | src/main.cpp:186-191 | a stored index equal to the table length loads as 0, and no number of presses after loading leaves the table |
| Firmware.DiametricHueOpposite | src/main.cpp:433 | the back panel's hue is 127 steps behind the front panel's on the 256-step hue wheel, never the same hue |
| Firmware.SinelonLastRoundKeepsGap | src/main.cpp:370-375 | the colours the loop leaves at the comets, from its last round, come from palette indices still 127 apart |
| Firmware.YelmagAfterTiamatDrawsTiamat | src/main.cpp:322-350 | at table level, a `wmYelmag` pass after the first `wmTiamat` pass keeps the Tiamat palette latched and draws its head in the Tiamat colour |
| Firmware.WashingMachinePaletteLatched | src/main.cpp:325 | as written, once `wmTiamat` has run, `wmYelmag` renders with the Tiamat palette, which differs from the Yelmag one |
| Firmware.Luma.Setup | src/main.cpp:174-192 | after power-up both pattern indices are the bounds-corrected stored values (the EEPROM keeps the raw ones), the buffer is black, every static starts at its declared initial value, and the nine timers are nine new, distinct objects, each starting its interval at power-up |
| Firmware.Luma.OuterPatternAdvance | src/main.cpp:594-598 | the outer index moves to the next table entry and that index is the value saved |
| Firmware.Luma.InnerPatternAdvance | src/main.cpp:600-604 | the inner index moves to the next table entry and that index is the value saved |
| Firmware.Luma.PaintRainbowRing | src/main.cpp:267-271 | every ring pixel is the rainbow palette at its ring index, scaled to the outer ceiling; the inner pixels are unchanged |
| Firmware.Luma.OuterRainbow | src/main.cpp:219-226 | the scaled rainbow on the ring, inner pixels unchanged; the hue moves by one exactly when its 20 ms gate fires |
| Firmware.Luma.DualSinePulsePattern | src/main.cpp:231-249 | the ring in the base colour with both heads at head brightness, then one tail step if the 50 ms gate fired; the head moves one pixel exactly when the 150 ms gate fires; inner pixels unchanged |
| Firmware.Luma.BrightenHeads | src/main.cpp:274-279 | the head and its opposite are multiplied by the head brightness from their current colour; every other pixel is unchanged |
| Firmware.Luma.WispyRainbow | src/main.cpp:264-301 | the scaled rainbow with both heads multiplied to head brightness, then one tail step if the 50 ms gate fired; the hue moves on the 20 ms gate; the head moves, and the move time is recorded, exactly when the 16-bit elapsed time exceeds `dynamicSpeed` |
| Firmware.Luma.WashingMachineEffect | src/main.cpp:322-344 | the intended behaviour: the ring faded by 20 except the head at pos and its opposite, which take the passed palette's colour at 15 * pos with brightness bri; inner pixels unchanged |
| Firmware.Luma.WashingMachineEffectAsWritten | src/main.cpp:322-350 | the behaviour `wmTiamat` and `wmYelmag` have as written, and the one `loop` runs: the same frame, but drawn with the palette of the first call, which the static keeps from then on |
| Firmware.Luma.SinelonDualEffect | src/main.cpp:355-382 | the ring faded by 20 except the two comets, which keep the colours of the loop's last round (comet B when they meet); both indices advance together on the 20 ms gate, keeping their gap |
| Firmware.Luma.Bpm | src/main.cpp:385-392 | ring pixel i is the rainbow palette at its ring index with brightness `beat - 1 + 10 * i` in 8 bits; inner pixels unchanged |
| Firmware.Luma.BpmFlood | src/main.cpp:395-400 | every ring pixel is the rainbow palette at the beat with brightness 150; inner pixels unchanged |
| Firmware.Luma.OuterComet | src/main.cpp:405-418 | the head pixel set to grey 10, then one tail step if the 50 ms gate fired; the head moves one pixel exactly when the 150 ms gate fires; inner pixels unchanged |
| Firmware.Luma.InnerBlOnRd | src/main.cpp:425-428 | front panel blue 20, back panel red 25, ring unchanged |
| Firmware.Luma.InnerDiametricFade | src/main.cpp:431-437 | front panel at the hue, back panel at the hue minus 127, each scaled to its ceiling; the hue moves on the 100 ms gate; ring unchanged |
| Firmware.Luma.ApplyPanel | src/main.cpp:510-518 | a panel's two pixels are their colours scaled by `scale8(envelope output, ceiling)`; nothing else changes |
| Firmware.Luma.StepLatches | src/main.cpp:483-495 | each panel's latch takes exactly the step `LatchStep` gives on its own beat |
| Firmware.Luma.InnerCrossfadePalette | src/main.cpp:439-519 | each panel's latch takes one step on its own beat (front offset by 60 in a 160-step cycle); each panel shows the rainbow palette at its new index and 50 beyond, scaled by its two envelope outputs and its ceiling; the ring is unchanged |
| Firmware.Luma.InnerCrossfadeTwoColorCore | src/main.cpp:521-570 | both pixels of each panel in the panel's colour, scaled by the two envelope outputs of its beat (front offset by 40 in a 120-step cycle) and its ceiling; only the four inner pixels change |
| Firmware.Luma.ButtonOnePressed | src/main.cpp:614-618 | the buffer is blanked, then both indices move to their next table entries and are saved |
| Firmware.Luma.RenderOuter | src/main.cpp:80-91 | the ring and the outer statics become exactly what the entry that ran makes of them (`OuterPixel`, `OuterStep`, one case per entry at src/main.cpp:219-418); the four inner pixels keep their colours; the two washing-machine entries draw with, and latch, the palette of the first washing-machine call |
| Firmware.Luma.RenderInner | src/main.cpp:94-105 | the four panel pixels and the panel latches become exactly what the entry that ran makes of them (`InnerPixel`, `InnerStep`, one case per entry at src/main.cpp:439-592); the sixteen ring pixels keep their colours |
| Firmware.Luma.RenderFrame | src/main.cpp:623-624 | the outer entry then the inner entry: every pixel of the frame and every pattern static become what the two entries make of them |
| Firmware.Luma.Loop | src/main.cpp:610-628 | a press of button 1 advances and saves both indices, button 2 changes nothing, the patterns that run are the table entries at the resulting indices, and the frame and statics are what those two entries make of them, starting from a black frame after a press |
| Firmware.SetupThenFirstLoop | src/main.cpp:174-192 | the first frame after power-up is the one the table entries at the bounds-corrected stored indices draw on a black frame from the statics' declared initial values |

## Left out

- Hardware and I/O: LED registration, pin modes, `FastLED.show` and `FastLED.delay` are not modelled. Bounce debouncing is reduced to the two "fell" flags given to `Luma.Loop`. The EEPROM is a pair of ghost fields holding the last values saved.
- `update_millis` is a timing hook for the library, not frame logic, and is not part of this model.
- FastLED's primitives (`scale8`, `CRGB * uint8_t`, `triwave8`, `ease8InOutCubic`, `ColorFromPalette`, the HSV to RGB conversion, `fadeToBlackBy`) are unconstrained functions apart from their 8-bit types, and the gradient palettes are names, not colour tables. As a result, facts that rest on the primitives' values are not stated. Examples are "scaling by 255 keeps the colour" and "the envelope peaks mid-window".
- `millis`, `beat8`, `beatsin8` and `beatsin16` are parameters. Only the ring positions are required to lie on the ring, which is what `beatsin16(_, 0, 15)` returns.
- Timing.Gate.constructor: FastLED creates each `EVERY_N_MILLISECONDS` timer on the first pass through its call site, with that pass's time. The model creates all nine timers at power-up with a given time.
- Timing.Gate.Ready: on firing, FastLED restarts the interval from a fresh `millis()` reading. The model uses the same `now` the gate tested; the two differ only by the time spent between the two readings.
- `patternBrightnessAdvance` has an empty body, so button 2 does nothing. Brightness cycling and the rhythm simulator do not exist in the source.
- Arduino's `map` computes in 32-bit `long`. The largest product here is 255 * 160 = 40800 (at most 255 * 255 for any 8-bit arguments), so no overflow is possible and the model uses unbounded integers.

## Findings

| source | as written | input that shows it | evidently intended | confidence | as-written member | corrected member |
|---|---|---|---|---|---|---|
| src/main.cpp:325 | `static CRGBPalette16 wmPalette = palette;` is initialised on the first call only, so every later call ignores its argument | power up on `wmTiamat`, then press button 1 once to reach `wmYelmag` | each wrapper draws with the palette it passes (`wmYelmag` with the Yelmag palette) | not executed | Firmware.WashingMachinePaletteLatched | Firmware.Luma.WashingMachineEffect |

`Luma.Loop` runs the code as written, through `WashingMachineEffectAsWritten`, and its contract carries the latch (`YelmagAfterTiamatDrawsTiamat`); `WashingMachineEffect` is the per-call palette behaviour the wrappers evidently intend; apart from the palette, both draw the same frame.
