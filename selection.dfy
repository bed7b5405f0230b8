/** Pattern selection: the two pattern tables, the start-up bounds check of
    the stored indices and the button-driven advance. */
module Selection {
  import opened Ints
  import opened Cyclic

  datatype OuterPattern =
    | WispyRainbow | Daylight | BerlinMode | CyanMode | MagentaMode
    | WmTiamat | WmYelmag | SinelonDualEffect | Bpm | BpmFlood

  datatype InnerPattern =
    | InnerCrossfadePalette | InnerCrossfadeRedWhite | InnerCrossfadeOrangeCyan
    | InnerCrossfadeMagentaTurquoise | InnerCrossfadeGoldPink

  /** `outerPatternList`, in table order. */
  const OuterPatternList: seq<OuterPattern> :=
    [WispyRainbow, Daylight, BerlinMode, CyanMode, MagentaMode,
     WmTiamat, WmYelmag, SinelonDualEffect, Bpm, BpmFlood]

  /** `innerPatternList`, in table order (paired 1-to-1 with the outer list). */
  const InnerPatternList: seq<InnerPattern> :=
    [InnerCrossfadePalette, InnerCrossfadePalette, InnerCrossfadeRedWhite,
     InnerCrossfadeOrangeCyan, InnerCrossfadeMagentaTurquoise, InnerCrossfadeGoldPink,
     InnerCrossfadePalette, InnerCrossfadeRedWhite, InnerCrossfadeGoldPink,
     InnerCrossfadeGoldPink]

  /** `ARRAY_SIZE` of either table. */
  const PATTERN_COUNT := 10

  lemma TableSizes()
    ensures |OuterPatternList| == PATTERN_COUNT && |InnerPatternList| == PATTERN_COUNT
  {
  }

  /** The start-up safety check on an index read from EEPROM: an index
      inside the table is kept, anything else becomes 0. */
  function BoundsCorrect(stored: u8): (r: u8)
    ensures r < PATTERN_COUNT
    ensures stored < PATTERN_COUNT ==> r == stored
    ensures stored >= PATTERN_COUNT ==> r == 0
  {
    if stored >= PATTERN_COUNT then 0 else stored
  }

  /** `*PatternAdvance`: `(index + 1) % ARRAY_SIZE(list)`. */
  function Advance(index: u8): (r: u8)
    ensures r < PATTERN_COUNT
  {
    Succ(index, PATTERN_COUNT)
  }

  /** An index in the table moves to the next entry, and from the last
      entry back to the first. */
  lemma AdvanceCycles(index: u8)
    requires index < PATTERN_COUNT
    ensures index < PATTERN_COUNT - 1 ==> Advance(index) == index + 1
    ensures index == PATTERN_COUNT - 1 ==> Advance(index) == 0
  {
  }

  /** The index after k button presses. */
  function AdvanceTimes(index: u8, k: nat): (r: u8)
    ensures k > 0 || index < PATTERN_COUNT ==> r < PATTERN_COUNT
  {
    if k == 0 then index else Advance(AdvanceTimes(index, k - 1))
  }

  /** From an index inside the table, k presses are k steps around the
      ten-entry cycle. */
  lemma {:induction false} AdvanceTimesIsSteps(index: u8, k: nat)
    requires index < PATTERN_COUNT
    ensures AdvanceTimes(index, k) == Steps(index, PATTERN_COUNT, k)
  {
    if k > 0 {
      AdvanceTimesIsSteps(index, k - 1);
    }
  }

  /** Ten presses return a valid index to where it started, and the ten
      presses in between visit ten different patterns. */
  lemma TenPressesReturn(index: u8, j: nat, k: nat)
    requires index < PATTERN_COUNT
    requires j < k < PATTERN_COUNT
    ensures AdvanceTimes(index, PATTERN_COUNT) == index
    ensures AdvanceTimes(index, j) != AdvanceTimes(index, k)
  {
    AdvanceTimesIsSteps(index, PATTERN_COUNT);
    AdvanceTimesIsSteps(index, j);
    AdvanceTimesIsSteps(index, k);
    FullTurnReturns(index, PATTERN_COUNT);
    StepsDistinctWithinTurn(index, PATTERN_COUNT, j, k);
  }

  /** A stored index equal to the table length loads as 0, and loading
      then pressing never leaves the table. */
  lemma OutOfRangeLoadsAsZero(stored: u8, k: nat)
    ensures stored == PATTERN_COUNT ==> BoundsCorrect(stored) == 0
    ensures AdvanceTimes(BoundsCorrect(stored), k) < PATTERN_COUNT
  {
  }
}
