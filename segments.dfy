/** The 20-pixel frame buffer and its three fixed segment views
    (`leds_outer`, `leds_inner_front`, `leds_inner_back`), with the
    in-place rendering primitives the patterns apply to one view. */
module Segments {
  import opened Ints
  import opened FastLed

  const NUM_LEDS := 20

  /** A view `leds(First(), Last())` over the frame buffer; both ends inclusive. */
  datatype Segment = Outer | InnerFront | InnerBack {

    function First(): nat
    {
      match this
      case Outer => 0
      case InnerFront => 16
      case InnerBack => 18
    }

    function Last(): nat
    {
      match this
      case Outer => 15
      case InnerFront => 17
      case InnerBack => 19
    }

    function Len(): nat
    {
      Last() - First() + 1
    }

    predicate Contains(i: int)
    {
      First() <= i <= Last()
    }
  }

  /** The outer ring has 16 pixels and each inner panel 2. */
  lemma SegmentLengths()
    ensures Outer.Len() == 16 && InnerFront.Len() == 2 && InnerBack.Len() == 2
  {
  }

  /** Every pixel of the buffer lies in exactly one view, and no view
      reaches outside the buffer. */
  lemma SegmentsPartitionFrame(i: int)
    ensures 0 <= i < NUM_LEDS <==> Outer.Contains(i) || InnerFront.Contains(i) || InnerBack.Contains(i)
    ensures !(Outer.Contains(i) && InnerFront.Contains(i))
    ensures !(Outer.Contains(i) && InnerBack.Contains(i))
    ensures !(InnerFront.Contains(i) && InnerBack.Contains(i))
  {
  }

  /** `(uint8_t)(v * 0.99f)`, the tail decay of the point patterns. For v in
      0..255 the fraction of 0.99 * v is a multiple of 0.01 and the float
      error is below 1e-5, so the truncated product is exactly v * 99 / 100. */
  function Decay99(v: u8): (r: u8)
    ensures r <= v
    ensures v > 0 ==> r < v
  {
    v * 99 / 100
  }

  function DecayColor(c: RGB): RGB
  {
    RGB(Decay99(c.r), Decay99(c.g), Decay99(c.b))
  }

  /** A channel after n decay ticks. */
  function DecayTicks(v: u8, n: nat): u8
  {
    if n == 0 then v else Decay99(DecayTicks(v, n - 1))
  }

  /** Each decay tick takes at least one off a lit channel, so a tail left
      alone is dark after at most `v` ticks. */
  lemma {:induction false} DecayReachesBlack(v: u8, n: nat)
    ensures DecayTicks(v, n) <= if n <= v then v - n else 0
    ensures n >= v ==> DecayTicks(v, n) == 0
  {
    if n > 0 {
      DecayReachesBlack(v, n - 1);
    }
  }

  class FrameBuffer {
    /** `leds_raw`: the pixels that are sent to the strip. */
    const leds: array<RGB>

    /** The zero-initialised global buffer. */
    constructor ()
      ensures leds.Length == NUM_LEDS && fresh(leds)
      ensures forall k :: 0 <= k < NUM_LEDS ==> leds[k] == Black
    {
      leds := new RGB[NUM_LEDS](_ => Black);
    }

    /** `seg[i] = c`, with i relative to the view. */
    method Set(seg: Segment, i: nat, c: RGB)
      requires leds.Length == NUM_LEDS && i < seg.Len()
      modifies leds
      ensures forall k :: 0 <= k < NUM_LEDS ==>
        leds[k] == if k == seg.First() + i then c else old(leds[k])
    {
      leds[seg.First() + i] := c;
    }

    /** `fill_solid(seg, seg.len, c)`. */
    method FillSolid(seg: Segment, c: RGB)
      requires leds.Length == NUM_LEDS
      modifies leds
      ensures forall k :: 0 <= k < NUM_LEDS ==>
        leds[k] == if seg.Contains(k) then c else old(leds[k])
    {
      var i := 0;
      while i < seg.Len()
        invariant 0 <= i <= seg.Len()
        invariant forall k :: 0 <= k < NUM_LEDS ==>
          leds[k] == if seg.First() <= k < seg.First() + i then c else old(leds[k])
      {
        leds[seg.First() + i] := c;
        i := i + 1;
      }
    }

    /** `setSegBrightness(seg, brightness)`: every channel of every pixel of
        the view is scaled by `brightness`, in place. */
    method SetSegBrightness(lib: Library, seg: Segment, brightness: u8)
      requires leds.Length == NUM_LEDS
      modifies leds
      ensures forall k :: 0 <= k < NUM_LEDS ==>
        leds[k] == if seg.Contains(k) then NScale8(lib, old(leds[k]), brightness) else old(leds[k])
    {
      var i := 0;
      while i < seg.Len()
        invariant 0 <= i <= seg.Len()
        invariant forall k :: 0 <= k < NUM_LEDS ==>
          leds[k] == if seg.First() <= k < seg.First() + i then NScale8(lib, old(leds[k]), brightness) else old(leds[k])
      {
        var p := leds[seg.First() + i];
        leds[seg.First() + i] := RGB(lib.scale8(p.r, brightness), lib.scale8(p.g, brightness), lib.scale8(p.b, brightness));
        i := i + 1;
      }
    }

    /** `fadeToBlackBy(seg, seg.len, amount)`. */
    method FadeToBlackBy(lib: Library, seg: Segment, amount: u8)
      requires leds.Length == NUM_LEDS
      modifies leds
      ensures forall k :: 0 <= k < NUM_LEDS ==>
        leds[k] == if seg.Contains(k) then lib.fadeToBlackBy(old(leds[k]), amount) else old(leds[k])
    {
      var i := 0;
      while i < seg.Len()
        invariant 0 <= i <= seg.Len()
        invariant forall k :: 0 <= k < NUM_LEDS ==>
          leds[k] == if seg.First() <= k < seg.First() + i then lib.fadeToBlackBy(old(leds[k]), amount) else old(leds[k])
      {
        leds[seg.First() + i] := lib.fadeToBlackBy(leds[seg.First() + i], amount);
        i := i + 1;
      }
    }

    /** The "dim the tail" loop: every channel of the view multiplied by 0.99. */
    method DecayTail(seg: Segment)
      requires leds.Length == NUM_LEDS
      modifies leds
      ensures forall k :: 0 <= k < NUM_LEDS ==>
        leds[k] == if seg.Contains(k) then DecayColor(old(leds[k])) else old(leds[k])
    {
      var i := 0;
      while i < seg.Len()
        invariant 0 <= i <= seg.Len()
        invariant forall k :: 0 <= k < NUM_LEDS ==>
          leds[k] == if seg.First() <= k < seg.First() + i then DecayColor(old(leds[k])) else old(leds[k])
      {
        var p := leds[seg.First() + i];
        leds[seg.First() + i] := RGB(Decay99(p.r), Decay99(p.g), Decay99(p.b));
        i := i + 1;
      }
    }

    /** `FastLED.clear()`: the whole buffer black, nothing transmitted. */
    method Clear()
      requires leds.Length == NUM_LEDS
      modifies leds
      ensures forall k :: 0 <= k < NUM_LEDS ==> leds[k] == Black
    {
      var i := 0;
      while i < NUM_LEDS
        invariant 0 <= i <= NUM_LEDS
        invariant forall k :: 0 <= k < i ==> leds[k] == Black
      {
        leds[i] := Black;
        i := i + 1;
      }
    }
  }
}
