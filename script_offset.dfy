/** The manual playback offset of the single-page pipeline: `clamp`
    (script.js:80) and the offset buttons that move `manualOffset` within
    ±2 seconds (script.js:108-116). */
module ScriptOffset {
  import opened Wrappers
  import opened PitchMath

  /** clamp(v, lo, hi) = max(lo, min(hi, v)). */
  function Clamp(v: real, lo: real, hi: real): (r: real)
    ensures lo <= hi ==> lo <= r <= hi
    ensures lo <= v <= hi ==> r == v
    ensures v < lo ==> r == lo
    ensures lo <= hi < v ==> r == hi
  {
    Max(lo, Min(hi, v))
  }

  /** How far the manual offset may go either way, in seconds. */
  const OffsetLimit: real := 2.0

  /** One button press moving the offset by delta. */
  function Pressed(offset: real, delta: real): (r: real)
    ensures -OffsetLimit <= r <= OffsetLimit
  {
    Clamp(offset + delta, -OffsetLimit, OffsetLimit)
  }

  /** The offset after a sequence of presses, first press first. */
  function AfterPresses(offset: real, deltas: seq<real>): real
    decreases |deltas|
  {
    if |deltas| == 0 then offset
    else AfterPresses(Pressed(offset, deltas[0]), deltas[1..])
  }

  /** After at least one press the offset is within ±2 s, and an offset
      already within ±2 s stays there. */
  lemma {:induction false} PressesStayInRange(offset: real, deltas: seq<real>)
    requires |deltas| > 0 || -OffsetLimit <= offset <= OffsetLimit
    ensures -OffsetLimit <= AfterPresses(offset, deltas) <= OffsetLimit
    decreases |deltas|
  {
    if |deltas| > 0 {
      PressesStayInRange(Pressed(offset, deltas[0]), deltas[1..]);
    }
  }

  /** The page's offset state. */
  class OffsetControl {
    var manualOffset: real

    /** `parseFloat(stored || '0') || 0`: a stored value that does not parse
        (None) or parses to zero gives 0; the stored value is not clamped. */
    constructor(stored: Option<real>)
      ensures manualOffset == (if stored.Some? then stored.value else 0.0)
    {
      manualOffset := if stored.Some? then stored.value else 0.0;
    }

    /** An offset button: move by delta and clamp to ±2 s. */
    method Press(delta: real)
      modifies this
      ensures manualOffset == Pressed(old(manualOffset), delta)
      ensures -OffsetLimit <= manualOffset <= OffsetLimit
    {
      manualOffset := Clamp(manualOffset + delta, -OffsetLimit, OffsetLimit);
    }
  }
}
