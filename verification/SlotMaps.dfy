/** The fixed mapping between 27 MHz clock values and output slots at one locked
    mux rate (src/slot.rs), and the wrapping-clock arithmetic beside it
    (src/pcr.rs). */
module SlotMaps {
  import opened Prelude

  const PACKET_BITS: nat := 1504
  const CLOCK_HZ: nat := 27_000_000
  /** 27 MHz ticks times bits: what one slot costs before dividing by the rate. */
  const SLOT_COST: nat := PACKET_BITS * CLOCK_HZ
  /** The 33-bit 90 kHz base times 300. */
  const WRAP: nat := 0x2_0000_0000 * 300
  const TWO_64: nat := 0x1_0000_0000_0000_0000
  /** A longer forward step than this (in nanoseconds) is not elapsed time by default. */
  const DISCONTINUITY_GAP: nat := 5_000_000_000

  /** Forward distance on the wrapping clock. A decoded value may sit past the wrap,
      as the 9-bit extension is not range checked; the subtraction is then unsigned
      64-bit and wraps once more. */
  function ForwardDelta(previous: nat, current: nat): nat {
    if current >= previous then current - previous
    else if WRAP + current >= previous then WRAP + current - previous
    else if TWO_64 + WRAP + current >= previous then TWO_64 + WRAP + current - previous
    else 0
  }

  /** Whole nanoseconds in `ticks`. */
  function TicksToNanos(ticks: nat): nat {
    ticks * 1000 / 27
  }

  datatype SlotMap = SlotMap(rate: Positive) {

    /** The slot a packet carrying clock value `pcr` belongs in. */
    function SlotOfPcr(pcr: nat): nat {
      pcr * rate / SLOT_COST
    }

    /** Clock ticks from slot zero to `slot`, before the wrap is taken off. */
    function TicksOfSlot(slot: nat): nat {
      slot * SLOT_COST / rate
    }

    /** The clock value emitted in `slot`. */
    function PcrOfSlot(slot: nat): nat {
      TicksOfSlot(slot) % WRAP
    }

    function SlotsPerWrap(): nat {
      SlotOfPcr(WRAP)
    }
  }

  lemma QuotientBounds(n: nat, d: Positive)
    ensures n / d * d <= n < n / d * d + d
  {
    assert n == n / d * d + n % d;
  }

  lemma QuotientAtLeast(n: nat, d: Positive, q: nat)
    ensures q <= n / d <==> q * d <= n
  {
    QuotientBounds(n, d);
    if q <= n / d {
      MulMonotone(q, n / d, d);
    } else {
      MulMonotone(n / d + 1, q, d);
    }
  }

  lemma QuotientStep(m: nat, d: Positive)
    ensures (m + d) / d == m / d + 1
    ensures m < d ==> m / d == 0
  {
    var q := m / d;
    QuotientBounds(m, d);
    assert (q + 1) * d == q * d + d && (q + 2) * d == q * d + d + d;
    QuotientAtLeast(m + d, d, q + 1);
    QuotientAtLeast(m + d, d, q + 2);
    QuotientAtLeast(m, d, 1);
  }

  lemma MulMonotone(a: nat, b: nat, d: nat)
    requires a <= b
    ensures a * d <= b * d
  {
    assert (b - a) * d >= 0;
  }

  /** The two directions of the mapping are adjoint: a slot is reached by a clock
      value exactly when the value has covered the slot's ticks. */
  lemma SlotReached(m: SlotMap, slot: nat, pcr: nat)
    ensures slot <= m.SlotOfPcr(pcr) <==> slot * SLOT_COST <= pcr * m.rate
  {
    QuotientAtLeast(pcr * m.rate, SLOT_COST, slot);
  }

  lemma SlotMonotone(m: SlotMap, a: nat, b: nat)
    requires a <= b
    ensures m.SlotOfPcr(a) <= m.SlotOfPcr(b)
  {
    MulMonotone(a, b, m.rate);
    QuotientBounds(a * m.rate, SLOT_COST);
    QuotientAtLeast(b * m.rate, SLOT_COST, a * m.rate / SLOT_COST);
  }

  lemma TicksMonotone(m: SlotMap, a: nat, b: nat)
    requires a <= b
    ensures m.TicksOfSlot(a) <= m.TicksOfSlot(b)
  {
    MulMonotone(a, b, SLOT_COST);
    QuotientBounds(a * SLOT_COST, m.rate);
    QuotientAtLeast(b * SLOT_COST, m.rate, a * SLOT_COST / m.rate);
  }

  /** Going to the grid and back gives the slot again exactly when the slot's ticks
      are whole; otherwise rounding has lost it to an earlier slot. */
  lemma RoundTripExactlyOnWholeTicks(m: SlotMap, slot: nat)
    ensures m.SlotOfPcr(m.TicksOfSlot(slot)) <= slot
    ensures m.SlotOfPcr(m.TicksOfSlot(slot)) == slot <==> slot * SLOT_COST % m.rate == 0
  {
    var t := m.TicksOfSlot(slot);
    QuotientBounds(slot * SLOT_COST, m.rate);
    assert t * m.rate + slot * SLOT_COST % m.rate == slot * SLOT_COST;
    SlotReached(m, slot, t);
    SlotReached(m, slot + 1, t);
  }

  lemma QuantisedSum(m: SlotMap, pcr: nat, wraps: nat)
    ensures
      var cost := (m.SlotOfPcr(pcr) + wraps * m.SlotsPerWrap()) * SLOT_COST;
      var exact := (pcr + wraps * WRAP) * m.rate;
      cost <= exact < cost + (wraps + 1) * SLOT_COST
  {
    var a, b := m.SlotOfPcr(pcr) * SLOT_COST, m.SlotsPerWrap() * SLOT_COST;
    var whole := WRAP * m.rate;
    QuotientBounds(pcr * m.rate, SLOT_COST);
    QuotientBounds(whole, SLOT_COST);
    MulMonotone(b, whole, wraps);
    MulMonotone(whole, b + SLOT_COST, wraps);
    assert (m.SlotOfPcr(pcr) + wraps * m.SlotsPerWrap()) * SLOT_COST == a + b * wraps;
    assert (pcr + wraps * WRAP) * m.rate == pcr * m.rate + whole * wraps;
    assert (b + SLOT_COST) * wraps == b * wraps + SLOT_COST * wraps;
  }

  /** A clock value `wraps` wraps on, quantised the way the grid does it (each wrap
      rounded down separately), trails the true tick count by less than `wraps` + 1
      slots' ticks plus one: lag * rate < (wraps + 1) * SLOT_COST + rate. It never
      runs ahead. */
  lemma QuantisationLag(m: SlotMap, pcr: nat, wraps: nat)
    ensures
      var slot := m.SlotOfPcr(pcr) + wraps * m.SlotsPerWrap();
      var ticks := pcr + wraps * WRAP;
      m.TicksOfSlot(slot) <= ticks &&
      (ticks - m.TicksOfSlot(slot)) * m.rate < (wraps + 1) * SLOT_COST + m.rate
  {
    QuantisedSum(m, pcr, wraps);
    LagFromCost(m, m.SlotOfPcr(pcr) + wraps * m.SlotsPerWrap(), pcr + wraps * WRAP, (wraps + 1) * SLOT_COST);
  }

  lemma LagFromCost(m: SlotMap, slot: nat, ticks: nat, slack: nat)
    requires slot * SLOT_COST <= ticks * m.rate < slot * SLOT_COST + slack
    ensures m.TicksOfSlot(slot) <= ticks
    ensures (ticks - m.TicksOfSlot(slot)) * m.rate < slack + m.rate
  {
    var q := m.TicksOfSlot(slot);
    QuotientBounds(slot * SLOT_COST, m.rate);
    QuotientAtLeast(slot * SLOT_COST, m.rate, ticks + 1);
    assert (ticks + 1) * m.rate == ticks * m.rate + m.rate;
    assert (ticks - q) * m.rate == ticks * m.rate - q * m.rate;
  }
}
