/**
 Ticks and microseconds: `smol_now` and the deadline conversion of `poll_network` in
 `src/network.rs`, over the 64-bit tick types of `src/main.rs` at the rate of `src/conf.rs`.
 */
module Clock {
  const CLOCK_HZ: nat := 30_000_000
  const MICROS_PER_SEC: nat := 1_000_000
  const U64: nat := 0x1_0000_0000_0000_0000
  const I64_MAX: nat := 0x7FFF_FFFF_FFFF_FFFF

  // The largest microsecond count whose tick count fits 64 bits.
  const MAX_MICROS: nat := (U64 - 1) / 30

  /** `Duration::to_micros` at `hz` ticks a second: rounded down. */
  function ToMicros(ticks: nat, hz: nat): nat
    requires hz > 0
  {
    ticks * MICROS_PER_SEC / hz
  }

  /** `Duration::micros_at_least`: rounded up. */
  function MicrosAtLeast(micros: nat, hz: nat): nat {
    (micros * hz + (MICROS_PER_SEC - 1)) / MICROS_PER_SEC
  }

  lemma FloorAtLeast(a: nat, b: nat, q: nat)
    requires b > 0
    ensures a / b >= q <==> a >= q * b
  {
    assert a == a / b * b + a % b;
    if a / b >= q {
      MulLe(q, a / b, b);
    } else {
      MulLe(a / b + 1, q, b);
      assert (a / b + 1) * b == a / b * b + b;
    }
  }

  lemma MulLe(x: nat, y: nat, b: nat)
    requires x <= y
    ensures x * b <= y * b
  {
  }

  lemma CeilAtMost(a: nat, b: nat, q: nat)
    requires b > 0
    ensures q >= (a + (b - 1)) / b <==> q * b >= a
  {
    FloorAtLeast(a + (b - 1), b, q + 1);
    assert (q + 1) * b == q * b + b;
  }

  /**
   At any tick rate the two roundings fit: a clock reads at least `micros` microseconds exactly from
   the tick that `micros_at_least` names, not one tick earlier.
   */
  lemma RoundingsAgree(ticks: nat, micros: nat, hz: nat)
    requires hz > 0
    ensures ToMicros(ticks, hz) >= micros <==> ticks >= MicrosAtLeast(micros, hz)
  {
    FloorAtLeast(ticks * MICROS_PER_SEC, hz, micros);
    CeilAtMost(micros * hz, MICROS_PER_SEC, ticks);
  }

  /** `at.total_micros() & (Ticks::MAX as i64)`, where `u64::MAX as i64` is all ones. */
  function Masked(bits: bv64): bv64 { bits & 0xFFFF_FFFF_FFFF_FFFF }

  /** The tick count `poll_network` builds from the instant smoltcp asks for; 64-bit products wrap. */
  function Deadline(at: nat): nat { MicrosAtLeast(at, CLOCK_HZ) % U64 }

  /** `smol_now`, in microseconds, at clock reading `now`: cast to i64 bit for bit. */
  function SmolNow(now: nat): int {
    var micros := ToMicros(now, CLOCK_HZ) % U64;
    if micros <= I64_MAX then micros else micros - U64
  }

  lemma TimesThirty(micros: nat)
    ensures MicrosAtLeast(micros, CLOCK_HZ) == micros * 30
  {
  }

  /** Neither the mask, nor the cast to i64, nor the product at 30 MHz changes a value it should not. */
  lemma ConversionsAreExact(bits: bv64, now: nat, at: nat)
    requires now < U64
    ensures Masked(bits) == bits
    ensures 0 <= SmolNow(now) == now / 30 <= I64_MAX
    ensures at <= MAX_MICROS <==> at * 30 < U64
    ensures at <= MAX_MICROS ==> Deadline(at) == at * 30
  {
  }

  /**
   A wakeup at the deadline is never early and never a tick late: for every 64-bit clock reading, the
   deadline has passed exactly when `smol_now` has reached the instant smoltcp asked for. This is so
   for the whole clock exactly when that instant is within `MAX_MICROS`, about 19 500 years.
   */
  lemma DeadlineIsExact(at: nat)
    ensures (forall now :: 0 <= now < U64 ==> (now >= Deadline(at) <==> SmolNow(now) >= at)) <==> at <= MAX_MICROS
  {
    TimesThirty(at);
    if at <= MAX_MICROS {
      forall now | 0 <= now < U64 ensures now >= Deadline(at) <==> SmolNow(now) >= at {
        DueWhenReached(now, at);
      }
    } else {
      // The product has wrapped: the deadline lies before the instant it stands for.
      var early := Deadline(at);
      ConversionsAreExact(0, early, at);
      assert 0 <= early < U64 && early >= Deadline(at) && SmolNow(early) < at;
    }
  }

  lemma DueWhenReached(now: nat, at: nat)
    requires now < U64 && at <= MAX_MICROS
    ensures now >= Deadline(at) <==> SmolNow(now) >= at
  {
  }
}
