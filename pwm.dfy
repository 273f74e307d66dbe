/** Pure specification of the Timer-0 PWM engine: the round-robin cursor,
    the lines raised on overflow, and the activity-LED countdown. */
module Pwm {
  import opened Wiring

  /** Number of rounds: channel `r` and channel `r + 5` share round `r`. */
  const Rounds: nat := 5

  /** Led countdown loaded at boot (100 overflows of about 4 ms). */
  const BootLedTicks: uint8 := 100

  // ---------------------------------------------------------------------------
  // Round-robin cursor

  /** The cursor after one overflow: incremented, and reset to 0 once it
      exceeds 4. */
  function NextRound(r: nat): (n: nat)
    requires r < Rounds
    ensures n < Rounds
    ensures n == (r + 1) % Rounds
  {
    if r + 1 > 4 then 0 else r + 1
  }

  /** The cursor after `k` overflows, starting from `r`. */
  function CursorAfter(r: nat, k: nat): (n: nat)
    requires r < Rounds
    ensures n < Rounds
    decreases k
  {
    if k == 0 then r else CursorAfter(NextRound(r), k - 1)
  }

  /** The rounds served by `k` consecutive overflows starting from cursor `r`
      (each overflow serves the round its cursor names on entry). */
  function Visited(r: nat, k: nat): (s: seq<nat>)
    requires r < Rounds
    ensures |s| == k
    decreases k
  {
    if k == 0 then [] else [r] + Visited(NextRound(r), k - 1)
  }

  /** After `k` overflows the cursor has advanced by `k` modulo 5. */
  lemma {:induction false} CursorAfterIsModular(r: nat, k: nat)
    requires r < Rounds
    ensures CursorAfter(r, k) == (r + k) % Rounds
    decreases k
  {
    if k > 0 {
      CursorAfterIsModular(NextRound(r), k - 1);
    }
  }

  /** The `i`-th overflow from cursor `r` serves round `(r + i) mod 5`. */
  lemma {:induction false} VisitedIsCyclic(r: nat, k: nat, i: nat)
    requires r < Rounds && i < k
    ensures Visited(r, k)[i] == (r + i) % Rounds
    decreases k
  {
    if i > 0 {
      VisitedIsCyclic(NextRound(r), k - 1, i - 1);
    }
  }

  /** The `i`-th of five overflows from cursor `r` serves round `r + i`,
      wrapped past 4. */
  lemma FiveOverflowsFrom(r: nat, i: nat)
    requires r < Rounds && i < Rounds
    ensures Visited(r, Rounds)[i] == if r + i < Rounds then r + i else r + i - Rounds
  {
    VisitedIsCyclic(r, Rounds, i);
  }

  /** Five consecutive overflows serve every round and bring the cursor back
      to where it started. */
  lemma FiveOverflowsServeEveryRound(r: nat)
    requires r < Rounds
    ensures forall q :: 0 <= q < Rounds ==> q in Visited(r, Rounds)
    ensures CursorAfter(r, Rounds) == r
  {
    forall q | 0 <= q < Rounds
      ensures q in Visited(r, Rounds)
    {
      var i := if q >= r then q - r else q + Rounds - r;
      FiveOverflowsFrom(r, i);
    }
    CursorAfterIsModular(r, Rounds);
  }

  /** Five consecutive overflows serve no round twice. */
  lemma FiveOverflowsServeNoRoundTwice(r: nat)
    requires r < Rounds
    ensures forall i, j :: 0 <= i < j < Rounds ==> Visited(r, Rounds)[i] != Visited(r, Rounds)[j]
  {
    forall i, j | 0 <= i < j < Rounds
      ensures Visited(r, Rounds)[i] != Visited(r, Rounds)[j]
    {
      FiveOverflowsFrom(r, i);
      FiveOverflowsFrom(r, j);
    }
  }

  // ---------------------------------------------------------------------------
  // Lines raised on overflow

  /** The registers after the overflow that serves round `r`: the line of
      channel `r` is raised if its value is nonzero, then the line of channel
      `r + 5` if its value is nonzero. */
  function RaiseRound(ports: Ports, r: nat, values: seq<bv8>): (raised: Ports)
    requires r < Rounds && |values| == Channels
  {
    var first := if values[r] != 0 then ports.Raise(ChannelPin(r)) else ports;
    if values[r + 5] != 0 then first.Raise(ChannelPin(r + 5)) else first
  }

  /** Serving round `r` drives a channel's line high exactly when the channel
      belongs to round `r` and its value is nonzero, and leaves every other
      channel line as it was; no line is driven low. */
  lemma RaiseRoundLines(ports: Ports, r: nat, values: seq<bv8>, c: nat)
    requires r < Rounds && |values| == Channels && c < Channels
    ensures RaiseRound(ports, r, values).High(ChannelPin(c)) ==
            (ports.High(ChannelPin(c)) || (c % Rounds == r && values[c] != 0))
  {
    var first := if values[r] != 0 then ports.Raise(ChannelPin(r)) else ports;
    RaiseAffectsLine(ports, ChannelPin(r), ChannelPin(c));
    RaiseAffectsLine(first, ChannelPin(r + 5), ChannelPin(c));
    ChannelLinesDistinct(r, c);
    ChannelLinesDistinct(r + 5, c);
    assert c % Rounds == r <==> c == r || c == r + 5;
  }

  /** Serving a round leaves the LED line as it was. */
  lemma RaiseRoundKeepsLed(ports: Ports, r: nat, values: seq<bv8>)
    requires r < Rounds && |values| == Channels
    ensures RaiseRound(ports, r, values).High(LedPin) == ports.High(LedPin)
  {
    var first := if values[r] != 0 then ports.Raise(ChannelPin(r)) else ports;
    RaiseAffectsLine(ports, ChannelPin(r), LedPin);
    RaiseAffectsLine(first, ChannelPin(r + 5), LedPin);
  }

  /** The registers after an overflow that serves round `r` and finds the
      LED countdown at `t`: the round's lines are raised, then the LED line
      (PB6) if this overflow switches the LED off. */
  function OverflowOutputs(ports: Ports, r: nat, values: seq<bv8>, t: uint8): (outputs: Ports)
    requires r < Rounds && |values| == Channels
  {
    var raised := RaiseRound(ports, r, values);
    if SwitchesOff(t) then raised.Raise(LedPin) else raised
  }

  /** An overflow drives a channel's line high exactly when the channel
      belongs to the round served and its value is nonzero, leaves the other
      channel lines as they were, and drives the LED line high exactly when
      it was high already or the countdown runs out on this overflow. */
  lemma OverflowLines(ports: Ports, r: nat, values: seq<bv8>, t: uint8, c: nat)
    requires r < Rounds && |values| == Channels && c < Channels
    ensures OverflowOutputs(ports, r, values, t).High(ChannelPin(c)) ==
            (ports.High(ChannelPin(c)) || (c % Rounds == r && values[c] != 0))
    ensures OverflowOutputs(ports, r, values, t).High(LedPin) == (ports.High(LedPin) || SwitchesOff(t))
  {
    RaiseRoundLines(ports, r, values, c);
    RaiseRoundKeepsLed(ports, r, values);
    RaiseAffectsLine(RaiseRound(ports, r, values), LedPin, ChannelPin(c));
    RaiseAffectsLine(RaiseRound(ports, r, values), LedPin, LedPin);
  }

  /** An overflow only ever drives lines high, and exactly these: the line
      of channel `r` if its value is nonzero, the line of channel `r + 5` if
      its value is nonzero, and the LED line if the countdown runs out; every
      other bit of PORTA, PORTB and PORTD keeps its state. */
  lemma OverflowRaisesOnly(ports: Ports, r: nat, values: seq<bv8>, t: uint8, q: Pin)
    requires r < Rounds && |values| == Channels
    ensures OverflowOutputs(ports, r, values, t).High(q) ==
            (ports.High(q) ||
             (q == ChannelPin(r) && values[r] != 0) ||
             (q == ChannelPin(r + 5) && values[r + 5] != 0) ||
             (q == LedPin && SwitchesOff(t)))
  {
    var first := if values[r] != 0 then ports.Raise(ChannelPin(r)) else ports;
    RaiseAffectsLine(ports, ChannelPin(r), q);
    RaiseAffectsLine(first, ChannelPin(r + 5), q);
    RaiseAffectsLine(RaiseRound(ports, r, values), LedPin, q);
  }

  /** The compare match of a channel's group ends the pulse the overflow
      started: whatever round was served, the line of channel `c` is low
      once compare A (channels 0-4) or compare B (channels 5-9) has run. */
  lemma CompareEndsPulse(ports: Ports, r: nat, values: seq<bv8>, t: uint8, c: nat)
    requires r < Rounds && |values| == Channels && c < Channels
    ensures var lo := if c < Rounds then 0 else Rounds;
            !LowerChannels(OverflowOutputs(ports, r, values, t), lo, lo + Rounds).High(ChannelPin(c))
  {
    var lo := if c < Rounds then 0 else Rounds;
    LowerChannelsEffect(OverflowOutputs(ports, r, values, t), lo, lo + Rounds, c);
  }

  // ---------------------------------------------------------------------------
  // Activity-LED countdown

  /** The countdown after one overflow: decremented only while nonzero. */
  function LedTick(t: uint8): (next: uint8) {
    if t != 0 then t - 1 else t
  }

  /** The overflow that finds the countdown at `t` switches the LED off. */
  predicate SwitchesOff(t: uint8): (off: bool) {
    t != 0 && LedTick(t) == 0
  }

  /** The countdown after `k` overflows. */
  function CountdownAfter(t: uint8, k: nat): (rest: uint8)
    decreases k
  {
    if k == 0 then t else LedTick(CountdownAfter(t, k - 1))
  }

  /** The overflows (numbered from 1) among the first `k` that switch the
      LED off. */
  function OffTicks(t: uint8, k: nat): (ticks: set<nat>)
    decreases k
  {
    if k == 0 then {}
    else OffTicks(t, k - 1) + (if SwitchesOff(CountdownAfter(t, k - 1)) then {k} else {})
  }

  /** After `k` overflows the countdown stands at `t - k`, or at 0 once it
      has run out. */
  lemma {:induction false} CountdownClosedForm(t: uint8, k: nat)
    ensures CountdownAfter(t, k) as int == if k < t as int then t as int - k else 0
    decreases k
  {
    if k > 0 {
      CountdownClosedForm(t, k - 1);
    }
  }

  /** Starting from `t > 0`, the LED is switched off exactly once, on the
      `t`-th overflow; starting from 0 it is never switched off. */
  lemma {:induction false} LedSwitchesOffOnce(t: uint8, k: nat)
    ensures OffTicks(t, k) == if 0 < t as int <= k then {t as nat} else {}
    decreases k
  {
    if k > 0 {
      LedSwitchesOffOnce(t, k - 1);
      CountdownClosedForm(t, k - 1);
    }
  }
}
