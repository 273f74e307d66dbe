/** Pure specification of the USI-based I2C slave receiver that runs in the
    main loop: the device address, the address filter, what one frame
    stores, and what a run of the main loop does over a sequence of bus
    transactions.

    The bus is seen through the conditions the firmware busy-waits on: after
    a start condition, each wait ends either with a received byte or with a
    stop condition. A sequence of such events that runs out before a wait
    has ended stands for a bus on which that wait never ends. */
module I2cSlave {
  import opened Wiring

  // ---------------------------------------------------------------------------
  // Device address

  /** The configured address bits 4, 5 and 6 (all zero in this build). */
  const AdrBit4: bv8 := 0
  const AdrBit5: bv8 := 0
  const AdrBit6: bv8 := 0

  /** PB1..PB4: the address inputs, which are already in bus position
      (one bit to the left of the 7-bit address). */
  const AddressInputs: bv8 := 30

  /** Countdown loaded when a frame is addressed to this device (20 overflows
      of about 4 ms). */
  const LedOnTicks: uint8 := 20

  /** The address this device answers to, in bus format (the 7-bit address
      shifted one to the left), built from the constant high bits and the
      address inputs read from PINB. */
  function DeviceAddress(pinb: bv8): (a: bv8)
    ensures a & 1 == 0
    ensures a & AddressInputs == pinb & AddressInputs
    ensures a & 0xE0 == 0
  {
    (AdrBit6 << 7) | (AdrBit5 << 6) | (AdrBit4 << 5) | (pinb & AddressInputs)
  }

  /** With all four address inputs high (left unconnected, pulled up) the
      device answers to 0x1E. */
  lemma DefaultAddress(pinb: bv8)
    requires pinb & AddressInputs == AddressInputs
    ensures DeviceAddress(pinb) == 0x1E
  {
  }

  /** An address byte is accepted when it is the broadcast address 0 or the
      device address. */
  predicate Accepts(address: bv8, pinb: bv8): (ok: bool) {
    address == 0 || address == DeviceAddress(pinb)
  }

  /** Broadcast is accepted whatever the address inputs say, and an accepted
      address byte always has the read/write bit clear: the device never
      answers a read request. */
  lemma AcceptedAddresses(address: bv8, pinb: bv8)
    ensures Accepts(0, pinb)
    ensures Accepts(address, pinb) ==> address & 1 == 0
  {
  }

  // ---------------------------------------------------------------------------
  // One frame

  /** How a wait for a byte ended. */
  datatype Event = Byte(value: bv8) | Stop

  /** How the data phase of an accepted frame ended. */
  datatype Ending =
    | Full      // ten bytes received; further bytes are not read
    | Stopped   // a stop condition before the tenth byte
    | Starved   // a wait for a byte did not end

  /** What the receiver did with one frame. */
  datatype Outcome =
    | AddressPending          // the wait for the address byte did not end
    | NoAddress               // a stop condition instead of the address byte
    | Ignored(address: bv8)   // an address byte for another device
    | Accepted(count: nat, ending: Ending)

  /** The frame ends with the receiver still waiting on the bus. */
  predicate Pending(o: Outcome) {
    o.AddressPending? || (o.Accepted? && o.ending == Starved)
  }

  /** The data bytes of `data` up to the first stop condition. */
  function Received(data: seq<Event>): (bytes: seq<bv8>)
    ensures |bytes| <= |data|
    ensures forall i :: 0 <= i < |bytes| ==> data[i] == Byte(bytes[i])
    ensures |bytes| < |data| ==> data[|bytes|] == Stop
  {
    if data == [] || data[0] == Stop then [] else [data[0].value] + Received(data[1..])
  }

  /** Reading `data` from position `i`, inside the bytes already received:
      a byte there is the next byte received, a stop there ends them. */
  lemma ReceivedStep(data: seq<Event>, i: nat)
    requires i <= |Received(data)| && i < |data|
    ensures data[i].Byte? ==> i < |Received(data)| && Received(data)[i] == data[i].value
    ensures data[i] == Stop ==> |Received(data)| == i
  {
  }

  /** The events of a stop-free run of bytes. */
  function Bytes(bytes: seq<bv8>): (events: seq<Event>)
    ensures |events| == |bytes|
    ensures forall i :: 0 <= i < |bytes| ==> events[i] == Byte(bytes[i])
  {
    seq(|bytes|, i requires 0 <= i < |bytes| => Byte(bytes[i]))
  }

  /** The outcome of the data phase of an accepted frame whose events after
      the address byte are `data`: at most ten bytes are read, and the phase
      ends after the tenth byte, at a stop condition, or in a wait that does
      not end. */
  function DataPhase(data: seq<Event>): (o: Outcome)
    ensures o.Accepted? && o.count <= Channels && o.count <= |Received(data)|
    ensures o.count == if |Received(data)| >= Channels then Channels else |Received(data)|
    ensures o.ending == Full <==> o.count == Channels
    ensures o.ending == Stopped <==> o.count < Channels && o.count < |data|
  {
    var bytes := Received(data);
    if |bytes| >= Channels then Accepted(Channels, Full)
    else if |bytes| < |data| then Accepted(|bytes|, Stopped)
    else Accepted(|bytes|, Starved)
  }

  /** The outcome of a frame whose events, after the start condition, are
      `events`: the first one is the address phase, the rest the data
      phase. */
  function Frame(events: seq<Event>, pinb: bv8): (o: Outcome)
    ensures o.Accepted? <==> |events| > 0 && events[0].Byte? && Accepts(events[0].value, pinb)
    ensures o.Accepted? ==> o.count <= Channels && (o.ending == Full <==> o.count == Channels)
    ensures o.Accepted? ==> o.count == if |Received(events[1..])| >= Channels then Channels else |Received(events[1..])|
  {
    if |events| == 0 then AddressPending
    else match events[0]
      case Stop => NoAddress
      case Byte(address) =>
        if !Accepts(address, pinb) then Ignored(address) else DataPhase(events[1..])
  }

  /** The bytes a frame writes, in channel order from channel 0. */
  function Written(events: seq<Event>, pinb: bv8): (w: seq<bv8>)
    ensures |w| <= Channels
    ensures !Frame(events, pinb).Accepted? ==> w == []
    ensures Frame(events, pinb).Accepted? ==> |w| == Frame(events, pinb).count
    ensures forall i :: 0 <= i < |w| ==> events[i + 1] == Byte(w[i])
  {
    var o := Frame(events, pinb);
    if o.Accepted? then Received(events[1..])[..o.count] else []
  }

  /** The channel values after writing `w` from channel 0 onward: the written
      channels take the new bytes, the others keep their values. */
  function Store(values: seq<bv8>, w: seq<bv8>): (r: seq<bv8>)
    requires |w| <= |values|
    ensures |r| == |values|
    ensures forall i :: 0 <= i < |w| ==> r[i] == w[i]
    ensures forall i :: |w| <= i < |values| ==> r[i] == values[i]
  {
    w + values[|w|..]
  }

  /** A frame addressed to this device (or broadcast) with `bytes` before a
      stop, at most ten of them, stores them in channels 0 .. |bytes| - 1 and
      leaves the other channels as they were. */
  lemma {:induction false} ShortFrame(values: seq<bv8>, address: bv8, bytes: seq<bv8>, pinb: bv8)
    requires |values| == Channels && |bytes| <= Channels && Accepts(address, pinb)
    ensures var events := [Byte(address)] + Bytes(bytes) + [Stop];
            Frame(events, pinb) == Accepted(|bytes|, if |bytes| == Channels then Full else Stopped) &&
            Store(values, Written(events, pinb)) == bytes + values[|bytes|..]
  {
    var events := [Byte(address)] + Bytes(bytes) + [Stop];
    assert events[1..] == Bytes(bytes) + [Stop];
    ReceivedBytesThenStop(bytes);
  }

  /** Bytes past the tenth are never stored: a frame with more than ten data
      bytes stores the first ten and nothing else. */
  lemma {:induction false} LongFrame(values: seq<bv8>, address: bv8, bytes: seq<bv8>, rest: seq<Event>, pinb: bv8)
    requires |values| == Channels && |bytes| > Channels && Accepts(address, pinb)
    ensures var events := [Byte(address)] + Bytes(bytes) + rest;
            Frame(events, pinb) == Accepted(Channels, Full) &&
            Store(values, Written(events, pinb)) == bytes[..Channels]
  {
    var events := [Byte(address)] + Bytes(bytes) + rest;
    assert events[1..] == Bytes(bytes) + rest;
    ReceivedBytesPrefix(bytes, rest);
  }

  /** A frame whose address phase ends in a stop, or whose address byte is
      for another device, writes nothing. */
  lemma UnaddressedFrameWritesNothing(values: seq<bv8>, events: seq<Event>, pinb: bv8)
    requires |values| == Channels
    requires |events| > 0 && (events[0] == Stop || !Accepts(events[0].value, pinb))
    ensures Written(events, pinb) == [] && Store(values, Written(events, pinb)) == values
  {
  }

  /** `Received` reads a whole stop-free run of bytes followed by a stop. */
  lemma {:induction false} ReceivedBytesThenStop(bytes: seq<bv8>)
    ensures Received(Bytes(bytes) + [Stop]) == bytes
  {
    var data := Bytes(bytes) + [Stop];
    assert data[|bytes|] == Stop;
    assert forall i :: 0 <= i < |bytes| ==> data[i] == Byte(bytes[i]);
  }

  /** `Received` reads at least the whole stop-free run `bytes` whatever
      follows it. */
  lemma {:induction false} ReceivedBytesPrefix(bytes: seq<bv8>, rest: seq<Event>)
    ensures |Received(Bytes(bytes) + rest)| >= |bytes|
    ensures Received(Bytes(bytes) + rest)[..|bytes|] == bytes
  {
    var data := Bytes(bytes) + rest;
    assert forall i :: 0 <= i < |bytes| ==> data[i] == Byte(bytes[i]);
  }

  // ---------------------------------------------------------------------------
  // The main loop over a sequence of transactions

  /** One pass of the main loop: whether a stop condition was seen while
      waiting for the end of the start condition, and the events of the
      frame that follows otherwise. */
  datatype Transaction = Transaction(stopDuringStart: bool, events: seq<Event>)

  /** How a run of the main loop ends: `main` returned (the loop was left by
      `break`), or the receiver is still waiting on the bus. */
  datatype LoopEnd = Returned | Waiting

  /** The channel values, the LED countdown and the end of a run. */
  datatype Session = Session(values: seq<bv8>, timeout: uint8, end: LoopEnd)

  /** The main loop run over `bus` from channel values `values` and LED
      countdown `timeout` (the timer interrupts are not interleaved). */
  function AfterBus(values: seq<bv8>, timeout: uint8, bus: seq<Transaction>, pinb: bv8): (s: Session)
    requires |values| == Channels
    ensures |s.values| == Channels
    decreases |bus|
  {
    if bus == [] then Session(values, timeout, Waiting)
    else if bus[0].stopDuringStart then Session(values, timeout, Returned)
    else
      var o := Frame(bus[0].events, pinb);
      var v := Store(values, Written(bus[0].events, pinb));
      var t := if o.Accepted? then LedOnTicks else timeout;
      if Pending(o) then Session(v, t, Waiting) else AfterBus(v, t, bus[1..], pinb)
  }

  /** A stop condition during the start condition ends `main`: no later
      transaction has any effect. */
  lemma {:induction false} BreakIsTerminal(values: seq<bv8>, timeout: uint8, bus: seq<Transaction>, later: seq<Transaction>, pinb: bv8)
    requires |values| == Channels && |bus| > 0 && bus[|bus| - 1].stopDuringStart
    ensures AfterBus(values, timeout, bus + later, pinb) == AfterBus(values, timeout, bus, pinb)
    decreases |bus|
  {
    assert (bus + later)[0] == bus[0];
    if !bus[0].stopDuringStart {
      var o := Frame(bus[0].events, pinb);
      var v := Store(values, Written(bus[0].events, pinb));
      var t := if o.Accepted? then LedOnTicks else timeout;
      if !Pending(o) {
        assert (bus + later)[1..] == bus[1..] + later;
        BreakIsTerminal(v, t, bus[1..], later, pinb);
      }
    }
  }

  /** Transaction `t` is a frame after which the main loop goes round
      again: no stop during the start condition, and no wait that does not
      end. */
  predicate Completes(t: Transaction, pinb: bv8) {
    !t.stopDuringStart && !Pending(Frame(t.events, pinb))
  }

  /** Transaction `h` of `bus` has a stop during the start condition, and
      every transaction before it completes. */
  predicate BreaksAt(bus: seq<Transaction>, h: int, pinb: bv8) {
    0 <= h < |bus| && bus[h].stopDuringStart && forall i :: 0 <= i < h ==> Completes(bus[i], pinb)
  }

  /** After a first transaction that completes, the break positions of the
      rest are those of the whole bus, one earlier. */
  lemma BreaksAtShift(bus: seq<Transaction>, h: int, pinb: bv8)
    requires |bus| > 0 && Completes(bus[0], pinb)
    ensures BreaksAt(bus, h + 1, pinb) <==> BreaksAt(bus[1..], h, pinb)
  {
    if BreaksAt(bus[1..], h, pinb) {
      forall i | 0 <= i < h + 1
        ensures Completes(bus[i], pinb)
      {
        if i > 0 {
          assert bus[i] == bus[1..][i - 1];
        }
      }
    }
    if BreaksAt(bus, h + 1, pinb) {
      forall i | 0 <= i < h
        ensures Completes(bus[1..][i], pinb)
      {
        assert bus[1..][i] == bus[i + 1];
      }
    }
  }

  /** A run ends with `main` returned exactly when it reaches a transaction
      with a stop during the start condition before any wait fails to end. */
  lemma {:induction false} ReturnedIffBreakReached(values: seq<bv8>, timeout: uint8, bus: seq<Transaction>, pinb: bv8)
    requires |values| == Channels
    ensures AfterBus(values, timeout, bus, pinb).end == Returned <==> exists h :: BreaksAt(bus, h, pinb)
    decreases |bus|
  {
    if bus == [] {
      assert forall h :: !BreaksAt(bus, h, pinb);
    } else if bus[0].stopDuringStart {
      assert BreaksAt(bus, 0, pinb);
    } else if Pending(Frame(bus[0].events, pinb)) {
      assert !Completes(bus[0], pinb);
    } else {
      var o := Frame(bus[0].events, pinb);
      var v := Store(values, Written(bus[0].events, pinb));
      var t := if o.Accepted? then LedOnTicks else timeout;
      ReturnedIffBreakReached(v, t, bus[1..], pinb);
      if exists h :: BreaksAt(bus[1..], h, pinb) {
        var h :| BreaksAt(bus[1..], h, pinb);
        BreaksAtShift(bus, h, pinb);
      }
      if exists h :: BreaksAt(bus, h, pinb) {
        var h :| BreaksAt(bus, h, pinb);
        assert h != 0;
        BreaksAtShift(bus, h - 1, pinb);
      }
    }
  }

  /** The break is not a restart: after a stop during the start condition, a
      later frame that would otherwise set channel 0 to 7 is never read. */
  lemma NoRestartAfterBreak(values: seq<bv8>, timeout: uint8, pinb: bv8)
    requires |values| == Channels
    ensures var frame := Transaction(false, [Byte(0), Byte(7), Stop]);
            AfterBus(values, timeout, [Transaction(true, []), frame], pinb) == Session(values, timeout, Returned) &&
            AfterBus(values, timeout, [frame], pinb).values[0] == 7
  {
    var frame := Transaction(false, [Byte(0), Byte(7), Stop]);
    assert frame.events[1..] == [Byte(7), Stop];
    assert Received([Byte(7), Stop]) == [7];
    assert [frame][1..] == [];
  }

  /** Two example frames: a full frame is stored as sent, and a three-byte
      frame changes channels 0-2 only. */
  lemma ExampleFrames(values: seq<bv8>, pinb: bv8)
    requires |values| == Channels
    ensures var full: seq<bv8> := [30, 160, 0, 90, 45, 30, 160, 0, 90, 45];
            Store(values, Written([Byte(DeviceAddress(pinb))] + Bytes(full) + [Stop], pinb)) == full
    ensures Store(values, Written([Byte(DeviceAddress(pinb))] + Bytes([50, 60, 70]) + [Stop], pinb))
            == [50, 60, 70] + values[3..]
  {
    ShortFrame(values, DeviceAddress(pinb), [30, 160, 0, 90, 45, 30, 160, 0, 90, 45], pinb);
    ShortFrame(values, DeviceAddress(pinb), [50, 60, 70], pinb);
  }
}
