/** The firmware's global state and the code that updates it in place: the
    three Timer-0 interrupt handlers and the I2C receiver of the main loop.
    Each handler, and each pass of the receiver, runs without interleaving. */
module Controller {
  import opened Wiring
  import opened Pwm
  import opened I2cSlave

  class ServoController {
    /** `volatile uint8_t servo[10]`: the pulse width of each channel, 0 = off. */
    const servo: array<bv8>
    /** Activity-LED countdown, in overflows. */
    var ledTimeout: uint8
    /** The overflow handler's `static uint8_t loop`: the round it serves next. */
    var cursor: uint8
    /** Timer-0 compare registers OCR0A and OCR0B. */
    var ocrA: bv8
    var ocrB: bv8
    /** Output registers PORTA, PORTB and PORTD. */
    var portA: Register
    var portB: Register
    var portD: Register

    /** Ten channels, a cursor naming one of the five rounds, and the LED
        (low active) lit exactly while its countdown is running. */
    ghost predicate Valid()
      reads this
    {
      servo.Length == Channels && cursor as nat < Rounds &&
      (ledTimeout != 0 <==> LedPin.bit !in portB)
    }

    /** The three output registers as one value. */
    function Outputs(): Ports
      reads this
    {
      Ports(portA, portB, portD)
    }

    /** The activity LED is lit (its line is low). */
    predicate LedLit()
      reads this
    {
      !Outputs().High(LedPin)
    }

    /** The state at the start of the main loop: all channels off, the boot
        blink of the LED running, the address inputs' pull-ups on in PORTB. */
    constructor ()
      ensures Valid() && fresh(servo)
      ensures servo[..] == seq(Channels, _ => 0)
      ensures ledTimeout == BootLedTicks && LedLit()
      ensures cursor == 0 && ocrA == 0 && ocrB == 0
      ensures portA == {} && portB == {1, 2, 3, 4} && portD == {}
    {
      servo := new bv8[Channels](_ => 0);
      ledTimeout := BootLedTicks;
      cursor := 0;
      ocrA, ocrB := 0, 0;
      portA, portD := {}, {};
      portB := {1, 2, 3, 4};
    }

    /** Compare-match A: drive the lines of channels 0-4 low, whichever of
        them is active, in the order PD0, PD1, PA1, PA0, PD2. */
    method OnCompareA()
      requires Valid()
      modifies this`portA, this`portD
      ensures Valid()
      ensures Outputs() == LowerChannels(old(Outputs()), 0, 5)
    {
      portD := portD - {0};
      portD := portD - {1};
      portA := portA - {1};
      portA := portA - {0};
      portD := portD - {2};
    }

    /** Compare-match B: drive the lines of channels 5-9 low, in the order
        PD3, PD4, PD5, PD6, PB0. */
    method OnCompareB()
      requires Valid()
      modifies this`portB, this`portD
      ensures Valid()
      ensures Outputs() == LowerChannels(old(Outputs()), 5, 10)
    {
      portD := portD - {3};
      portD := portD - {4};
      portD := portD - {5};
      portD := portD - {6};
      portB := portB - {0};
    }

    /** The first switch of the overflow handler: raise the line of
        channel `cursor` if its value is nonzero. */
    method RaiseGroupAChannel()
      requires Valid()
      modifies this`portA, this`portB, this`portD
      ensures var c := ChannelPin(cursor as nat);
              Outputs() == if servo[cursor] != 0 then old(Outputs()).Raise(c) else old(Outputs())
    {
      if servo[cursor] != 0 {
        if cursor == 0 {
          portD := portD + {0};
        } else if cursor == 1 {
          portD := portD + {1};
        } else if cursor == 2 {
          portA := portA + {1};
        } else if cursor == 3 {
          portA := portA + {0};
        } else if cursor == 4 {
          portD := portD + {2};
        }
      }
    }

    /** The second switch of the overflow handler: raise the line of
        channel `cursor + 5` if its value is nonzero. */
    method RaiseGroupBChannel()
      requires Valid()
      modifies this`portA, this`portB, this`portD
      ensures var c := ChannelPin(cursor as nat + 5);
              Outputs() == if servo[cursor + 5] != 0 then old(Outputs()).Raise(c) else old(Outputs())
    {
      if servo[cursor + 5] != 0 {
        if cursor == 0 {
          portD := portD + {3};
        } else if cursor == 1 {
          portD := portD + {4};
        } else if cursor == 2 {
          portD := portD + {5};
        } else if cursor == 3 {
          portD := portD + {6};
        } else if cursor == 4 {
          portB := portB + {0};
        }
      }
    }

    /** The overflow handler's round-robin step: advance the cursor,
        wrapping past 4, and arm the compare registers with the values of
        the round it now names. */
    method AdvanceRound()
      requires Valid()
      modifies this`cursor, this`ocrA, this`ocrB
      ensures Valid()
      ensures cursor as nat == NextRound(old(cursor) as nat)
      ensures ocrA == servo[cursor] && ocrB == servo[cursor + 5]
    {
      cursor := cursor + 1;
      if cursor > 4 {
        cursor := 0;
      }
      ocrA := servo[cursor];
      ocrB := servo[cursor + 5];
    }

    /** The overflow handler's LED step: count down while running, and
        switch the LED off (drive PB6 high) on the tick that reaches 0. */
    method CountLedDown()
      requires Valid()
      modifies this`ledTimeout, this`portB
      ensures Valid()
      ensures ledTimeout == LedTick(old(ledTimeout))
      ensures Outputs() == if SwitchesOff(old(ledTimeout)) then old(Outputs()).Raise(LedPin) else old(Outputs())
    {
      if ledTimeout != 0 {
        ledTimeout := ledTimeout - 1;
        if ledTimeout == 0 {
          portB := portB + {6};
        }
      }
    }

    /** Timer overflow: raise the lines of the current round's two channels
        whose values are nonzero, advance the cursor, arm the compare
        registers with the next round's values, and count the LED down,
        switching it off on the tick that reaches 0. */
    method OnOverflow()
      requires Valid()
      modifies this`cursor, this`ocrA, this`ocrB, this`ledTimeout, this`portA, this`portB, this`portD
      ensures Valid()
      ensures cursor as nat == NextRound(old(cursor) as nat)
      ensures ocrA == servo[cursor] && ocrB == servo[cursor + 5]
      ensures ledTimeout == LedTick(old(ledTimeout))
      ensures Outputs() == OverflowOutputs(old(Outputs()), old(cursor) as nat, servo[..], old(ledTimeout))
    {
      RaiseGroupAChannel();
      RaiseGroupBChannel();
      RaiseRoundKeepsLed(old(Outputs()), old(cursor) as nat, servo[..]);
      AdvanceRound();
      CountLedDown();
    }

    /** The data phase of an accepted frame (the `for` loop over the
        channels): store each byte received into the next channel, from
        channel 0, until ten bytes or a stop condition. */
    method ReceiveData(data: seq<Event>) returns (channel: nat, ending: Ending)
      requires servo.Length == Channels
      modifies servo
      ensures Accepted(channel, ending) == DataPhase(data)
      ensures servo[..] == Store(old(servo[..]), Received(data)[..channel])
    {
      ghost var received := Received(data);
      channel, ending := 0, Full;
      while channel < Channels
        invariant channel <= Channels && channel <= |received|
        invariant servo[..] == Store(old(servo[..]), received[..channel])
        invariant ending == Full
      {
        if channel >= |data| {
          // the wait for the next byte or stop condition does not end
          return channel, Starved;
        }
        ReceivedStep(data, channel);
        match data[channel]
        case Stop =>
          ending := Stopped;
          break;
        case Byte(b) =>
          servo[channel] := b;
          channel := channel + 1;
      }
    }

    /** One frame after a start condition (the body of the main loop after
        the start has ended): read the address byte; if it is 0 or the
        device address, light the LED for `LedOnTicks` overflows and receive
        the data phase. */
    method ReceiveFrame(events: seq<Event>, pinb: bv8) returns (outcome: Outcome)
      requires Valid()
      modifies this`ledTimeout, this`portB, servo
      ensures Valid()
      ensures outcome == Frame(events, pinb)
      ensures servo[..] == Store(old(servo[..]), Written(events, pinb))
      ensures ledTimeout == if outcome.Accepted? then LedOnTicks else old(ledTimeout)
      ensures portB == if outcome.Accepted? then old(portB) - {LedPin.bit} else old(portB)
    {
      if |events| == 0 {
        return AddressPending;
      }
      if events[0].Stop? {
        return NoAddress;
      }
      var address := events[0].value;
      var myAddress := DeviceAddress(pinb);
      if !(address == 0 || address == myAddress) {
        return Ignored(address);
      }

      portB := portB - {6};
      ledTimeout := 20;

      var channel, ending := ReceiveData(events[1..]);
      return Accepted(channel, ending);
    }

    /** The main loop over a sequence of transactions: each one either ends
        the loop (a stop condition while waiting for the end of the start
        condition leaves `while (1)` and `main` returns) or is received as a
        frame. The run stops early when a wait does not end. */
    method MainLoop(bus: seq<Transaction>, pinb: bv8) returns (end: LoopEnd)
      requires Valid()
      modifies this`ledTimeout, this`portB, servo
      ensures Valid()
      ensures Session(servo[..], ledTimeout, end) == AfterBus(old(servo[..]), old(ledTimeout), bus, pinb)
      ensures portB - {LedPin.bit} == old(portB) - {LedPin.bit}
    {
      var i := 0;
      while i < |bus|
        invariant Valid()
        invariant i <= |bus|
        invariant AfterBus(servo[..], ledTimeout, bus[i..], pinb) == AfterBus(old(servo[..]), old(ledTimeout), bus, pinb)
        invariant portB - {LedPin.bit} == old(portB) - {LedPin.bit}
      {
        if bus[i].stopDuringStart {
          return Returned;
        }
        var outcome := ReceiveFrame(bus[i].events, pinb);
        if Pending(outcome) {
          return Waiting;
        }
        assert bus[i..][1..] == bus[i + 1..];
        i := i + 1;
      }
      return Waiting;
    }
  }
}
