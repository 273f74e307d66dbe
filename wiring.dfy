/** Board wiring of the ATtiny2313 servo controller: which port line drives
    which servo channel, which one drives the activity LED, and what driving
    a line high or low does to the output registers. */
module Wiring {

  /** An 8-bit unsigned counter (`uint8_t`). */
  newtype uint8 = x: int | 0 <= x < 256

  /** Number of servo channels. */
  const Channels: nat := 10

  /** The three output ports the firmware writes. */
  datatype Port = PortA | PortB | PortD

  /** The number of a bit in an 8-bit port register. */
  newtype BitIndex = i: int | 0 <= i < 8

  /** An 8-bit output register, given by the numbers of its bits that are
      set: `PORTx |= 1 << i` adds `i`, `PORTx &= ~(1 << i)` removes it. */
  type Register = set<BitIndex>

  /** An output line: bit `bit` of port `port` (PD3 is `Pin(PortD, 3)`). */
  datatype Pin = Pin(port: Port, bit: BitIndex)

  /** Activity LED on PB6, low active. */
  const LedPin: Pin := Pin(PortB, 6)

  /** The output line of each servo channel: PD0, PD1, PA1, PA0, PD2 for
      channels 0-4 and PD3, PD4, PD5, PD6, PB0 for channels 5-9. */
  function ChannelPin(channel: nat): (pin: Pin)
    requires channel < Channels
    ensures pin != LedPin
  {
    match channel
    case 0 => Pin(PortD, 0)
    case 1 => Pin(PortD, 1)
    case 2 => Pin(PortA, 1)
    case 3 => Pin(PortA, 0)
    case 4 => Pin(PortD, 2)
    case 5 => Pin(PortD, 3)
    case 6 => Pin(PortD, 4)
    case 7 => Pin(PortD, 5)
    case 8 => Pin(PortD, 6)
    case _ => Pin(PortB, 0)
  }

  /** Each channel has a line of its own. */
  lemma ChannelLinesDistinct(c: nat, d: nat)
    requires c < Channels && d < Channels
    ensures ChannelPin(c) == ChannelPin(d) <==> c == d
  {
  }

  /** The three output registers PORTA, PORTB and PORTD. */
  datatype Ports = Ports(a: Register, b: Register, d: Register) {
    /** The register of port `p`. */
    function Get(p: Port): Register {
      match p
      case PortA => a
      case PortB => b
      case PortD => d
    }

    /** The line `pin` is driven high. */
    predicate High(pin: Pin) {
      pin.bit in Get(pin.port)
    }

    /** Each register with the given bits cleared. */
    function ClearEach(ma: Register, mb: Register, md: Register): Ports {
      Ports(a - ma, b - mb, d - md)
    }

    /** The registers with the line `pin` driven high (`PORTx |= mask`). */
    function Raise(pin: Pin): Ports {
      match pin.port
      case PortA => this.(a := a + {pin.bit})
      case PortB => this.(b := b + {pin.bit})
      case PortD => this.(d := d + {pin.bit})
    }

    /** The registers with the line `pin` driven low (`PORTx &= ~mask`). */
    function Lower(pin: Pin): Ports {
      match pin.port
      case PortA => this.(a := a - {pin.bit})
      case PortB => this.(b := b - {pin.bit})
      case PortD => this.(d := d - {pin.bit})
    }
  }

  /** Driving a line high changes that line and no other. */
  lemma RaiseAffectsLine(ports: Ports, pin: Pin, q: Pin)
    ensures ports.Raise(pin).High(q) == (ports.High(q) || pin == q)
  {
  }

  /** Driving a line low changes that line and no other. */
  lemma LowerAffectsLine(ports: Ports, pin: Pin, q: Pin)
    ensures ports.Lower(pin).High(q) == (ports.High(q) && pin != q)
  {
  }

  /** The registers after driving the lines of channels `lo` .. `hi - 1`
      low, one after the other. */
  function LowerChannels(ports: Ports, lo: nat, hi: nat): (lowered: Ports)
    requires lo <= hi <= Channels
    decreases hi - lo
  {
    if lo == hi then ports else LowerChannels(ports.Lower(ChannelPin(lo)), lo + 1, hi)
  }

  /** After lowering channels `lo` .. `hi - 1`, a line is high exactly when
      it was high and is none of those channels' lines. */
  lemma {:induction false} LowerChannelsLines(ports: Ports, lo: nat, hi: nat, q: Pin)
    requires lo <= hi <= Channels
    ensures LowerChannels(ports, lo, hi).High(q) ==
            (ports.High(q) && forall c :: lo <= c < hi ==> ChannelPin(c) != q)
    decreases hi - lo
  {
    if lo < hi {
      LowerChannelsLines(ports.Lower(ChannelPin(lo)), lo + 1, hi, q);
      LowerAffectsLine(ports, ChannelPin(lo), q);
    }
  }

  /** Lowering channels 0-4 clears bits 0-1 of PORTA and bits 0-2 of PORTD
      (masks 0x03 and 0x07) and nothing else. */
  lemma LowerFirstGroup(ports: Ports)
    ensures LowerChannels(ports, 0, 5) == ports.ClearEach({0, 1}, {}, {0, 1, 2})
  {
  }

  /** Lowering channels 5-9 clears bit 0 of PORTB and bits 3-6 of PORTD
      (masks 0x01 and 0x78) and nothing else. */
  lemma LowerSecondGroup(ports: Ports)
    ensures LowerChannels(ports, 5, 10) == ports.ClearEach({}, {0}, {3, 4, 5, 6})
  {
  }

  /** Lowering channels `lo` .. `hi - 1` drives exactly those channels' lines
      low; the other channels' lines and the LED line keep their state. */
  lemma LowerChannelsEffect(ports: Ports, lo: nat, hi: nat, c: nat)
    requires lo <= hi <= Channels && c < Channels
    ensures LowerChannels(ports, lo, hi).High(ChannelPin(c)) == (!(lo <= c < hi) && ports.High(ChannelPin(c)))
    ensures LowerChannels(ports, lo, hi).High(LedPin) == ports.High(LedPin)
  {
    LowerChannelsLines(ports, lo, hi, ChannelPin(c));
    LowerChannelsLines(ports, lo, hi, LedPin);
    if lo <= c < hi {
      ChannelLinesDistinct(c, c);
    } else {
      forall d | lo <= d < hi
        ensures ChannelPin(d) != ChannelPin(c)
      {
        ChannelLinesDistinct(d, c);
      }
    }
  }
}
