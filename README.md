# ServoController: a verified model of the ATtiny2313 servo controller

The firmware drives up to ten hobby servos. A slow timer's overflow interrupt
raises the output pins two at a time, round-robin over five rounds. Compare
match A ends the pulses of channels 0-4 and compare match B those of channels
5-9. The main loop is an I2C slave receiver built on the USI. It accepts frames
addressed to address 0 or to its own address. It stores up to ten data bytes into
the channel table, and it blinks an activity LED on PB6 (low active) while a
countdown runs.

The model has four modules:

- `Wiring` (`wiring.dfy`) is the board wiring. It holds the channel-to-pin
  map, the LED pin and the three output registers. It defines what driving a
  line high (`PORTx |= mask`) or low (`PORTx &= ~mask`) does.
- `Pwm` (`pwm.dfy`) is the pure specification of the timer engine: the
  round-robin cursor, the lines an overflow raises and the LED countdown.
- `I2cSlave` (`i2c_slave.dfy`) is the pure specification of the receiver:
  - the device address and the address filter;
  - what one frame stores;
  - what a run of the main loop does over a sequence of bus transactions.
- `Controller` (`controller.dfy`) is the class `ServoController`. It holds
  the firmware's globals (`servo[10]`, `ledTimeout`, the overflow handler's
  static `loop`, `OCR0A`/`OCR0B`, `PORTA`/`PORTB`/`PORTD`). Its methods are
  the three interrupt handlers, the frame receiver with its `for` loop over
  the channels, and the `while (1)` loop of `main`. Each method is proved
  against the functions of `Pwm` and `I2cSlave`.

The specification functions the methods are proved against:

- `Wiring.LowerChannels` is what a compare handler does to the ports (lines
  74-91).
- `Pwm.RaiseRound` is the two switches of the overflow handler (lines
  98-115). `Pwm.OverflowOutputs` adds the LED countdown to it (lines 98-130).
- `Pwm.LedTick` and `Pwm.SwitchesOff` are the guarded decrement of
  `ledTimeout` and the tick on which it switches the LED off (lines 125-128).
- `I2cSlave.Accepts` is the address filter of line 185.

Modelling choices:

- An output register is the set of its bit numbers that are set, so
  `PORTD &= ~4` is `portD := portD - {2}`.
- The channel values, the compare registers, `USIDR` and `PINB` are 8-bit
  vectors (`bv8`).
- The two counters are `uint8`.
- The USI busy-waits are abstracted as a sequence of events, `Byte(b)` or
  `Stop`. An event sequence that runs out before a wait has ended stands for a
  bus on which that wait never ends. The receiver then reports that it is
  still waiting.
- The code leaves `while (1)` when it sees a stop condition while waiting
  for the end of a start condition (lines 165-170 of `ServoController.c`). In
  that case `break` makes `main` return. One might expect the loop to go back
  to waiting for the next start; `break` instead leaves `while (1)`. The model
  follows the code: `MainLoop` returns `Returned`. The lemmas
  `BreakIsTerminal` and `NoRestartAfterBreak` show that no later transaction
  has any effect.

## Model

| member | source | states |
|---|---|---|
| `Wiring.ChannelPin` | ServoController.c:13-23 | No channel is wired to the LED line PB6. |
| `Wiring.ChannelLinesDistinct` | ServoController.c:13-23 | Two channels share a line exactly when they are the same channel. |
| `Wiring.RaiseAffectsLine` | ServoController.c:100-113 | Setting a line's bit drives that line high and changes no other line. |
| `Wiring.LowerAffectsLine` | ServoController.c:76-90 | Clearing a line's bit drives that line low and changes no other line. |
| `Wiring.LowerChannelsLines` | ServoController.c:74-91 | After lowering the lines of a run of channels, a line is high exactly when it was high and belongs to none of them. |
| `Wiring.LowerFirstGroup` | ServoController.c:74-81 | Lowering channels 0-4 clears bits 0-1 of PORTA and bits 0-2 of PORTD. PORTB and the other bits are untouched. |
| `Wiring.LowerSecondGroup` | ServoController.c:84-91 | Lowering channels 5-9 clears bit 0 of PORTB and bits 3-6 of PORTD. PORTA and the other bits are untouched. |
| `Wiring.LowerChannelsEffect` | ServoController.c:74-91 | A compare handler drives every line of its group low, whether or not it was active. Other channels' lines and the LED line keep their state. |
| `Pwm.NextRound` | ServoController.c:118-120 | The incremented and wrapped cursor stays in 0..4 and equals (r + 1) mod 5. |
| `Pwm.CursorAfter` | ServoController.c:118-120 | After any number of overflows the cursor is in 0..4. |
| `Pwm.Visited` | ServoController.c:95-120 | k overflows serve k rounds. |
| `Pwm.CursorAfterIsModular` | ServoController.c:118-120 | After k overflows the cursor has advanced by k modulo 5. |
| `Pwm.VisitedIsCyclic` | ServoController.c:98-120 | The i-th overflow from cursor r serves round (r + i) mod 5. |
| `Pwm.FiveOverflowsFrom` | ServoController.c:98-120 | The i-th of five overflows from r serves round r + i, wrapped past 4. |
| `Pwm.FiveOverflowsServeEveryRound` | ServoController.c:98-120 | Five consecutive overflows serve every round and bring the cursor back to its start. |
| `Pwm.FiveOverflowsServeNoRoundTwice` | ServoController.c:98-120 | Five consecutive overflows serve no round twice. |
| `Pwm.RaiseRoundLines` | ServoController.c:98-115 | Serving round r drives a channel's line high exactly when the channel is r or r + 5 and its value is nonzero. Other channel lines keep their state. |
| `Pwm.RaiseRoundKeepsLed` | ServoController.c:98-115 | The two switches never touch the LED line. |
| `Pwm.OverflowLines` | ServoController.c:98-130 | Channel lines change as in `RaiseRoundLines`. The LED line goes high exactly when it was high or the countdown runs out on this tick. |
| `Pwm.OverflowRaisesOnly` | ServoController.c:98-130 | An overflow only raises lines: the round's two nonzero channels and PB6 on the tick the countdown ends. Every other bit of the three ports keeps its state. |
| `Pwm.CompareEndsPulse` | ServoController.c:74-115 | After an overflow, the compare handler of a channel's group leaves that channel's line low, whichever round was served. |
| `Pwm.CountdownClosedForm` | ServoController.c:125-126 | After k overflows the countdown is t - k, or 0 once it has run out. It never wraps below 0. |
| `Pwm.LedSwitchesOffOnce` | ServoController.c:125-130 | Starting from t > 0, the LED is switched off exactly once, on overflow t. Starting from 0 it is never switched off. |
| `I2cSlave.DeviceAddress` | ServoController.c:184 | The device address has the read/write bit 0 clear and bits 5-7 clear. Bits 1-4 are those of PINB. |
| `I2cSlave.DefaultAddress` | ServoController.c:35-42 | With all four address inputs high the device answers to 0x1E. |
| `I2cSlave.AcceptedAddresses` | ServoController.c:185 | Address 0 is always accepted. An accepted address byte always has its read/write bit clear. |
| `I2cSlave.Received` | ServoController.c:199-226 | The bytes read are exactly the events before the first stop. If the events did not run out, a stop follows them. |
| `I2cSlave.ReceivedStep` | ServoController.c:207-224 | At the next event, a byte is the next byte received and a stop ends the bytes. |
| `I2cSlave.DataPhase` | ServoController.c:199-226 | The number of bytes read is the number of bytes before the first stop, capped at ten. The phase ends full exactly at ten bytes, and by a stop exactly when fewer than ten arrived before one. |
| `I2cSlave.Frame` | ServoController.c:177-226 | A frame is accepted exactly when its first event is a byte equal to 0 or to the device address. An accepted frame reads the bytes before the first stop, at most ten. |
| `I2cSlave.Written` | ServoController.c:199-226 | An accepted frame writes as many bytes as it read, and each is the byte sent for that channel. A frame that is not accepted writes nothing. |
| `I2cSlave.Store` | ServoController.c:212 | Written channels take the new bytes, and all other channels keep their values. |
| `I2cSlave.ShortFrame` | ServoController.c:199-226 | An accepted frame with k <= 10 bytes before a stop stores them in channels 0..k-1 and leaves the others unchanged. |
| `I2cSlave.LongFrame` | ServoController.c:199 | Bytes past the tenth are never stored. |
| `I2cSlave.UnaddressedFrameWritesNothing` | ServoController.c:177-185 | A stop in the address phase, or an address byte for another device, leaves every channel unchanged. |
| `I2cSlave.ReceivedBytesThenStop` | ServoController.c:199-226 | A run of bytes followed by a stop is read completely. |
| `I2cSlave.ReceivedBytesPrefix` | ServoController.c:199-226 | A run of bytes is read completely whatever follows it. |
| `I2cSlave.AfterBus` | ServoController.c:151-229 | A run of the main loop keeps ten channel values. |
| `I2cSlave.BreakIsTerminal` | ServoController.c:165-170 | Once a stop during a start condition is reached, later transactions change nothing. |
| `I2cSlave.BreaksAtShift` | ServoController.c:151-170 | After a first transaction that completes, the break positions move one earlier. |
| `I2cSlave.ReturnedIffBreakReached` | ServoController.c:151-229 | `main` returns exactly when a stop during a start condition comes before any wait that never ends. |
| `I2cSlave.NoRestartAfterBreak` | ServoController.c:168-169 | The break does not restart the loop. A frame that would set channel 0 to 7 is ignored after it. |
| `I2cSlave.ExampleFrames` | ServoController.c:40-50 | A ten-byte frame is stored as sent. A three-byte frame changes channels 0-2 only. |
| `Controller.ServoController.constructor` | ServoController.c:68-71 | At boot: all channels are 0, the countdown is 100 with the LED lit, and the cursor and compare registers are 0. |
| `Controller.ServoController.OnCompareA` | ServoController.c:74-81 | The registers become those with channels 0-4 lowered, in source order. The cursor range and the LED invariant are kept. |
| `Controller.ServoController.OnCompareB` | ServoController.c:84-91 | The registers become those with channels 5-9 lowered, in source order. |
| `Controller.ServoController.RaiseGroupAChannel` | ServoController.c:98-106 | The line of channel `loop` is raised exactly when `servo[loop] != 0`. |
| `Controller.ServoController.RaiseGroupBChannel` | ServoController.c:107-115 | The line of channel `loop + 5` is raised exactly when `servo[loop + 5] != 0`. |
| `Controller.ServoController.AdvanceRound` | ServoController.c:117-122 | The cursor advances with wrap. OCR0A/OCR0B hold the values of the round the advanced cursor names. |
| `Controller.ServoController.CountLedDown` | ServoController.c:124-130 | The countdown takes one tick. PB6 is raised exactly on the tick that reaches 0. The LED stays lit exactly while the countdown runs. |
| `Controller.ServoController.OnOverflow` | ServoController.c:94-131 | Cursor, compare registers, countdown and ports move as `NextRound`, `LedTick` and `OverflowOutputs` say. The class invariant is kept. |
| `Controller.ServoController.ReceiveData` | ServoController.c:199-226 | The `for` loop's outcome is `DataPhase`. The table becomes the bytes received up to that count, over the old values. |
| `Controller.ServoController.ReceiveFrame` | ServoController.c:177-226 | The outcome is `Frame`, and the table changes as `Store`/`Written` say. On acceptance the LED is lit and the countdown is 20; otherwise both are unchanged. |
| `Controller.ServoController.MainLoop` | ServoController.c:151-229 | Channel values, countdown and ending equal `AfterBus` of the old state. No PORTB bit other than PB6 changes. |

## Left out

- The one-time setup of pin directions, pull-ups, timer mode and interrupt
  enables (lines 136-148) is left out. It has no logic. The constructor takes
  only the PORTB value it leaves: the address pull-ups PB1-PB4 are on, and PB6
  is low, so the LED is lit.
- The USI mechanics are abstracted into the `Byte`/`Stop` event stream:
  - clearing the status flags;
  - the busy-waits on `USISR` and `PINB`;
  - driving the acknowledge bit (lines 153-177, 192-196, 202-206 and
    215-219).
  The wait for the acknowledge to be clocked out is assumed to end.
- Interleaving of the interrupts with the main loop is left out. Each handler
  and each pass of the receiver runs atomically. The class invariant "LED lit
  exactly while `ledTimeout != 0`" depends on this. An overflow between
  `PORTB &= ~64` and `ledTimeout=20` (lines 188-189) that finds the countdown
  at 1 would switch the LED off just before the countdown is reloaded.
- Real-time behaviour is left out: the timer periods, when compare matches
  fire relative to the overflow, and the double buffering of OCR0A/OCR0B that
  makes the values armed at one overflow apply to the next round. The model
  states which values are armed, not when they take effect.
- The address inputs are read once per run of the main loop: `MainLoop`,
  `ReceiveFrame` and `AfterBus` take one `PINB` value. The firmware reads
  `PINB & 30` again for every address byte (line 184), so an address jumper
  changed while the device runs is not modelled.
- Output registers are sets of bit numbers rather than 8-bit words.
  `PORTx |= m` and `PORTx &= ~m` are modelled only for the single-bit masks
  the firmware uses.
- A bus on which a wait never ends is modelled as an event sequence that
  runs out. The run then stops, reporting that it is still waiting.
- The unused `<stdio.h>` include and the pin-wiring comments other than the
  channel-to-pin map are not modelled.
