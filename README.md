# Frequency counter gate, in Dafny

A model of `counter.c`, the firmware of an ATmega frequency counter running at
20 MHz. Timer/Counter 1 counts falling edges on the T1 pin, and the byte
`freqCounter` counts Timer 1 overflows, so the two together form a 24-bit pulse
count. Timer/Counter 2 runs from the 1024 prescaler tap. Its overflow interrupt
counts `secTimer` down from `ONE_SEC_GATE` (76) to close a one-second gate.
When the gate closes it stops both timers and sets `flags.dataReady`. The main
loop then combines the two counts, reports the result and restarts the gate.

The project has three modules:

- `Counter` (`counter_model.dfy`): the globals and registers as a `State` value.
  Every routine of `counter.c` is a function on it: `t1_init`, `t2_init`, the
  four timer on/off switches, `getTimer1`, both interrupt service routines,
  `main`'s start-up, the loop's restart and one pass of the loop. Two hardware
  events drive it: a falling edge on T1 (`Pulse`) and one prescaled Timer 2
  clock (`Tick`). The interrupts follow from the counters wrapping.
- `CounterDevice` (`counter_device.dfy`): the class `Avr`, whose fields are those
  globals and registers. Its methods update them in place, as the C code does.
  Each method is specified by the `Counter` function for the same routine.
- `CounterProofs` (`counter_proofs.dfy`): what counter.c's comments promise. This covers
  the gate constants, the effect of each interrupt, the count-down of the gate,
  the frozen counters once data is ready, the restart, and the value reported
  after one full cycle of pulses and ticks.

Two details are modelled as the code has them:

- The residual preload (`TCNT0 = LAST_SEC`, counter.c:177) writes Timer 0's
  count, not Timer 2's. So the last Timer 2 interval is a full 256 ticks, and
  the gate lasts 77 × 256 = 19712 ticks (`GATE_TICKS`). The comment describes
  76 × 256 + 74 = 19530 ticks, one short of the 19531 ticks in a second
  (`GateConstants`, `GateAsWritten`). The comment at counter.c:82-83 says the
  value is forced into the timer register for the last portion of the gate,
  that is, that it shortens the final interval. The model follows the code.
- `getTimer1` returns a 16-bit signed `int`, which is then converted to a 32-bit
  `unsigned long`. The reported value equals the pulse count P (P < 2^24) only
  when P mod 65536 < 32768. Otherwise it is P − 65536 modulo 2^32
  (`Frequency`, `ReportsPulseCount`). The comments at counter.c:187 and
  counter.c:217 describe a plain sum of the accumulated pulses. The model
  follows the code.

## Model

| member | source | states |
|---|---|---|
| Counter.T1Init | counter.c:99-105 | Timer 1 is stopped, TCNT1 is 0 and its overflow interrupt is enabled |
| Counter.T2Init | counter.c:117-123 | Timer 2 is stopped, TCNT2 is 0 and its overflow interrupt is enabled |
| Counter.Timer1Off | counter.c:130-132 | Timer 1 no longer counts |
| Counter.Timer1On | counter.c:134-136 | Timer 1 counts (clock select 6, external T1 pin) |
| Counter.Timer2Off | counter.c:138-140 | Timer 2 no longer counts |
| Counter.Timer2On | counter.c:142-144 | Timer 2 counts (clock select 7, clk/1024) |
| Counter.Int16 | counter.c:150-152 | the 16-bit `int` getTimer1 returns is TCNT1 modulo 2^16 in [-32768, 32768), and equals TCNT1 exactly when TCNT1 < 32768 |
| Counter.ULong | counter.c:218-219 | the `unsigned long` conversion is congruent to its argument modulo 2^32 and keeps values already in range |
| Counter.Frequency | counter.c:217-219 | the combined value is freqCounter·65536 + TCNT1 when TCNT1 < 32768; 65536 less when TCNT1 ≥ 32768 and freqCounter > 0; 2^32 − 65536 + TCNT1 when freqCounter is 0 |
| Counter.Timer1Overflow | counter.c:158-160 | freqCounter goes up by one modulo 256 and no other field changes; restated with the name of the ISR by Timer1OverflowCounts |
| Counter.Timer2Overflow | counter.c:167-181 | freqCounter, TCNT1, TCNT2 and the interrupt enables are kept; dataReady is set exactly when lastSec was; with lastSec set both timers stop and lastSec clears, otherwise both timers' control is kept; the count-down itself is stated by Timer2OverflowCounting, Timer2OverflowLastSec, CountDown and GateSequence |
| Counter.Pulse | counter.c:154-160 | a falling edge does nothing while Timer 1 is stopped and otherwise changes only TCNT1 and freqCounter; the +1 on the 24-bit count is stated by PulseCounts |
| Counter.Tick | counter.c:162-181 | a tick does nothing while Timer 2 is stopped and never changes freqCounter, TCNT1 or the interrupt enables; its advance of the gate is stated by TickAdvances |
| Counter.Startup | counter.c:193-202 | secTimer = 76, freqCounter = 0, TCNT1 = TCNT2 = 0, both flags clear, both timers running with their overflow interrupts enabled; StartupArms adds that a full gate is open |
| Counter.Restart | counter.c:227-232 | secTimer = 76, freqCounter = 0, TCNT1 = TCNT2 = 0, both timers running with interrupts enabled, the flags left as they were; RestartResets adds idempotence |
| Counter.Poll | counter.c:214-233 | after a pass dataReady is clear; a value is reported exactly when dataReady was set, and it is the main loop's combination of freqCounter and TCNT1; without dataReady the state is unchanged |
| CounterDevice.Avr.constructor | counter.c:65-72 | power-on state: globals zero-initialised, timers stopped, interrupts disabled |
| CounterDevice.Avr.T1Init | counter.c:99-105 | in place: the new state is `Counter.T1Init` of the old |
| CounterDevice.Avr.T2Init | counter.c:117-123 | in place: the new state is `Counter.T2Init` of the old |
| CounterDevice.Avr.Timer1Off | counter.c:130-132 | in place: only TCCR1B changes, to 0 |
| CounterDevice.Avr.Timer1On | counter.c:134-136 | in place: only TCCR1B changes, to 6 |
| CounterDevice.Avr.Timer2Off | counter.c:138-140 | in place: only TCCR2B changes, to 0 |
| CounterDevice.Avr.Timer2On | counter.c:142-144 | in place: only TCCR2B changes, to 7 |
| CounterDevice.Avr.GetTimer1 | counter.c:150-152 | returns TCNT1 when it is below 32768 and a negative value congruent to it modulo 2^16 otherwise |
| CounterDevice.Avr.Timer1Overflow | counter.c:158-160 | in place: the new state is `Counter.Timer1Overflow` of the old |
| CounterDevice.Avr.Timer2Overflow | counter.c:167-181 | in place: the new state is `Counter.Timer2Overflow` of the old |
| CounterDevice.Avr.Pulse | counter.c:154-160 | in place: a T1 falling edge increments TCNT1 modulo 2^16 while Timer 1 runs and runs the overflow interrupt on the wrap |
| CounterDevice.Avr.Tick | counter.c:162-181 | in place: a prescaled clock increments TCNT2 modulo 256 while Timer 2 runs and runs the overflow interrupt on the wrap |
| CounterDevice.Avr.Startup | counter.c:193-202 | in place: the new state is `Counter.Startup` of the old |
| CounterDevice.Avr.Restart | counter.c:227-232 | in place: the new state is `Counter.Restart` of the old |
| CounterDevice.Avr.Poll | counter.c:214-233 | in place: the new state and the reported value are those of `Counter.Poll` |
| CounterProofs.GateConstants | counter.c:74-86 | ONE_SEC_GATE is 76 and LAST_SEC is 182; 76·256 + (256 − 182) = 19530 is one tick short of the 19531 ticks in a second |
| CounterProofs.GateAsWritten | counter.c:175-178 | the constant GATE_TICKS, (76 + 1)·256, is 19712, which is 182 ticks more than the intended 19530; that the gate really closes after GATE_TICKS ticks is proved by StartupArms together with MeasurementCycle |
| CounterProofs.Timer1OverflowCounts | counter.c:158-160 | a Timer 1 overflow adds one to freqCounter modulo 256 and changes nothing else |
| CounterProofs.Timer2OverflowCounting | counter.c:174-180 | with lastSec clear: secTimer is decremented modulo 256; lastSec is set exactly when it reaches 0, and only then is TCNT0 loaded with 182; dataReady, freqCounter, TCNT1, TCNT2 and both timers' control are unchanged |
| CounterProofs.Timer2OverflowLastSec | counter.c:168-173 | with lastSec set: TCCR1B and TCCR2B become 0, dataReady is set, lastSec cleared; secTimer, freqCounter, TCNT1 and TCNT2 are unchanged |
| CounterProofs.CountDown | counter.c:175-179 | k ≤ secTimer overflows leave secTimer − k, set lastSec only at the last one, and leave dataReady, freqCounter and the timers alone |
| CounterProofs.GateSequence | counter.c:167-181 | from secTimer = 76 with both flags clear, lastSec is set exactly after 76 overflows, dataReady exactly after the 77th, which also stops both timers |
| CounterProofs.Frozen | counter.c:129-144 | with both timers stopped, no sequence of pulses and ticks changes the state |
| CounterProofs.FrozenOnceReady | counter.c:168-173 | once the gate has closed and set dataReady, pulses and ticks change neither TCNT1 nor freqCounter nor anything else |
| CounterProofs.PulseCounts | counter.c:154-160 | a pulse while Timer 1 runs adds one to freqCounter·65536 + TCNT1 modulo 2^24 and changes no other field |
| CounterProofs.TickAdvances | counter.c:167-181 | while the gate is open a tick leaves the count alone and brings the closing one tick nearer; the last tick closes it |
| CounterProofs.RunGate | counter.c:154-181 | from an open gate, any events close it exactly after TicksLeft ticks, and the count grows by the pulses before that, modulo 2^24 |
| CounterProofs.RestartResets | counter.c:226-232 | the restart sets secTimer = 76, freqCounter = 0, TCNT1 = TCNT2 = 0, TCCR1B = 6, TCCR2B = 7, both interrupts enabled, whatever came before; applying it twice equals applying it once |
| CounterProofs.StartupArms | counter.c:193-202 | main's start-up opens a full 19712-tick gate with the count at 0, from any state |
| CounterProofs.PollRearms | counter.c:214-233 | a loop pass that finds the gate closed reports one value and re-opens a full gate with the count at 0; the next pass reports nothing |
| CounterProofs.PollIdle | counter.c:214 | a loop pass without dataReady changes nothing and reports nothing |
| CounterProofs.MeasurementCycle | counter.c:212-233 | from a freshly opened gate, dataReady is set exactly when 19712 ticks have passed, and the next loop pass reports the combination of the pulses P before the closing tick, split as (P mod 2^24) / 65536 and P mod 65536 |
| CounterProofs.FrequencyOfCount | counter.c:217-219 | for P < 2^24 split into freqCounter and TCNT1, the combined value is P when P mod 65536 < 32768 and (P − 65536) mod 2^32 otherwise |
| CounterProofs.ReportsPulseCount | counter.c:217-219 | after a full gate with P < 2^24 pulses, the reported value is P when P mod 65536 < 32768 and (P − 65536) mod 2^32 otherwise |

## Left out

- The LCD driver (`hd44780_init`, `hd44780_putstr`, `hd44780_clearLine`), the start-up banner and `_delay_ms`: display I/O and timing. `Poll` returns the value that would be shown.
- `ltoa`: the decimal text is not modelled; the report is the `unsigned long` value handed to it. `ltoa` takes a signed `long`, so values of 2^31 and above would print negative; that formatting is not modelled.
- `sei()`, `volatile` and interrupt preemption: each interrupt routine, each hardware event and each loop pass is one atomic step. A loop pass interrupted between clearing `dataReady` and the restart is not modelled.
- `main`'s endless `while(1)`: the model has one pass (`Poll`); repeated passes are sequences of calls.
- `TCCR1A`, `TCCR2A`, `TIFR1`, `TIFR2`, the `TIMSKn` bits other than the overflow enables, and the bit packing of `flags`: only the counts, the control bytes TCCR1B/TCCR2B and the overflow-interrupt enables are kept. An overflow that happens while its interrupt is disabled is dropped rather than left pending.
- Timer 0 itself: it is never configured in `counter.c`, so `TCNT0` is a plain byte that the preload writes and nothing reads.
