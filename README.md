# pisteppers in Dafny

A model of the integer bookkeeping at the heart of pisteppers, a Raspberry Pi
controller for stepper motors driven through pigpio:

- the per-motor pulse generators (A4988 step/direction chips and directly
  switched unipolar motors, with the two older generations of the same code)
  that turn a stream of ticks into timed GPIO on/off pulses carrying the
  motor's microstep position, with the fractional microsecond carried by
  `divmod` so that the clock never drifts;
- the merges that interleave several motors' pulse streams: `pulsemerge` on
  absolute times and `multiPulse` on relative delays with the bits of
  coincident pulses ORed together;
- the fast-stepping threads that cut the merged stream into pigpio waves of
  bounded size, keep a bounded FIFO of pending waves and publish each motor's
  position when a wave is retired;
- the motor state machines: the base stepper's command dispatch
  (closed / stopped / softrun / dmarun), the wave-driven motor agent
  (idle / slowstep / fastwave, position modulo `maxval`, signed step factor,
  wave offsets), the step-count skeleton of the ramped `pulser`, and the
  command queue and thread loop of the older all-in-one module;
- the small pure helpers: GPIO bit masks and pin configuration checks,
  the unipolar coil phase tables, the test agent's timer heap and the angle
  folding of the equatorial mount.

A GPIO mask is modelled as the set of the pin numbers whose bits are set:
Python's `|` on masks is set union, `&` is intersection and the mask 0 is the
empty set. Tick intervals are non-negative `real`s, so the `divmod` carry is
exact. Exceptions the Python code raises are values of `PyError` carried in a
`Result` or in the generator's state. Calls on the pigpio connection are kept
as a log of operations. Methods work step by step on the same variables and
fields as the Python code. Each is proved against a specification function,
and lemmas state the properties of those functions.

Files: `pulses.dfy` (shared values), `gpio_pins.dfy` (gpiopins.py),
`pulse_merge.dfy` (`pulsemerge`), `stepper_a4988.dfy` (stepperA4988.py),
`stepper_base.dfy` (stepperbase.py), `stepper_unid.dfy` (stepperunid.py),
`stepper_group.dfy` (steppergroup.py), `stepper_driver.dfy` and
`wave_agent.dfy` (stepperdriver.py), `wave_test.dfy` (stepwavetest.py),
`mount.dfy` (equMountDriver.py), `old_steppers.dfy` (steppers.py) and
`simple_stepper.dfy` (simplestepper.py). Each older copy of a function is
modelled once, and a row below cites every copy that member stands for.

## Model

| member | source | states |
|---|---|---|
| Pulses.PinBit | gpiopins.py:97 | `1 << pinno` is the mask holding exactly that pin |
| Pulses.SplitMicros | stepperA4988.py:122-141 | `divmod(ticktime*1000000 + overflow, 1)`: a non-negative whole count of microseconds and a carried fraction in [0, 1) that together are exactly the interval plus the carry |
| Pulses.MaxOf | gpiopins.py:172 | Python's `max` of a non-empty list is one of its elements and no element exceeds it |
| Pulses.OrderedAppend | stepperA4988.py:112-155 | appending pulses no earlier than everything so far, and no later than the new clock, keeps a pulse list time-ordered up to the clock |
| GpioPins.ValidateOutPin | gpiopins.py:37-49 | the constructor's assertions pass exactly when `vlist` has two entries, the close value and the initial value are in it and -1 <= pinno <= 31; the initial value defaults to `vlist[0]`; the copy at simplestepper.py:68-80 behaves the same |
| GpioPins.BitsFor | gpiopins.py:93-98 | `getBits`: no masks for an absent pin (pinno < 0); otherwise exactly one of the two masks is the pin's bit, the on-mask exactly when the value is not the low value `vlist[0]`; the copy at simplestepper.py:124-129 behaves the same |
| GpioPins.OutPin.Index | gpiopins.py:53 | `vlist.index(value)` is 0 or 1 and names the current value; 1 only when the value is not the low one |
| GpioPins.OutPin.constructor | gpiopins.py:37-56 | a validated pin is set to output and written with its initial level only when pinno > 0 (pin 0 is never initialised) |
| GpioPins.OutPin.SetPin | gpiopins.py:67-69 | `_setPin` writes the level only for a physical pin |
| GpioPins.OutPin.SetValue | gpiopins.py:71-75 | the value becomes `v`; the result says whether it changed, and the pin is written with the new level only then; the copy at simplestepper.py:102-106 behaves the same |
| GpioPins.OutPin.Shutdown | gpiopins.py:58-65 | a physical pin goes back to input mode, or is written to the close value when one is configured; nothing happens for an absent pin (these calls are `ShutdownOps`) |
| GpioPins.OutPin.GetBits | gpiopins.py:83-98 | the wave masks for `v`, or for the current value when none is given, with the properties of `BitsFor`; the copy at simplestepper.py:114-129 behaves the same |
| GpioPins.OutPin.TriggerPulse | gpiopins.py:133-136 | `trigger` asks pigpio for one pulse at `vlist[1]` of the given length, for a physical pin only |
| GpioPins.TriggerOutConfig | gpiopins.py:126-131 | the output-pin settings of a trigger pin drop `pulsetime` and use `vlist` (0,1), or (1,0) when `pulse1` is false |
| GpioPins.TriggerPin.constructor | gpiopins.py:117-131 | a trigger pin is an output pin built from those settings, keeping its pulse time |
| GpioPins.TriggerPin.Fire | gpiopins.py:133-136 | one trigger of `pulsetime` microseconds at `vlist[1]` when the pin exists, nothing otherwise |
| GpioPins.ValidateUstep | gpiopins.py:160-174 | the pin-set constructor's checks pass exactly when every level lists one value per pin, the initial level is known and every pin config is valid; with no initial level the default is an unhashable `dict_keys`, so the membership test raises TypeError; the copy at simplestepper.py:191-205 behaves the same |
| GpioPins.UstepPinset.PinValues | gpiopins.py:190-193 | the values currently on the level pins, one per pin |
| GpioPins.UstepPinset.constructor | gpiopins.py:159-176 | one fresh output pin per pin config, and the initial level's values are on the pins |
| GpioPins.UstepPinset.MaxUsteps | gpiopins.py:172-185 | the largest declared level: one of the levels and no smaller than any; the copy at simplestepper.py:203-216 behaves the same |
| GpioPins.UstepPinset.SetValue | gpiopins.py:187-197 | only an application agent may set the level; then every level pin carries its value for that level, and each assigned pin whose value changed gets exactly one write of its new level while the others get none; otherwise no value changes, no pin is written and the result is false; the copy at simplestepper.py:218-228 behaves the same |
| GpioPins.UstepPinset.Shutdown | gpiopins.py:179-182 | every level pin is shut down: each pin's call log gains exactly that pin's `shutdown` calls, and no pin's value changes |
| PulseMerge.Heads | steppergroup.py:256-263 | the list of heads holds, per stream, the time of its next untaken pulse, and no head once the stream is exhausted |
| PulseMerge.PickMeaning | steppergroup.py:305-320 | the scan finds nothing exactly when every head is exhausted; otherwise its time is at most every live head's time and its ties are exactly the streams whose head is at that time, in increasing stream order |
| PulseMerge.Advance | steppergroup.py:321-333 | after a round each tied stream's cursor moves on by one and every other cursor is unchanged |
| PulseMerge.RoundProgress | steppergroup.py:304-333 | a round takes only live heads, so the cursors stay within their streams and strictly fewer pulses remain (the loop ends) |
| PulseMerge.RoundTimes | steppergroup.py:321-333 | every pulse yielded in a round carries the round's time, and no live head precedes it |
| PulseMerge.RoundNextHeads | steppergroup.py:321-333 | with every stream in time order, no head left after a round is earlier than the round's time |
| PulseMerge.MergeFromOrdered | steppergroup.py:304-333 | with every stream in time order the many-stream merge yields pulses in time order, none earlier than a bound below every head |
| PulseMerge.FromSourceRound | steppergroup.py:321-333 | one round yields a tied stream's head exactly once and nothing from a stream that is not tied |
| PulseMerge.MergeFromSources | steppergroup.py:304-333 | the pulses the many-stream merge yields from each stream are exactly that stream's untaken pulses in their own order, and nothing comes from any other source |
| PulseMerge.MergeFrom | steppergroup.py:304-333 | the round-by-round merge from the current cursors: each round yields the tied earliest heads in stream order and moves their cursors on, until every stream is used up (its ordering and conservation are `MergeFromOrdered` and `MergeFromSources`) |
| PulseMerge.MergeMany | steppergroup.py:304-333 | the `while True` loop over scan and yield rounds produces the many-stream merge from all cursors at zero |
| PulseMerge.YieldRound | steppergroup.py:321-333 | the tied heads are yielded in stream order and each is refilled from its own generator |
| PulseMerge.ScanHeads | steppergroup.py:305-320 | the `enumerate(mpulses)` scan reports a head exactly when one is live, with the earliest time as `nextt` and the tied streams as `nextix` |
| PulseMerge.TwoFromSources | steppergroup.py:275-302 | the two-stream merge (with B refilled from its own generator) yields each stream whole and in its own order and nothing else |
| PulseMerge.TwoFromOrdered | steppergroup.py:275-302 | with both streams in time order the two-stream merge yields in time order, B first unless A's head is strictly earlier (ties to B) |
| PulseMerge.TwoFrom | steppergroup.py:275-302 | the two-stream merge with B refilled from its own generator: A's head first when B is used up or A is strictly earlier, ties to B (proved about in `TwoFromSources` and `TwoFromOrdered`) |
| PulseMerge.TwoFromAsWritten | steppergroup.py:275-302 | the two-stream merge exactly as written: once A is used up, yielding B's head refills it from A's generator and the merge ends (see `TwoAsWrittenDropsTail`) |
| PulseMerge.TwoAsWrittenDropsTail | steppergroup.py:287 | refilling B from `genA` once A is exhausted loses B's remaining pulses: A at 0 and B at 5, 6 yield only two pulses where the intended merge yields three; the copies at steppers.py:881 and simplestepper.py:1210 do the same |
| PulseMerge.MergeTwoAsWritten | steppergroup.py:275-302 | the two-stream loop exactly as written, including the refill of B from `genA` |
| PulseMerge.MergeTwo | steppergroup.py:275-302 | the two-stream loop with B refilled from `genB` yields the ordered, stream-preserving two-way merge |
| PulseMerge.LiveIdsMeaning | steppergroup.py:256-263 | priming keeps exactly the generators that yield a first pulse, in their original order |
| PulseMerge.LiveStreams | steppergroup.py:256-263 | the priming loop collects the live generators (`newgens`) in order |
| PulseMerge.PassThrough | steppergroup.py:266-274 | with one live stream the merge yields its primed head and then everything its generator yields, unchanged |
| PulseMerge.MergedKeepsStreams | steppergroup.py:243-333 | whatever the number of streams, nothing is lost, duplicated or reordered within a stream: the merged pulses from stream k are exactly stream k |
| PulseMerge.MergedOrdered | steppergroup.py:243-333 | with every stream in time order the merged stream is in time order |
| PulseMerge.Merged | steppergroup.py:243-333 | `pulsemerge` by the number of live streams: none yields nothing, one passes through, two use the two-stream merge (with the intended refill), more use the round merge (proved about in `MergedKeepsStreams` and `MergedOrdered`) |
| PulseMerge.PulseMergeStreams | steppergroup.py:243-333 | `pulsemerge`, corrected to refill B from `genB` (see Findings), with zero, one, two or more live streams produces the stream-preserving ordered merge; the copies at steppers.py:848-927 and simplestepper.py:1177-1256 do the same |
| StepperA4988.GenTick | stepperA4988.py:112-140 | one tick keeps the carried microsecond fraction in [0, 1) |
| StepperA4988.GenFrom | stepperA4988.py:112-140 | across any ticks the carried fraction stays in [0, 1) |
| StepperA4988.GenFromLast | stepperA4988.py:112-140 | the generator's state after one more tick is that tick applied to the state before it |
| StepperA4988.NoDrift | stepperA4988.py:122-138 | across ticks without an idle tick, clock plus carried fraction grows by exactly the summed intervals in microseconds, so the clock never drifts from the floor of the exact running total |
| StepperA4988.GenPosition | stepperA4988.py:120-135 | with valid direction letters the generator raises exactly when a step tick comes before any direction tick (`dirmult` unbound); otherwise its position is the start plus `poschange` times the signed step count and `dirmult` is the last direction's sign |
| StepperA4988.GenOrdered | stepperA4988.py:122-130 | when each step interval covers the pulse length, the on and off pulses come out in time order and none is later than the clock |
| StepperA4988.StreamTail | stepperA4988.py:141-155 | after the loop the stream stays time-ordered and ends with the hold padding, the disable bits at least the hold delay after the last step, and the completion marker 10 µs later, all at the final position |
| StepperA4988.GeneratePulses | stepperA4988.py:75-155 | the generator yields the pulse stream; when it does not raise it ends with a completion marker at the start plus `poschange` times the signed step count |
| StepperA4988.RunTicks | stepperA4988.py:112-140 | the tick loop runs until the tick source is exhausted or an exception, giving the generator's state |
| StepperA4988.FinishStream | stepperA4988.py:141-155 | the code after the loop appends the hold padding, disable pulse and final marker |
| StepperA4988.GenStopped | stepperA4988.py:112-140 | once the generator has raised, later ticks change nothing |
| StepperA4988.A4988Stepper.constructor | stepperA4988.py:28-39 | the motor owns a drive-enable pin, a direction pin, a step trigger pin and a microstep pin set, all distinct pin objects: the step pin differs from the other two and no microstep pin is any of the three (enable and direction differ by the base stepper's invariant, the microstep pins pairwise by the pin set's) |
| StepperA4988.A4988Stepper.MaxUstepLevel | stepperA4988.py:41-42 | `getmaxusteplevel` is the largest level of the microstep pin set and one of its levels |
| StepperA4988.A4988Stepper.EndStepping | stepperA4988.py:53-57 | `endstepping` sets the drive to 'disable' and nothing else |
| StepperA4988.A4988Stepper.WiringOf | stepperA4988.py:95-143 | the step pin's bit goes to exactly one of the on and off masks, the on-mask when the pin idles low; the hold delay is 100 µs when the hold time is zero |
| StepperA4988.A4988Stepper.PulseGen | stepperA4988.py:75-155 | `pulsegen` records the target position and direction and leaves position and mode alone; an unassigned direction pin raises ValueError before the tick generator is marked active, an unassigned step pin raises it just after; with both pins assigned the generator is active and yields the pulse stream from the motor's raw position |
| StepperA4988.A4988Stepper.SoftRun | stepperbase.py:200-267 | `_softrun` with this driver fails exactly when a step precedes every direction; the step pin gets one trigger per step of the run and nothing else, and the direction pin ends at the last direction set, or as it was; a failed run leaves position, mode and activity as they were and the drive enabled; otherwise the position moves by `poschange` times the signed step count and the motor ends stopped, inactive and disabled |
| StepperA4988.A4988Stepper.ActAll | stepperbase.py:233-252 | the soft run's actions in order: the step pin gets exactly one trigger per step and the direction pin ends at the last direction set, or as it was |
| StepperA4988.TriggerOps | gpiopins.py:133-136 | a step pin's `trigger` makes one pigpio trigger call exactly when the pin is assigned |
| StepperA4988.FiredSteps | stepperbase.py:233-235 | over a soft run the step pin is triggered exactly once per step, each time with the same pulse |
| StepperA4988.DirAfterLast | stepperbase.py:250-252 | the direction pin ends at the direction of the last direction tick of the run |
| StepperA4988.DirAfterNone | stepperbase.py:250-252 | a run without a direction tick leaves the direction pin as it was |
| StepperBase.DirSignOf | stepperbase.py:141 | the target direction is 1 exactly for 'fwd' and -1 for anything else |
| StepperBase.BaseStepper.constructor | stepperbase.py:56-97 | a new motor is 'stopped', inactive, at raw position 0 with target 0 and direction 1 |
| StepperBase.BaseStepper.DoThis | stepperbase.py:105-168 | `dothis`: 'None' does nothing; a closed motor raises ValueError; unknown commands fail the assertion; moves from 'stopped' check the step mode (ValueError), the direction or position (AssertionError), then start software stepping, hand over to waves or raise NotImplementedError; moves while running only retarget; stop/close disable a stopped motor and only clear `stepactive` on a running one; setpos works only when stopped |
| StepperBase.BaseStepper.DmaRun | stepperbase.py:170-183 | `dmarun`: an unknown step mode raises; a wave mode marks the motor active in 'dmarun' and returns its generator; any other mode changes nothing and returns None |
| StepperBase.BaseStepper.WaitStop | stepperbase.py:99-103 | `waitstop` leaves the drive disabled and the motor closed without moving it |
| StepperBase.BaseStepper.BeginSoftRun | stepperbase.py:209-212 | the start of `_softrun` sets the targets, the active step level and 'enable' on the drive, and reports whether the drive's value changed (which is when its watchers are notified) |
| StepperBase.BaseStepper.EndSoftRun | stepperbase.py:263-266 | the end of `_softrun` publishes the position and leaves the motor 'stopped' and inactive |
| StepperBase.SoftRunPosition | stepperbase.py:228-256 | the software loop fails exactly when a step tick precedes every direction tick; otherwise the final position is the start plus `poschange` times the signed step count, the sign is the last direction's, and one step is triggered per step tick |
| StepperBase.SoftRunLoop | stepperbase.py:228-256 | the tick loop gives the final position, the triggers and direction settings in order, and whether the thread died |
| StepperBase.SoftRunFrom | stepperbase.py:228-256 | the `_softrun` loop over a tick sequence: a float tick triggers a step and moves the position by `poschange` times the sign, failing when no direction was set; a direction tick sets the sign; an idle tick only waits (proved about in `SoftRunPosition`) |
| StepperBase.FailedStaysFailed | stepperbase.py:228-256 | once the loop has died, later ticks change nothing |
| StepperUnid.TablesWellShaped | stepperunid.py:32-58 | the built-in tables are exactly 'single', 'double', 'two' and 'four', each with at least four rows of four coil values |
| StepperUnid.TableShape | stepperunid.py:32-58 | every built-in table has at least four rows, each a value per coil |
| StepperUnid.MaxUstepLevel | stepperunid.py:84-85 | `getmaxusteplevel` is 4, no table's factor exceeds it |
| StepperUnid.UstepLevel | stepperunid.py:87-88 | `getusteplevel` succeeds exactly for a built-in table name, giving 1, 2 or 4, never above the maximum; any other name raises KeyError |
| StepperUnid.ValidateDrivePins | stepperunid.py:66-69 | the constructor accepts exactly four drive pins, each with 0 < pin < 32 |
| StepperUnid.PinBits | stepperunid.py:160-164 | `pinbits` holds each drive pin's bit in pin order |
| StepperUnid.RowMasksSets | stepperunid.py:166-174 | the masks built from the bits of the first k drive pins are the pins of the first k coils, split by whether the coil value is above 127 |
| StepperUnid.StepBitsMeaning | stepperunid.py:166-174 | with distinct drive pins every row's on and off masks are disjoint and together are exactly the drive pins; a pin is on iff its coil's value is above 127 |
| StepperUnid.StepBits | stepperunid.py:165-174 | the `stepbits` loop builds one (on, off) pair per table row |
| StepperUnid.ChangedWritesMeaning | stepperunid.py:132-137 | a coil is written iff its value differs from the remembered one: with nothing remembered every coil is written in order, and rewriting the same row writes nothing |
| StepperUnid.CoilWrites | stepperunid.py:132-137 | the coil loop of `stepmotor` writes the changed coils and remembers the row; the copy at steppers.py:480-485 behaves the same |
| StepperUnid.NextPhaseModulo | stepperunid.py:121-131 | inside the table `stepmotor` moves one row forward or back modulo its length; from past the end a forward step restarts at 0 and a backward step stays outside unless it lands on the last row |
| StepperUnid.NextPhase | stepperunid.py:121-131 | `stepmotor`'s phase step: forward wraps to 0 at the table length, backward wraps to the last row (its meaning is `NextPhaseModulo`) |
| StepperUnid.NextGenIndexModulo | stepperunid.py:197-205 | the generator's index wraps at `len(pinbits)`, which is 4, not at the table length: inside rows 0-3 it moves modulo 4, from further out forward restarts at 0 and backward moves one row down |
| StepperUnid.NextGenIndex | stepperunid.py:197-205 | the generator's phase step, which wraps at `len(pinbits)` = 4 (its meaning is `NextGenIndexModulo`) |
| StepperUnid.UGenTick | stepperunid.py:183-210 | one tick keeps the carried microsecond fraction in [0, 1) |
| StepperUnid.UGenFrom | stepperunid.py:183-210 | across any ticks the carried fraction stays in [0, 1) |
| StepperUnid.UGenFromLast | stepperunid.py:183-210 | the state after one more tick is that tick applied to the state before it |
| StepperUnid.UGenPosition | stepperunid.py:183-210 | started inside a table of at least four rows, the generator raises exactly when a step tick precedes every direction tick (`tabinc` unbound); otherwise its position is the start plus `poschange` times the signed step count, `tabinc` is the last direction's sign and the index stays inside the table |
| StepperUnid.UGenNoDrift | stepperunid.py:190-210 | until it fails, clock plus carried fraction equals 100000 µs per idle tick plus the summed intervals exactly |
| StepperUnid.UGenOrdered | stepperunid.py:183-210 | the generator's pulses are in time order and none is later than its clock |
| StepperUnid.OnlyFirstFourRows | stepperunid.py:196-205 | because the index wraps at 4, the 8- and 16-row tables are never stepped past their fourth row in wave mode |
| StepperUnid.StaleIndexFails | stepperunid.py:196 | an index left past the end of the table by software stepping makes the first step after a direction raise IndexError |
| StepperUnid.UGenStopped | stepperunid.py:183-210 | once the generator has raised, later ticks change nothing |
| StepperUnid.RunUnidTicks | stepperunid.py:183-210 | the tick loop gives the generator's state after the ticks |
| StepperUnid.TableMasks | stepperunid.py:165-174 | one (on, off) pair per table row |
| StepperUnid.DirectStepper.constructor | stepperunid.py:31-75 | construction accepts checked pins, starts at phase 0 with no table and no remembered coil values, and switches every coil to duty 0 |
| StepperUnid.DirectStepper.OutputEnable | stepperunid.py:76-82 | `output_enable` sets every coil to the hold power on 'enable' and 0 otherwise, and always 0 while no table is active |
| StepperUnid.DirectStepper.EndStepping | stepperunid.py:93-98 | `endstepping` sets every coil's duty to 0 |
| StepperUnid.DirectStepper.GetStepFunc | stepperunid.py:108-116 | `getstepfunc` selects the table of the level (KeyError for an unknown one) and forgets the coil values |
| StepperUnid.DirectStepper.StepMotor | stepperunid.py:117-137 | `stepmotor` moves one phase forward for 'F', else back, stores the index and writes the changed coils; a stale index past the end raises IndexError after being stored; the copy at steppers.py:466-485 behaves the same |
| StepperUnid.DirectStepper.PulseGen | stepperunid.py:139-210 | `pulsegen`: KeyError for an unknown level; otherwise records mode and targets, puts the coil pins low as outputs, and yields the generator's stream from the raw position, keeping its index in `stepindex` |
| StepperUnid.DirectStepper.Begin | stepperunid.py:74-82 | enabling the drive of a disabled motor notifies `output_enable`, which writes the four coil duty cycles (hold power, or 0 while no table is active yet); an already enabled drive writes nothing; then the level's table is selected and every remembered coil value forgotten, while the position, opmode and `stepactive` stay |
| StepperUnid.StepCoils | stepperunid.py:117-137 | one `stepmotor` call as a value: it raises exactly when the new phase index lies outside the table, and keeps the direction |
| StepperUnid.ActionsFrom | stepperbase.py:228-256 | the loop's triggers and direction settings in order, ending at the first trigger that raises, since the exception ends the `_softrun` thread |
| StepperUnid.ActionsWrites | stepperbase.py:228-256 | the actions only add coil writes, and the only exception they raise is the IndexError of a phase outside the table |
| StepperUnid.ActionsInTable | stepperunid.py:117-132 | from a phase index inside the table no trigger raises, whatever the directions |
| StepperUnid.StaleStepRaises | stepperunid.py:112-132 | an index more than one row past the end, left by a longer table because `getstepfunc` does not reset it, makes the first step after direction 'R' raise IndexError with nothing written |
| StepperUnid.DirectStepper.RunActions | stepperbase.py:228-256 | the loop's triggers and direction settings leave the phase index, remembered coil values, direction and coil writes that `ActionsFrom` gives, and return the IndexError that ended the thread, if any |
| StepperUnid.DirectStepper.SoftRun | stepperbase.py:200-267 | `_softrun` with this driver: a drive not enabled before gets the four `output_enable` duty writes first, then the loop's actions run from the table's first use as `ActionsFrom` says; the thread dies (`failed`) exactly when a step precedes every direction, or on `stepmotor`'s IndexError (`err`), and then nothing is published and opmode and `stepactive` stay; otherwise the position moves by `poschange` times the signed step count, the motor stops and every coil is switched off |
| StepperGroup.WavePercent | steppergroup.py:107 | `100 // maxwaves` is the largest whole share of 100 that `maxwaves` waves can each take |
| StepperGroup.Put | steppergroup.py:127-147 | a buffer slot is appended when the buffer is that short and overwritten in place otherwise; no other slot changes |
| StepperGroup.EntriesSplit | steppergroup.py:121-153 | the entries of consecutive buffers concatenate to the entries of the whole range of merged pulses |
| StepperGroup.Entries | steppergroup.py:121-152 | one wave entry per merged pulse of the range, each lasting until the next merged pulse, or 1 µs for the last pulse of all |
| StepperGroup.FillFrom | steppergroup.py:121-153 | a fill never moves backwards in the stream, never writes past `maxpulses`, and leaves `moredata` set only with a pulse still to send |
| StepperGroup.FillEntries | steppergroup.py:121-153 | a fill writes one entry per merged pulse it passes, at consecutive slots, each with the delay to the next pulse (1 for the last of the stream) |
| StepperGroup.FillKeeps | steppergroup.py:116-147 | a recycled buffer keeps its length unless the fill outgrows it, and the slots past `nextbuffi` keep their old entries |
| StepperGroup.FillCloses | steppergroup.py:121-152 | `moredata` is cleared exactly when the stream is used up; otherwise the buffer is full or its delays have used up `bufftime`, which they had not at any earlier pulse |
| StepperGroup.FillAssertion | steppergroup.py:139-140 | `assert dtime >= 0` fails only on two merged pulses out of time order, so never on an ordered stream |
| StepperGroup.MergedFillsCleanly | steppergroup.py:96-153 | the merge of streams each in time order never trips the delay assertion |
| StepperGroup.RecordMeaning | steppergroup.py:114-153 | a buffer's end positions hold exactly the motors with a pulse in it, each mapped to its own last pulse there |
| StepperGroup.Record | steppergroup.py:153 | `mposns` for a range of pulses: each motor mapped to its last pulse in it (its meaning is `RecordMeaning`) |
| StepperGroup.AsWrittenEnds | steppergroup.py:114-153 | `mposns` as written: line 153 runs after `thisp = nextp` and not after a break, so it records the pulses after the buffer's first entry, plus the one after its last entry when the buffer closed on its count (see Findings) |
| StepperGroup.CompletionLostAtBoundary | steppergroup.py:153 | recording `thisp` after it has moved on files each pulse under the buffer before its own: a completion pulse that opens a buffer after the previous one closed on time is recorded by no buffer, so its motor is never stopped |
| StepperGroup.FillBuffer | steppergroup.py:114-153 | one fill; with `thisp` already None the first subscript raises TypeError; the end positions record each entry's own pulse (corrected, see Findings: the code as written is `StepperGroup.AsWrittenEnds`) |
| StepperGroup.NextBuffer | steppergroup.py:114-153 | with `mposns` corrected to record each entry's own pulse (see Findings), a round recycles the oldest saved buffer and fills it from `thisp`: its first `nextbuffi` entries are those of the pulses it passes and the end positions hold each motor's last pulse among them |
| StepperGroup.RetireCountMeaning | steppergroup.py:189 | retirement stops at the first occurrence of the wave now transmitting, and retires everything when that wave is not queued |
| StepperGroup.PublishPositions | steppergroup.py:201-203 | after publishing, a motor with an end position in the wave is at that pulse's position and every other motor keeps its own |
| StepperGroup.Completed | steppergroup.py:204-206 | the motors stopped are exactly those whose last pulse in the wave is an action-complete pulse |
| StepperGroup.MultiMotor.constructor | steppergroup.py:17-45 | the controller starts 'off' with the wave settings inside their declared bounds |
| StepperGroup.MultiMotor.RunFast | steppergroup.py:59-68 | `runfast` starts fast stepping only from 'off'; 'closed' and an active fast step raise ValueError and change nothing |
| StepperGroup.MultiMotor.EndFastStep | steppergroup.py:236-240 | the fast-stepping thread leaves the controller 'off' |
| StepperGroup.MultiMotor.CleanStop | steppergroup.py:50-57 | `cleanstop` leaves the controller 'closed' |
| StepperGroup.FastStepRun.constructor | steppergroup.py:95-111 | the thread starts at the first merged pulse with empty queues and clears pigpio's waves |
| StepperGroup.FastStepRun.SendWave | steppergroup.py:154-180 | a non-empty buffer is added, padded and sent as one wave, and its id, buffer and end positions join the three queues together; an empty one sends nothing |
| StepperGroup.FastStepRun.FillWaves | steppergroup.py:113-183 | the filling loop never exceeds `max_waves` pending waves, stops short of it only when the stream is used up, and sends exactly the entries of the merged pulses it passes |
| StepperGroup.FastStepRun.FillOneWave | steppergroup.py:114-183 | with `mposns` corrected to record each entry's own pulse (see Findings), one round advances `thisp`, queues the new wave with its end positions, and sends the entries of the pulses it passed |
| StepperGroup.FastStepRun.Retire | steppergroup.py:184-206 | retirement deletes the waves ahead of the one transmitting, recycles their buffers, and publishes the last retired wave's end positions, stopping the completed motors; afterwards the queue is empty or headed by the transmitting wave |
| StepperGroup.FastStepRun.DrainStep | steppergroup.py:213-231 | one drain pass: 9999 or a transmitting wave behind the front retires the front wave and publishes it; the front still transmitting changes nothing; a wave id not queued makes `index` raise ValueError |
| StepperGroup.FastStepRun.Run | steppergroup.py:112-231 | the thread's loops: filling and retirement while the stream lasts, then the drain; the waves sent are exactly the entries of the merged pulses passed, and a run that completes has used up the stream, sent all of it and emptied the queue |
| StepperGroup.PopRetired | steppergroup.py:189-200 | the popping loop moves the retired waves out of the three queues together, their buffers to the saved list, and keeps the last one's end positions |
| StepperGroup.SentEntries | steppergroup.py:160 | the slice `nextbuff[:nextbuffi]` sent is exactly the entries of the pulses the fill passed |
| StepperDriver.TruncDiv | stepperdriver.py:180 | Python's `int()` of a quotient truncates toward zero: the whole quotient for a non-negative dividend, its negation otherwise, never larger in size than the exact quotient; `pulser` truncates the same way at stepperdriver.py:254 |
| StepperDriver.Wrap | stepperdriver.py:99 | `% maxval` lands in [0, maxval) on the same turn residue as the unwrapped position |
| StepperDriver.StepFactor | stepperdriver.py:513-515 | `stepfactor` is non-zero, positive exactly when forward, and its size times the microstep divisor is 16 |
| StepperDriver.DirPinValue | stepperdriver.py:506-510 | the direction pin is 0 or 1, and 1 exactly when forward equals `flipdir` |
| StepperDriver.LevelOps | stepperdriver.py:504-505 | level i is written to step-level pin i, for as many levels as there are pins |
| StepperDriver.LevelWrites | stepperdriver.py:504-505 | the step-level loop completes exactly when there are enough pins, otherwise it stops with IndexError after the writes that fit |
| StepperDriver.ShownPos | stepperdriver.py:101-108 | `getpos` in 'fastwave' is the position plus the last wave offset, wrapped into one turn; otherwise the stored position |
| StepperDriver.Resettled | stepperdriver.py:61-92 | `updatesettings` changes the name in any mode, but maxval, flipdir and pins only in 'idle'; a new maxval re-wraps the position, new pins disable the drive, and nothing else changes |
| StepperDriver.MsModeDir | stepperdriver.py:501-520 | `_set_ms_mode_dir` succeeds exactly for divisors 1, 2, 4, 8, 16 with three level pins, writing the level pins then the direction pin and setting `stepfactor`; an unknown divisor raises TypeError in its own failure message, and too few level pins raise IndexError |
| StepperDriver.SlowStopped | stepperdriver.py:207-211 | `slowmovestop` goes idle and disables the drive (enable pin 1), nothing else |
| StepperDriver.MaxMicrostepsIsMaxKey | stepperdriver.py:23-29 | the divisor 16 used for step counts (`max(microstepset.keys())` at stepperdriver.py line 180) is the largest key of `microstepset` |
| StepperDriver.SlowStepsAsWritten | stepperdriver.py:179-182 | `slowstepsleft` is the truncation of `totalsteps * warp / max(microstepset.keys())` for a positive total, else -1 |
| StepperDriver.SlowTick | stepperdriver.py:194-205 | `slowmovetick` does nothing outside 'slowstep'; otherwise the position moves by `stepfactor` within one turn, a positive count goes down by one, and the motor goes idle exactly when the count reaches 0 |
| StepperDriver.SlowRunStops | stepperdriver.py:194-205 | a slow move with n ≥ 1 steps left issues exactly n steps, then is idle n step factors further on |
| StepperDriver.SlowRunEndless | stepperdriver.py:182-205 | with -1 (or 0) steps left a slow move never stops by itself, and the count never changes |
| StepperDriver.ShortSlowMoveNeverEnds | stepperdriver.py:179-203 | a finite move shorter than one issued step (8 sixteenths at full step) starts with 0 steps left, which the tick never decrements, and never stops |
| StepperDriver.PairsIndex | stepperdriver.py:269-332 | each step is an on-mask yield carrying the delay before it, followed by an off-mask yield carrying `pulseontime` |
| StepperDriver.RampUpEnds | stepperdriver.py:272-283 | ramp-up ends no later than the step that brings the count to half the total, after at least one more step when nothing aborts |
| StepperDriver.CruiseUnaborted | stepperdriver.py:304-309 | with no abort the cruise issues exactly `maxcount` steps when it is positive, none otherwise |
| StepperDriver.RampDownRuns | stepperdriver.py:323-333 | without a hard stop or crash, ramp-down issues steps until the count reaches the total |
| StepperDriver.TrainOf | stepperdriver.py:269-333 | the train starts with a step at delay 0 and ramp-up counts at least the first step |
| StepperDriver.RampUp | stepperdriver.py:272-284 | the ramp-up loop issues one step per pass and ends with its count equal to the steps issued so far |
| StepperDriver.Cruise | stepperdriver.py:304-309 | the full-speed loop issues steps at the cruise delay and ends with its count equal to the steps issued so far |
| StepperDriver.RampDown | stepperdriver.py:323-333 | the ramp-down loop issues steps until the count reaches the total unless a hard stop or crash is seen (the train's bounds are `TrainUnaborted` and `TrainBound`) |
| StepperDriver.TrainUnaborted | stepperdriver.py:269-333 | with no abort the train has exactly max(T, 2) steps and the motor stays in 'fastwave' |
| StepperDriver.RampDownMirrorsRampUp | stepperdriver.py:286-333 | when a cruise phase exists, ramp-down issues as many steps as ramp-up did |
| StepperDriver.SoftStopInRampUp | stepperdriver.py:293-297 | a soft stop first seen after k ramp-up steps makes the whole train exactly 2k steps |
| StepperDriver.TrainBound | stepperdriver.py:269-333 | no abort makes a train longer than max(T+1, 4) steps |
| StepperDriver.RampUpLoop | stepperdriver.py:272-283 | the ramp-up loop yields the on/off pairs of its steps and ends at the count `RampUp` gives |
| StepperDriver.CruiseLoop | stepperdriver.py:304-309 | the cruise loop yields its steps at the cruise delay |
| StepperDriver.RampDownLoop | stepperdriver.py:323-333 | the ramp-down loop yields its steps until the count reaches the total or a hard stop shows |
| StepperDriver.PulseTrain | stepperdriver.py:269-338 | `pulser` after its checks yields the pairs of the train, ends with `gensteps` one below the steps issued plus the start count, and reports whether it set the motor idle |
| StepperDriver.Finished | stepperdriver.py:346-353 | `pulsedone` leaves the motor idle with offset 0 and the position within one turn |
| StepperDriver.FinishedContinuous | stepperdriver.py:340-353 | `pulsedone` moves the position by the train's steps modulo `maxval`, and the position `getpos` shows after it equals the one it showed after `pulsereached` |
| StepperDriver.Stopping | stepperdriver.py:437-486 | the three stops only flag a fast train (`softstop` then returns False, the only False), stop a slow move, and disable an idle drive; the position never changes |
| StepperDriver.Motor.constructor | stepperdriver.py:31-59 | a new motor is idle at position 0 with step factor 0 and its drive disabled |
| StepperDriver.Motor.UpdateSettings | stepperdriver.py:61-92 | `updatesettings`, refusing the idle-only settings outside 'idle' |
| StepperDriver.Motor.IncrementPos | stepperdriver.py:98-99 | `incrementpos` moves and wraps the position into [0, maxval), nothing else changes |
| StepperDriver.Motor.GetPos | stepperdriver.py:101-108 | `getpos`, within one turn in 'fastwave' |
| StepperDriver.Motor.SetPos | stepperdriver.py:110-121 | `setpos` is refused in 'fastwave'; otherwise the position is replaced, not wrapped |
| StepperDriver.Motor.SetMsModeDir | stepperdriver.py:501-520 | `_set_ms_mode_dir` on the motor's state |
| StepperDriver.Motor.SlowMoveStop | stepperdriver.py:207-211 | `slowmovestop` on the motor's state |
| StepperDriver.Motor.SlowMoveTick | stepperdriver.py:194-205 | `slowmovetick` on the motor's state, without scheduling the next tick |
| StepperDriver.Motor.SlowMove | stepperdriver.py:152-192 | `slowmove` starts only from 'idle', sets level and direction (their errors propagate), counts `int(totalsteps*warp/16)` steps or -1, enables the drive, enters 'slowstep' and issues the first step; a zero rate raises ZeroDivisionError; a finite move shorter than one step is refused (corrected, see Findings: as written it starts an endless move, `StepperDriver.ShortSlowMoveNeverEnds`) |
| StepperDriver.Motor.Pulser | stepperdriver.py:216-338 | `pulser` in 'fastwave' yields nothing; from 'slowstep' it stops the slow move first; otherwise it starts the train of `int(totalsteps / (16/warp))` steps described by `TrainOf` |
| StepperDriver.Motor.StartTrain | stepperdriver.py:249-338 | `pulser` once the mode check has passed: the rate assertion, level and direction, 'fastwave', drive enabled, the train |
| StepperDriver.Motor.PulseReached | stepperdriver.py:340-344 | `pulsereached` sets the offset to the steps times `stepfactor`, nothing else |
| StepperDriver.Motor.PulseDone | stepperdriver.py:346-353 | `pulsedone` on the motor's state |
| StepperDriver.Motor.Stop | stepperdriver.py:437-486 | `softstop`, `hardstop` and `crashstop` on the motor's state |
| StepperDriver.MinDue | stepperdriver.py:806-849 | the next due time is the smallest time left over the lanes, and some lane has it |
| StepperDriver.RoundKeeps | stepperdriver.py:828-852 | a round keeps exactly the lanes not exhausted, and the next due time is the smallest time left over them (infinity when none is kept) |
| StepperDriver.RoundUsesUp | stepperdriver.py:828-845 | every lane due in a round uses up one pending step |
| StepperDriver.RoundSrcs | stepperdriver.py:828-852 | each lane of a round either stays or is reported done in that round |
| StepperDriver.RoundFires | stepperdriver.py:829-832 | the bits a round ORs together are exactly those of the lanes whose time left reaches 0 or less |
| StepperDriver.RoundStep | stepperdriver.py:829-852 | one lane of a round: `dt` is taken off its time left; at 0 or below its bits are ORed in and its stream's next step read, or the stream is recorded as ended; otherwise the lane is kept; the smallest time left is tracked |
| StepperDriver.Round | stepperdriver.py:828-852 | one pass of the round loop over `nextpulses` (proved about in `RoundKeeps`, `RoundUsesUp`, `RoundSrcs` and `RoundFires`) |
| StepperDriver.StepEventsKept | stepperdriver.py:828-852 | one lane of a round, due no earlier than the round: the edges (pin, absolute time) it fires now plus those it keeps are exactly those it had |
| StepperDriver.RoundEvents | stepperdriver.py:828-852 | a round run `dt` after `now`, no lane due earlier: the edges it fires at `now + dt` plus those its kept lanes have yet to fire are exactly those the lanes had yet to fire |
| StepperDriver.Progress | stepperdriver.py:821-857 | a round run at the smallest time left fires at least one lane, so the loop ends |
| StepperDriver.StartFrom | stepperdriver.py:806-815 | the first loop keeps one lane per stream that yields a first step |
| StepperDriver.MultiEndsAsWritten | stepperdriver.py:821-857 | the merge as written ends with an item that carries no step |
| StepperDriver.YieldAsWritten | stepperdriver.py:853-857 | what a round yields as written: one item, which carries no step exactly when no lane is left, so the final round's bits are lost |
| StepperDriver.MultiFromAsWritten | stepperdriver.py:821-857 | the merge as written from the current lanes yields at least one item |
| StepperDriver.Yield | stepperdriver.py:853-857 | the corrected yield: one step item while lanes are left; when none is, the round's bits as a step of delay 0 and then the item without a step |
| StepperDriver.MultiOut | stepperdriver.py:806-818 | `multiPulse` raises StopIteration, seen as a RuntimeError, when no stream yields a first step, and otherwise gives the corrected merge of the starting lanes |
| StepperDriver.MultiFrom | stepperdriver.py:821-857 | the corrected merge yields at least two items, the first of them a step |
| StepperDriver.MultiSteps | stepperdriver.py:853-857 | exactly the last item of the merge lacks a step, and that item carries the ids of the ended trains |
| StepperDriver.MultiDoneOnce | stepperdriver.py:842-857 | every stream the merge reads is reported done exactly once |
| StepperDriver.YieldEventsLast | stepperdriver.py:853-857 | the corrected last yield fires its round's bits at its time and nothing after |
| StepperDriver.YieldEventsMore | stepperdriver.py:856-857 | any other yield fires its round's bits at its time, and the rest of the output follows the yielded delay later |
| StepperDriver.OutConserve | stepperdriver.py:821-857 | the corrected merge from lanes timed from `now`, its first yield at the smallest time left, fires every edge the lanes have yet to fire, at that edge's time, and no other |
| StepperDriver.StartEvents | stepperdriver.py:806-815 | the starting lanes, timed from 0, hold between them every edge of every stream at its time |
| StepperDriver.MultiConserves | stepperdriver.py:793-857 | `multiPulse`, corrected to yield its final round (see Findings), with a stream that yields anything: each pin is set and cleared at exactly the times (summed delays) its stream sets and clears it, no other edge occurs, and each such stream is reported done exactly once |
| StepperDriver.FinalClearDropped | stepperdriver.py:853-855 | as written the final round's bits are dropped: one stream setting pin 5 and clearing it 10 µs later yields the set but never the clear, so the clear edge (pin 5 at 10 µs) is in the stream's edges but the as-written output clears nothing, against what `MultiConserves` states |
| StepperDriver.RunRound | stepperdriver.py:822-852 | one pass of the round loop |
| StepperDriver.StartLanes | stepperdriver.py:806-818 | the first loop gives the starting lanes and the smallest first delay, none when no stream yields |
| StepperDriver.MergeRound | stepperdriver.py:821-857 | one round of the corrected merge (see Findings) and its yield; the rest of the merge follows from the kept lanes, with strictly fewer steps pending |
| StepperDriver.MergeLoop | stepperdriver.py:821-857 | the round loop yields the corrected merge of its lanes (see Findings) |
| StepperDriver.MergeTrains | stepperdriver.py:793-857 | `multiPulse` gives the corrected merge (see Findings) and sets `activewavemotors` to the ids of the streams that yield a first step |
| WaveAgents.WithoutMeans | stepperdriver.py:695 | a motor stays in `activewavemotors` exactly when it was there and has not finished |
| WaveAgents.WithoutTwice | stepperdriver.py:692-695 | dropping finished motors one at a time is dropping them all at once |
| WaveAgents.StopOne | stepperdriver.py:583-592 | one stop call changes only its own motor, as `Stopping` says |
| WaveAgents.StopMotors | stepperdriver.py:580-596 | every motor is told to stop, and `alldone` holds exactly when every motor reports done (no short-circuit skips a motor) |
| WaveAgents.DropFinished | stepperdriver.py:692-695 | the active list loses exactly the motors whose train ended in the wave, keeping the others in order |
| WaveAgents.RetireMotor | stepperdriver.py:693-697 | one wave end reaches its own motor only |
| WaveAgents.ApplyWaveEnds | stepperdriver.py:692-697 | each motor of the wave gets `pulsedone` or `pulsereached`, every other motor is unchanged |
| WaveAgents.WaveAgent.constructor | stepperdriver.py:530-553 | the agent starts idle with its motors, no wave ends, no active motors and no pending wave |
| WaveAgents.WaveAgent.StopAll | stepperdriver.py:580-599 | `softstop` and `hardstop` stop every motor and leave the agent idle only when every motor reports done (always for a hard stop, for a soft stop only when no motor is in 'fastwave'); `crashstop` raises NameError before doing anything |
| WaveAgents.WaveAgent.DeleteWave | stepperdriver.py:689-697 | `_deleteWave` removes the finished wave's ends (KeyError when missing), applies them to their motors and drops the finished motors from `activewavemotors` |
| WaveAgents.WaveAgent.MultiPulse | stepperdriver.py:806-820 | on success the corrected `multiPulse` (see Findings) records the motors in the wave as `activewavemotors`, and nothing else changes |
| WaveTest.PushDue | stepwavetest.py:91 | `heappush` adds the due time to the queue, keeping the earliest first |
| WaveTest.InsertSorted | stepwavetest.py:91 | a due time placed after every earlier one and before every later one keeps the queue strictly sorted and adds only itself |
| WaveTest.FirstIsEarliest | stepwavetest.py:59-67 | the head of the timer queue is the earliest due time |
| WaveTest.SimpleAgent.constructor | stepwavetest.py:34-46 | a new agent has no timers |
| WaveTest.SimpleAgent.NextDue | stepwavetest.py:58-65 | the agent waits without a timeout exactly when no timer is set, otherwise until the earliest due time |
| WaveTest.SimpleAgent.SetPollAt | stepwavetest.py:85-91 | `setpollat` fails its assertion on a due time already set; otherwise it records the handler under that time and queues it |
| WaveTest.SimpleAgent.TimerExpired | stepwavetest.py:66-69 | on a timeout the earliest due time is popped and its handler taken out and run once; with no timer nothing fires |
| WaveTest.TestTrainUnaborted | stepwavetest.py:244-304 | `tot_ticks` does not count the first step, so with no abort the train has max(T+1, 2) steps |
| WaveTest.OneStepMore | stepwavetest.py:244-304 | for T ≥ 2 the test bed's `pulser` issues one step more than the motor agent's |
| WaveTest.PinLog.constructor | stepwavetest.py:488-492 | the agent's `setpin` log starts empty |
| WaveTest.WaveMotor.constructor | stepwavetest.py:150-173 | a new motor is idle, writes through its parent's `setpin`, and its only write disables the drive |
| WaveTest.WaveMotor.EnableDrive | stepwavetest.py:184-187 | `_enabledrive` appends one write to the parent's log: 0 to enable, 1 to disable |
| WaveTest.WaveMotor.SetDir | stepwavetest.py:189-193 | `_setdir` appends one write to the parent's log: 0 for forward, 1 for reverse |
| WaveTest.WaveMotor.SetMsMode | stepwavetest.py:195-204 | `_set_ms_mode` writes the level pins only for a key of `microstepset`; any other value raises TypeError in its failure message; too few pins raise IndexError after the writes that fit |
| WaveTest.WaveMotor.Ready | stepwavetest.py:382-386 | one entry's `_enabledrive(True)`, `_setdir` and `_set_ms_mode(warpfact)` append exactly the writes `Prepare` lists (`_set_ms_mode` is stepwavetest.py lines 184-204) and end with its outcome |
| WaveTest.WaveMotor.Pulser | stepwavetest.py:206-306 | `pulser` in 'fastwave' yields nothing; otherwise it yields the train's on/off pairs, never enters 'fastwave' (line 237 is a comparison) and always ends idle |
| WaveTest.TestMultiOut | stepwavetest.py:508-523 | a stream that yields nothing makes the start-up loop index `pg[2]` of a pair, an IndexError; with no streams the StopIteration is a RuntimeError |
| WaveTest.NotesMeaning | stepwavetest.py:531-535 | the notifications name the finished streams in order and carry no step |
| WaveTest.SameStepsAsDriver | stepwavetest.py:524-559 | the test bed's `multiPulse` yields the same steps as the motor agent's as written, both losing the last round's bits |
| WaveTest.TestMultiFrom | stepwavetest.py:524-559 | the test bed's `multiPulse` round loop: each round first notifies the streams ended in the round before, then fires the lanes due, and yields only while a lane is left (proved about in `SameStepsAsDriver` and `NotifiedOnce`) |
| WaveTest.LastEnded | stepwavetest.py:549-557 | the streams that run out in the last round |
| WaveTest.NotifiedOnce | stepwavetest.py:524-559 | no stream is notified twice: the notified streams and those that end in the last round (never notified) are exactly the streams read |
| WaveTest.NotifiedStep | stepwavetest.py:524-559 | the exactly-once count for a round that yields, from the rounds after it |
| WaveTest.NotifiedLast | stepwavetest.py:556-557 | the last round notifies the streams ended before it and not those it ends |
| WaveTest.OneStepYieldsNothing | stepwavetest.py:524-559 | a single one-step stream yields nothing and is never notified |
| WaveTest.ScaleParams | stepwavetest.py:373-381 | an entry naming no known motor fails the assertion, and a scaled entry keeps its motor |
| WaveTest.ScaleParamsMeans | stepwavetest.py:374-380 | a scaled entry has warp `int(warp)` (default 2) of at least 1 and `maxsr > startsr`; a warp other than 1 multiplies `totalsteps`, `startsr` and `maxsr` (defaults 3000, 50, 100) by it; warp 1 keeps the given values; `forward` defaults to true |
| WaveTest.ScalingKeepsOrder | stepwavetest.py:376-380 | scaling by a warp above 1 never changes whether `maxsr > startsr` holds |
| WaveTest.ScaleAll | stepwavetest.py:371-381 | the checks of the loop alone give the first failing entry's error or every entry scaled |
| WaveTest.ScaleAllSnoc | stepwavetest.py:371-381 | the scaled entries grow by one `ScaleParams` result per entry, the first error sticking |
| WaveTest.MakeAllSnoc | stepwavetest.py:371-388 | the loop over one more entry is one more step after the loop over those before it |
| WaveTest.MakeAllScales | stepwavetest.py:371-389 | the whole loop succeeds exactly when every entry scales, every warp is a `microstepset` key with three level pins and every entry's keys bind to `pulser`'s parameters, and then its entries are those `ScaleAll` gives |
| WaveTest.BindsScaled | stepwavetest.py:377-389 | with a warp other than 1 the `pulser` call binds exactly when the entry's other keys are `overreach`, `ramp` and `pulseontime`; at warp 1 the entry must also give `totalsteps` (`pulser` at stepwavetest.py line 206 has no defaults) |
| WaveTest.UnboundPulserRaises | stepwavetest.py:374-389 | a warp-1 entry without `totalsteps` passes the checks, gets its enable, direction and level writes, and then the `pulser` call raises TypeError |
| WaveTest.MakeAllStops | stepwavetest.py:385-388 | after the first raise, later entries change neither the outcome nor the pin writes |
| WaveTest.MakeAllWrites | stepwavetest.py:382-386 | a loop that succeeds writes, in order, each entry's enable, direction and level pins and nothing else |
| WaveTest.WarpThreeRaises | stepwavetest.py:374-386 | warp 3 passes the checks, then the drive is enabled and the direction set before `_set_ms_mode(3)` (stepwavetest.py lines 195-204) raises TypeError |
| WaveTest.OneWave.constructor | stepwavetest.py:316-333 | the agent starts with its motors, all writing through its `setpin`, no active action and no abort |
| WaveTest.OneWave.SoftStop | stepwavetest.py:344-348 | while an action runs every motor's `pulseAbort` becomes 'softstop', otherwise it is unchanged; no mode changes and no pin is written |
| WaveTest.OneWave.CrashStop | stepwavetest.py:350-354 | `crashstop` sets `pulseAbort` on the agent, never on a motor, so no running train sees it |
| WaveTest.OneWave.WavePulseMaker | stepwavetest.py:369-391 | the action is recorded; the outcome and the pin writes are those of `MakeAll`: each entry checked, scaled, its motor readied and its `pulser` arguments bound in turn, the first error (a failed binding raises TypeError) ending the loop |
| WaveTest.OneWave.Entry | stepwavetest.py:372-389 | one entry of the loop, up to and including the `pulser(**paramset)` call's argument binding, adds exactly one `MakeStep` to the outcome and the writes |
| EquMount.Mod360 | equMountDriver.py:21 | Python's float `% 360` is in [0, 360), the identity on [0, 360) and one turn off on the next turn; `_convertlocal` takes the same remainder at equMountDriver.py:142 |
| EquMount.Mod180 | equMountDriver.py:137 | Python's float `% 180` is in [0, 180), the identity on [0, 180) and half a turn off on the next half turn |
| EquMount.Quick360 | equMountDriver.py:163-168 | `quick360` gives the same angle, possibly a turn the other way; a move within a turn and a half either way becomes at most half a turn, and a move already within half a turn is unchanged |
| EquMount.FoldPair | equMountDriver.py:16-24 | the reported declination is within ±90 for a motor angle in one turn, and the reported hour angle is the motor's own or half a turn from it |
| EquMount.RaCandidates | equMountDriver.py:142 | the hour-angle candidates are two angles within one turn |
| EquMount.Candidates | equMountDriver.py:142-144 | the four candidate pairs, hour-angle angle in the outer loop, in the order the loops try them |
| EquMount.Kept | equMountDriver.py:145-146 | a candidate is kept exactly when `aboveeqh` of it agrees with the target side (used by `Agreeing`) |
| EquMount.Agreeing | equMountDriver.py:143-146 | a candidate pair is kept exactly when `aboveeqh` of it agrees with the side of the equator the hour angle asks for |
| EquMount.AgreeingFour | equMountDriver.py:143-147 | the two nested loops keep the agreeing candidates in the order they are tried |
| EquMount.ConvertLocal | equMountDriver.py:126-148 | `_convertlocal` returns the agreeing candidates in loop order |
| EquMount.OppositeHour | equMountDriver.py:142 | the opposite hour angle is half a turn away, and taking it twice returns the hour angle |
| EquMount.ConvertLocalRoundTrip | equMountDriver.py:126-161 | away from the poles and from hour angles 90 and 270, `_convertlocal` finds exactly two motor positions, the hour angle with the declination on the near side and the opposite hour angle past the pole, and folding either back as `getStateTicker` does (equMountDriver.py:12-24) gives the place asked for |
| EquMount.PoleHasOneSolution | equMountDriver.py:137-146 | at declination 90 the `%` wraps to -90, so only one pair survives and it points at the opposite pole |
| EquMount.FailsEmpty | equMountDriver.py:117-121 | there is no failure message exactly when every motor is idle or slow stepping |
| EquMount.ResolveLocationParams | equMountDriver.py:112-124 | `_resolveLocationParams` collects one message per motor that cannot move, in motor order, and returns no target exactly when there is one |
| EquMount.MoveTime | equMountDriver.py:59-60 | a move's time is the longest of its motors' times and is one of them |
| EquMount.ChooseMove | equMountDriver.py:59-61 | the chosen solution is one of the two and never slower than the other |
| EquMount.MoveParamsMeaning | equMountDriver.py:71-79 | a motor is moved exactly when its step count is over 16 either way, forward exactly when its move is non-negative, with its own step count |
| EquMount.MoveParamsOf | equMountDriver.py:71-79 | the move parameters built by `goto`'s loop, in motor order (their meaning is `MoveParamsMeaning`) |
| EquMount.GotoMoves | equMountDriver.py:67-79 | the loop of `goto` gives the move parameters and an end time for exactly the motors that move, each end time being `now` plus the move time of one of that motor's moves |
| EquMount.Goto | equMountDriver.py:50-88 | `goto`: a motor pair moves by its best move; a sky place fails without two solutions, else takes the faster one; the moves are sent only when some motor moves and not only a calculation was asked for; the new `gotoendtimes` holds `now` plus a move time for exactly the motors that move, and a failing sky place leaves the previous end times as they were |
| OldSteppers.Run | steppers.py:523-527 | a tick tuple's `repeat` further steps each move the position by `poschange` from the tuple's position, with the same direction change and interval; the A4988 loop at steppers.py:627-631 takes repeats the same way |
| OldSteppers.Expand | steppers.py:523-531 | the tick loop's head turns the tuples into a stream of steps, each with a non-negative or `None` interval; the A4988 loop's head at steppers.py:627-635 is the same |
| OldSteppers.ExpandLength | steppers.py:523-531 | each tuple stands for one step plus its repeats, in both generators' loop heads (also steppers.py:627-635) |
| OldSteppers.Micros | steppers.py:532-535 | `divmod(ticktime*1000000 + overflow, 1)`: the whole microseconds and the carried fraction add up to the exact time plus the old fraction, the fraction stays in [0, 1), and a `None` interval has no delay; the A4988 loop at steppers.py:636-639 computes the same |
| OldSteppers.AStep | steppers.py:636-659 | one step of `A4988stepper.pulsegen` keeps the carried fraction in [0, 1) |
| OldSteppers.AFrom | steppers.py:627-659 | the A4988 generator over a stream of steps keeps the carried fraction in [0, 1) |
| OldSteppers.AFromLast | steppers.py:627-659 | the generator over one more step is the generator's last step applied to where it was |
| OldSteppers.AStays | steppers.py:653-658 | once the generator has stopped on a `None` interval or failed, later steps change nothing |
| OldSteppers.APairs | steppers.py:640-654 | every step yields an on and an off pulse at its position, the off `pulselen` after the on; while running there are exactly two pulses per step |
| OldSteppers.ANoDrift | steppers.py:636-659 | while running, the clock plus the carried fraction is exactly the sum of the intervals in microseconds, so each step starts at the floor of its exact time and there is no drift |
| OldSteppers.EnableOnce | steppers.py:640-646 | the enable bits go out with the first direction change taken while running, and never again |
| OldSteppers.NextTick | steppers.py:523-531 | the tick loop's head takes another repeat of the current tuple or the next tuple, and the steps still owed are the step it takes followed by those after it; the A4988 loop's head at steppers.py:627-635 is the same |
| OldSteppers.AEmit | steppers.py:636-659 | the body of the A4988 tick loop is one step of the generator's fold |
| OldSteppers.StepMasks | steppers.py:616-617 | `stepa`/`stepb`: the step pin's bit goes on when its first level is 0 and off otherwise |
| OldSteppers.APulseGen | steppers.py:621-660 | the A4988 tick loop yields exactly the pulses, and fails exactly as, the generator over all the steps of the tuples |
| OldSteppers.A4988PulseGen | steppers.py:594-660 | `A4988stepper.pulsegen`: a command other than goto or run is a KeyError before any pulse; otherwise the tick loop's pulses |
| OldSteppers.DStep | steppers.py:532-551 | one step of `directstepper.pulsegen` keeps the carried fraction in [0, 1) |
| OldSteppers.DFrom | steppers.py:519-551 | the unipolar generator over a stream of steps keeps the carried fraction in [0, 1) |
| OldSteppers.DFromLast | steppers.py:519-551 | the generator over one more step is its last step applied to where it was |
| OldSteppers.DStays | steppers.py:540-543 | once the generator has stopped or failed, later steps change nothing |
| OldSteppers.DIndexInRange | steppers.py:536-551 | on a table of at least four rows, `stepindex` never runs out of the table, the only possible failure is `tabinc` being unbound when the first step has no direction change, and there is one pulse per step taken, at that step's position |
| OldSteppers.DNeverFails | steppers.py:536-539 | with a direction on its first step, the unipolar generator never raises |
| OldSteppers.DEmit | steppers.py:532-551 | the body of the unipolar tick loop is one step of the generator's fold |
| OldSteppers.DPulseGen | steppers.py:487-552 | `directstepper.pulsegen`: a command other than goto or run is a KeyError; otherwise the tick loop's pulses and the `stepindex` it leaves are the generator's over all the steps of the tuples |
| OldSteppers.MaxUsteps | steppers.py:374-418 | `maxusteps` is 4, a factor of one of the tables and no smaller than any of them |
| OldSteppers.FactorsReciprocal | steppers.py:393-418 | the tables are those of `stepperunid.py`, and the two modules' factors multiply to the largest factor, 4 |
| OldSteppers.Dispatch | steppers.py:189-209 | one pass of `_thrunner`: nothing pending means stop; goto and run run the kind of their step mode, shown as 'going' exactly for goto; only goto and run can raise, on a missing or undeclared step mode |
| OldSteppers.Trace | steppers.py:182-262 | the passes of the motor thread begin with the pass on the pending command |
| OldSteppers.TraceUnfold | steppers.py:189-255 | after a stop the thread takes the next queued command, after a run it has nothing pending, and a close, an exception or an empty queue after a stop is its last pass |
| OldSteppers.TraceFrom | steppers.py:189-209 | a queued close ends the thread, a queued stop leaves nothing pending, and a queued goto or run runs with 'going' or 'moving' |
| OldSteppers.TraceRunsQueue | steppers.py:148-262 | from a stopped motor, the thread runs exactly the queued goto and run commands before the first close, in the order they were queued |
| OldSteppers.TraceNeverRaises | steppers.py:193-200 | when every queued goto and run names a declared step mode, no pass of the thread raises |
| OldSteppers.TraceEndsAtClose | steppers.py:189-255 | the thread leaves its loop exactly when a close was queued, and otherwise is left waiting, stopped |
| OldSteppers.OldStepper.constructor | steppers.py:130-140 | the motor starts 'stopped' with nothing pending and a stop queued |
| OldSteppers.OldStepper.DoThis | steppers.py:148-163 | `dothis`: an unknown command fails its assertion; the goto/run validation never runs; every command but 'none' is queued; goto and run then return their step mode's kind, or raise TypeError for no step mode and AttributeError for an undeclared one, after queueing; the copy at simplestepper.py:689-707 behaves the same |
| OldSteppers.OldStepper.TakeQueued | steppers.py:178-241 | `_thwaitq` calls the queued `_command`, which makes the first queued command pending |
| OldSteppers.OldStepper.RunnerStep | steppers.py:189-209 | one pass of `_thrunner`'s loop is the pass `Dispatch` describes, with close setting opmode 'closed' and a run leaving the motor 'stopped' with nothing pending; the copy at simplestepper.py:720-740 behaves the same |
| OldSteppers.OldStepper.Pass | steppers.py:189-255 | one pass, and after a stop the next queued command, follows the thread's trace and shortens the queue or the pending work |
| OldSteppers.OldStepper.Runner | steppers.py:182-262 | `_thrunner` passes through exactly the thread's trace and ends 'closed' exactly when its last pass was a close; the copy at simplestepper.py:713-793 behaves the same |
| SimpleStepper.DirCheck | simplestepper.py:820-831 | the direction check passes only for an assigned pin, and then gives for 'F' and 'R' exactly the masks `getBits` gives |
| SimpleStepper.DirCheckPasses | simplestepper.py:820-831 | the assertions pass exactly for an assigned pin whose first value is 'F', or whose values are 'R' then 'F'; the two directions then drive the pin to opposite levels; any other first value fails |
| SimpleStepper.SimplePulseGen | simplestepper.py:806-881 | `stepper.pulsegen`: KeyError for a command other than goto or run, the direction check's error, ValueError for an unassigned step pin, and otherwise exactly the pulses of the A4988 tick loop with those masks |
| SimpleStepper.FillOne | simplestepper.py:1105-1122 | one buffer: each entry carries `thisp`'s bits and the time to the next merged pulse, the last pulse of the stream gets delay 1 and clears `moredata`, a buffer that is not the last is full, and `mposns` records the pulses taken as `nextp` |
| SimpleStepper.EntriesDuration | simplestepper.py:1113-1118 | the delays of a buffer add up to the time from its first pulse to the first pulse after it, or to its last pulse plus 1 at the end of the stream |
| SimpleStepper.RecordSplit | simplestepper.py:1106-1122 | recording the end positions of two consecutive ranges of pulses is recording those of their union |
| SimpleStepper.PublishTwice | simplestepper.py:1144-1146 | publishing two consecutive buffers' end positions, in order, publishes their union's |
| SimpleStepper.PollRetires | simplestepper.py:1136-1150 | the poll raises ValueError exactly when the current wave is neither 9999 nor queued, and retires nothing exactly when the current wave is the oldest queued one |
| SimpleStepper.WindowStart | simplestepper.py:1093-1100 | at the start `thisp` is the first merged pulse, nothing is queued and nothing is sent |
| SimpleStepper.SendOne | simplestepper.py:1105-1129 | one round of the inner loop queues one more wave, moves `thisp` on, and keeps the buffering invariant |
| SimpleStepper.SendAll | simplestepper.py:1103-1150 | the main loop keeps every queued wave's entries and end positions consistent with the merged pulses, uses no more answers of `wave_tx_at` than given, and, unless it stops early, ends without error with the data run out |
| SimpleStepper.FillWindow | simplestepper.py:1104-1132 | the inner loop stops with three waves queued or at the end of the data, has queued at least one wave when data remained, and publishes nothing |
| SimpleStepper.PollWindow | simplestepper.py:1134-1150 | a poll that finds the hardware past the oldest wave drops it and its `buffends` and publishes the positions those recorded; otherwise nothing changes |
| SimpleStepper.FastStep | simplestepper.py:1089-1167 | `_threadfaststep`: every wave holds between 1 and `wavepulses` entries, the waves sent are the entries of a prefix of the merged stream, and a finished run sent the entry of every merged pulse once, in order, and published every position but the first; an empty stream fails on `thisp[0]` |

## Left out

- Float ramp shapes. The `tickgen` generators (intervalgen.py, simplestepper.py) and the float rate inside `pulser` are floating-point arithmetic on live settings. A tick stream is an input of the generators, and the point where ramp-up ends is an oracle parameter (`RampPlan`) of the pulsers.
- Float-only helpers: `rampPulseCalc`, `constPulseCalc`, `timetomove`, `degtosteps` and `stepstodeg` in stepperdriver.py, and `_bestmovetime` in equMountDriver.py. The motors' move times are a parameter (`best`) of the mount model, and `setpos` takes steps rather than degrees.
- pigpio and the hardware. Wave ids are a counter or a parameter. The answers of `wave_tx_at` are a parameter (`currents`), and other calls are appended to a log of operations. The wave scheduling of the `onewave` agents is left out: `wavemaker`, `nextwave`, `prepareWave`, `checkPending`, `checkFinal` and `allstop` in stepperdriver.py, and `wavemaker`, `prepareWave` and `checkPending` in stepwavetest.py.
- Threads, queues, sleeps and wall-clock time. This covers the polling sleeps of the fast-stepping threads, the blocking waits of `_thwaitq` and `agentRun`, the hold timeout of `_thrun_stopped` and the overrun counters. A run of the older motor thread consumes no queued command, although the real `_slowrun` and `_thrun_faststep` can.
- Aliasing of the `pulseon`/`pulseoff` lists that the generators reuse. Pulses are immutable values here, so a position recorded in `mposns` cannot later change under the recorder as it can in Python.
- Watchables, logging, the web interface (stepperweb.py, simplestepperweb.py, pagelink.py, webstrings.py, app.py, config_full.py), pigpiolog.py and mountSetup.py are not part of this model. The values read from watchables are plain fields or parameters.
- `usteppins.pinbits` in stepperA4988.py is not defined in gpiopins.py. The microstep-level bits it would give are a field of the wiring.
- The drive-enable masks of the A4988 generators are a parameter. The enable pin is taken to be assigned.
- `directstepper.crashstop` and `stepperunid.py`'s `crashstop` are left out. They only set PWM duty cycles to 0 and the mode to 'closed'.
- SimpleStepper.FastStep: requires `wavepulses` > 0, because with 0 the Python fill loop never ends. The run ends when the `currents` answers run out. Starting fast stepping with no motor generator, which skips the whole thread body, is not modelled.
- SimpleStepper.FastStep: the position of the first merged pulse is never published. This is the code's own behaviour, since `mposns` records only pulses taken as `nextp`.
- OldSteppers.Trace: a goto or run is taken to consume no queued command while it runs, and a stop with an empty queue ends the trace where the real thread blocks.
- EquMount.ConvertLocalRoundTrip: the round trip is proved for declinations strictly between -90 and 90 and hour angles other than 90 and 270. Nothing is stated about the round trip at those two hour angles. The pole case is stated separately by `EquMount.PoleHasOneSolution`.
- StepperDriver.Motor.constructor: `maxval` is required to be positive, because the position is kept modulo `maxval`. With 0, Python's `%` raises ZeroDivisionError, and that is not modelled.
- StepperGroup.MultiMotor.constructor: the wave settings are required to lie within the limits the controller declares for them (at least 100 pulses, 1000 to 1000000 microseconds, 2 to 9 waves).
- PulseMerge.PulseMergeStreams: runs the corrected two-source merge, which refills B from `genB`; the code as written is `PulseMerge.TwoFromAsWritten` (see Findings).
- StepperGroup.FillBuffer: record in `mposns` the pulse each entry was built from; the code as written is `StepperGroup.AsWrittenEnds` (see Findings).
- StepperGroup.NextBuffer: record in `mposns` the pulse each entry was built from; the code as written is `StepperGroup.AsWrittenEnds` (see Findings).
- StepperGroup.FastStepRun.Run: states what is sent, not the positions published, because a retirement pass publishes only the last retired wave's end positions (steppergroup.py:188-204), so a motor that appears only in an earlier wave of the same pass keeps its old position; the `wave_tx_at` answers and wave ids are parameters, and the run stops when the answers run out.
- StepperA4988.A4988Stepper.PulseGen: requires an assigned drive-enable pin; with pinno -1 `getBits` gives (None, None) and the first direction tick would raise TypeError at stepperA4988.py:138.
- StepperGroup.FastStepRun.FillOneWave: record in `mposns` the pulse each entry was built from; the code as written is `StepperGroup.AsWrittenEnds` (see Findings).
- StepperDriver.Motor.SlowMove: refuses a finite move shorter than one issued step, where stepperdriver.py:179-203 starts a move whose count is 0 and never stops; the code as written is `StepperDriver.SlowStepsAsWritten` with `StepperDriver.ShortSlowMoveNeverEnds` (see Findings).
- StepperDriver.MergeRound, StepperDriver.MergeLoop and StepperDriver.MergeTrains: run the corrected `multiPulse`, which yields the final round's bits before `(None, ids)`; the code as written is `StepperDriver.MultiFromAsWritten` (see Findings).
- WaveAgents.WaveAgent.MultiPulse: starts the corrected `multiPulse`, as `StepperDriver.MergeTrains` does.
- StepperA4988.A4988Stepper.constructor: takes pins already built and requires them to be distinct objects, which the Python constructor gets by building each pin itself.
- WaveTest.PinLog: holds one write per `setpin` call; `setpin` sends each one to `pio.write` twice (stepwavetest.py:490-492), which the log does not repeat. The `set_mode` calls of `setpinmodes` and the notifications are not logged. `WavePulseMaker` stops at the end of the loop: the `pulser` generators it creates run none of their body there (only the call's argument binding, which `Binds` models), and `multiPulse` and `wavemaker` after the loop are modelled on their own or left out with the wave scheduling.
- StepperBase.BaseStepper.BeginSoftRun: treats a drive setting as notifying its watchers only when the value changes, as the pin's `setValue` reports it; the watchables library that delivers notifications is not part of this model.
- The format-string TypeError in the failure branch of `_set_ms_mode_dir` (stepperdriver.py:519) and `_set_ms_mode` (stepwavetest.py:203) is modelled as a raised TypeError, because the method can never return False.

## Findings

| source | as written | input that shows it | evidently intended | confidence | as-written member | corrected member |
|---|---|---|---|---|---|---|
| steppergroup.py:287 (also steppers.py:881, simplestepper.py:1210) | after yielding B's pulse, the two-source merge refills B from `genA` | A = [t0], B = [t5, t6]: A's pulse, then B's first, then `genA` is exhausted, so B's second pulse is lost: 2 pulses out of 3 | refill B from `genB`, so every pulse of both streams is yielded once, in time order | high (not executed) | PulseMerge.TwoAsWrittenDropsTail | PulseMerge.MergedKeepsStreams |
| steppergroup.py:153 | `mposns` records `thisp` after it has moved on to the next pulse, so the pulse that opens a buffer after one that closed on time is recorded by no buffer | pulse "a" at 0 µs, then pulse "b" with action -1 at 600000 µs, with a 500000 µs wave time limit: "b"'s completion is never published and motor "b" is never stopped | record the pulse the entry was built from, so every pulse's position and completion is published by the wave that carries it | high (not executed) | StepperGroup.CompletionLostAtBoundary | StepperGroup.FillBuffer |
| stepperdriver.py:853-855 | when the last stream ends, `multiPulse` yields `(None, done ids)` and drops the bits fired in that final round | one stream that sets pin 5 and clears it 10 µs later: the clearing bits are never yielded, so the pin stays set | yield the final round's bits before ending, so every bit of every stream is yielded once | medium (not executed) | StepperDriver.FinalClearDropped | StepperDriver.MultiConserves |
| stepperdriver.py:179-203 | `slowstepsleft` is `int(totalsteps*warp/max(microstepset.keys()))`, the largest key being 16, which is 0 for a positive move shorter than one issued step; `slowmovetick` decrements the count only while it is positive and stops only when a decrement reaches 0 | `totalsteps` 8 with warp 1: `slowstepsleft` is 0, every tick skips the countdown, the count stays 0 and the motor steps for ever | stop a move with no whole step left at once, so a slow move issues exactly its steps and returns to idle | high (not executed) | StepperDriver.ShortSlowMoveNeverEnds | StepperDriver.Motor.SlowMove |
