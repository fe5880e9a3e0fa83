# Cryostat control: instrument drivers, sequence builder and resistance measurements

This project models four parts of the Cryostat-GUI laboratory software in Dafny:

- the driver of the Oxford Instruments IPS 120-10 magnet power supply:
  - argument-checked `$`-commands;
  - `R`-queries whose replies are decoded;
  - the wait for the field to reach its set point;
- the driver of the Keithley 2182 nano-voltmeter:
  - writes and queries;
  - reply post-processing;
  - integration-rate commands;
  - the display switch;
- the sequence builder:
  - display texts of wait and set steps;
  - the wait dialog's configuration and its accept rule;
  - the regular-expression alternation;
  - decoding matched sequence-file fragments into step dictionaries;
- the resistance measurements of the cryostat sequence:
  - the multichannel measurement, with its length check, current schedule, per-channel fit records with the `nonohmic` flag, temperature pairs and key renaming;
  - the single-channel measurement with current reversal;
  - the in-place configuration updates of the one-shot multichannel thread.

Files:

- `python.dfy`: the slice of Python's value model the code relies on.
  - Values: dynamic values, truthiness, `str()` of integers.
  - Operations: `int()` truncation.
  - Exceptions: the ones raised, by kind.
- `strings.dfy`: `str.strip`, `str.split` and `str.join` with one-character separators, with their round-trip lemmas.
- `wire.dfy`: an instrument connection and a clock.
  - The connection is a transaction log plus a queue of canned replies.
  - The clock never runs backwards, and its sleeps last at least as long as asked.
- `ips120.dfy`, `keithley2182.dfy`, `sequence_builder.dfy`: the two drivers and the sequence builder.
- `measurement.dfy`: the multichannel measurement.
  - It is specified by the function `Multichannel`.
  - It is implemented as the loop method `MeasureResistanceMultichannel` on a `Lab`. The `Lab` logs every call on the instrument threads.
- `single.dfy`: the single-channel measurement, specified by `Singlechannel`.
- `oneshot.dfy`: the one-shot thread's configuration dictionary.

Instruments, numpy and the clock are parameters:

- the readings an instrument gives;
- numpy's `polyfit`, `mean` and `std`;
- floating-point formatting and parsing (a `FloatCodec`);
- the passing of time.

## Model

| member | source | states |
|---|---|---|
| Ips120Driver.StateCommand | Oxford/Drivers/ips120.py:63-68 | a command exists exactly when the state is an int (bool included) in 0..count-1. It is `$`, the letter and `str(state)`; otherwise the argument error |
| Ips120Driver.StateCommandRoundTrip | Oxford/Drivers/ips120.py:63-68 | the command of a valid integer state decodes back to its letter and state |
| Ips120Driver.BoolStateIsNotANumber | Oxford/Drivers/ips120.py:63-64 | a bool passes the integer check, but its command spells `True`/`False`, which is not a state number |
| Ips120Driver.Ips120.SetControl | Oxford/Drivers/ips120.py:52-68 | a state 0..3 writes exactly `$C` + state; anything else raises and writes nothing; the reply queue is untouched |
| Ips120Driver.Ips120.SetActivity | Oxford/Drivers/ips120.py:114-131 | a state 0..3 writes exactly `$A` + state; anything else raises and writes nothing |
| Ips120Driver.Ips120.SetSwitchHeater | Oxford/Drivers/ips120.py:133-147 | a state 0..2 writes exactly `$H` + state; 3 and every other argument raise and write nothing |
| Ips120Driver.FieldCommand | Oxford/Drivers/ips120.py:157-161 | a non-number raises TypeError in `abs`. \|field\| >= 8, ±8 included, is refused. Otherwise the command is `$J` + field |
| Ips120Driver.Ips120.SetFieldSetpoint | Oxford/Drivers/ips120.py:151-161 | exactly one `$J` write when the field is in range. Otherwise the error `FieldCommand` names: TypeError for a non-number, the argument error for \|field\| >= 8. No write then |
| Ips120Driver.SetpointRoundTrip | Oxford/Drivers/ips120.py:157-161 | an in-range set point's command, answered as `R` and the same text, reads back the same value |
| Ips120Driver.Ips120.SetFieldSweepRate | Oxford/Drivers/ips120.py:163-169 | always exactly one write, `$T` + rate, with no check |
| Ips120Driver.DisplayCommand | Oxford/Drivers/ips120.py:177-184 | `'amps'` gives `$M8`, `'tesla'` gives `$M9`, anything else the argument error |
| Ips120Driver.DisplayCommandRoundTrip | Oxford/Drivers/ips120.py:180-184 | `$M8` and `$M9` decode to display modes 8 and 9 |
| Ips120Driver.Ips120.SetDisplay | Oxford/Drivers/ips120.py:171-184 | one write of `$M8`/`$M9` for the two names; an error and no write otherwise |
| Ips120Driver.NextReading | Oxford/Drivers/ips120.py:76-82 | no queued reply is a timeout; otherwise the decoding of the first reply |
| Ips120Driver.Reading | Oxford/Drivers/ips120.py:80-82 | an empty reply is an IndexError and one not led by `R` a refusal. Otherwise the reading is the number in the reply with `R` and `+` stripped from both ends, a ValueError when there is none |
| Ips120Driver.ReadingRoundTrip | Oxford/Drivers/ips120.py:80-82 | a reply `R` or `R+` followed by the formatted value reads back as that value |
| Ips120Driver.Ips120.ReadParameter | Oxford/Drivers/ips120.py:76-82 | one query of the command; the result decodes the next reply; the queue advances by one |
| Ips120Driver.Ips120.ReadField | Oxford/Drivers/ips120.py:70-82 | one `R7` query, decoded as `ReadParameter` |
| Ips120Driver.Ips120.ReadFieldSetpoint | Oxford/Drivers/ips120.py:84-97 | one `R8` query, decoded as `ReadParameter` |
| Ips120Driver.Ips120.ReadFieldSweepRate | Oxford/Drivers/ips120.py:99-112 | one `R9` query, decoded as `ReadParameter` |
| Ips120Driver.Ips120.ReadParameterAsWritten | Oxford/Drivers/ips120.py:76-81 | as written, every read queries once and the queue advances as for `ReadParameter`. A missing reply is the query's timeout. Every reply that arrives ends in NameError |
| Ips120Driver.Poll | Oxford/Drivers/ips120.py:201-205 | a poll succeeds exactly when field and set point both read. Its value is \|field - set point\| < margin. A failed field reading's error is the poll's |
| Ips120Driver.Ips120.PollOnce | Oxford/Drivers/ips120.py:201-205 | one poll queries `R7`, then `R8` only if the field was read; its result is `Poll` of the queued readings |
| Ips120Driver.RunUndecided | Oxford/Drivers/ips120.py:200-209 | a wait is undecided after n polls exactly when every poll found the field off target; it then issued 2n queries |
| Ips120Driver.RunSettles | Oxford/Drivers/ips120.py:204-205 | once a poll decides the wait, further polls change neither result nor log |
| Ips120Driver.RunDecidedByLast | Oxford/Drivers/ips120.py:200-205 | a wait decided by its last poll returns that poll's result |
| Ips120Driver.Ips120.WaitForField | Oxford/Drivers/ips120.py:186-209 | result and log are those of `polls` polls, all but the last undecided. Timeout <= 0 gives no poll and no query. Every poll starts before the deadline, 5 s apart. `false` only once the clock passed start + timeout |
| Ips120Driver.Ips120.WaitForFieldAsWritten | Oxford/Drivers/ips120.py:197-198 | as written, the wait fails with AttributeError before any query |
| Ips120Driver.SamplePollConverges | Oxford/Drivers/ips120.py:200-205 | two `R+1.5` replies decide the wait on its first poll, after `R7` then `R8` |
| Strings.StripSpec | Keithley/Keithley2182.py:55 | `strip` keeps a contiguous slice whose ends are not stripped characters. It is empty exactly when every character is |
| Strings.StripIdempotent | Keithley/Keithley2182.py:55 | stripping twice is stripping once |
| Strings.JoinSplit | Keithley/Keithley2182.py:55 | joining the pieces of `split(',')` gives back the string |
| Strings.SplitJoin | Keithley/Keithley2182.py:55 | splitting a join of comma-free pieces gives back the pieces |
| Keithley2182Driver.ReplyFieldsSpec | Keithley/Keithley2182.py:55 | the processed reply has at least one field and no field holds a comma; joined with commas the fields give the stripped reply |
| Keithley2182Driver.ReplyFieldsOfJoin | Keithley/Keithley2182.py:55 | comma-joined fields padded with whitespace decode back to those fields |
| Keithley2182Driver.ReplyFields | Keithley/Keithley2182.py:55 | the reply stripped of whitespace and split at commas: at least one field, none holding a comma |
| Keithley2182Driver.Voltage | Keithley/Keithley2182.py:83-84 | the reading is the number in the first field of the processed reply; ValueError exactly when that field is not a number |
| Keithley2182Driver.Keithley2182.Query | Keithley/Keithley2182.py:44-55 | one query transaction; the result is the fields of the reply, or a timeout without one |
| Keithley2182Driver.Keithley2182.Go | Keithley/Keithley2182.py:57-65 | exactly one write of exactly the command, and no read |
| Keithley2182Driver.Keithley2182.MeasureVoltage | Keithley/Keithley2182.py:75-84 | writes `:TRIGger:COUNt 1`, then queries `:READ?`; the result is the number in the first field |
| Keithley2182Driver.VoltageRoundTrip | Keithley/Keithley2182.py:83-84 | a reply whose first field is a formatted voltage reads back as that voltage, whatever follows |
| Keithley2182Driver.Keithley2182.DisplayOnAsWritten | Keithley/Keithley2182.py:86-87 | as written, switching the display on fails with AttributeError and sends nothing |
| Keithley2182Driver.Keithley2182.DisplayOn | Keithley/Keithley2182.py:86-87 | switching the display on writes exactly `:DISPlay:ENABle ON` |
| Keithley2182Driver.Keithley2182.DisplayOff | Keithley/Keithley2182.py:89-90 | writes exactly `:DISPlay:ENABle OFF` |
| Keithley2182Driver.RateCommands | Keithley/Keithley2182.py:107-113 | the three independent name tests send at most one command, and only writes |
| Keithley2182Driver.RateCommandsSpec | Keithley/Keithley2182.py:107-113 | a named rate sends exactly one NPLC write, and its value names the rate back; any other name sends nothing |
| Keithley2182Driver.GuardDiscrepancy | Keithley/Keithley2182.py:115 | no number satisfies `0.01 > num > 50`; the intended test refuses exactly the numbers outside [0.01, 50] |
| Keithley2182Driver.Keithley2182.SetRateAsWritten | Keithley/Keithley2182.py:92-120 | without `num`, the rate writes. With a number, one NPLC write, never refused. With a non-number, TypeError and no write |
| Keithley2182Driver.Keithley2182.SetRate | Keithley/Keithley2182.py:92-120 | as `SetRateAsWritten`, except that a number outside [0.01, 50] is refused with no write |
| SequenceBuilder.ParseWaiting | Sequence_builder.py:111-123 | a missing `Temp`, `Field` or `Delay` is a KeyError. Otherwise the text names Temperature, Field or both (`, ` between only then), then the delay |
| SequenceBuilder.WaitingText | Sequence_builder.py:112-123 | the wait text opens with `Wait for ` and ends with ` & `, the delay and ` seconds more` |
| SequenceBuilder.WaitingFlagsRoundTrip | Sequence_builder.py:112-123 | the wait text gives back which quantities it waits for, for every delay |
| SequenceBuilder.AcceptedWaitNamesQuantity | Sequence_builder.py:40-46 | the dialog accepts a configuration exactly when its wait text names a quantity |
| SequenceBuilder.SetTempTextSpec | Sequence_builder.py:126-127 | the set-temperature text fails exactly on a missing key. Otherwise it gives back the target right after its opening and the rate between ` at ` and the `K/min` ending |
| SequenceBuilder.SetFieldTextSpec | Sequence_builder.py:129-130 | the set-field text fails exactly on a missing key. Otherwise it gives back the target right after its opening and the rate between ` at ` and the `T/min` ending |
| SequenceBuilder.SetTempText | Sequence_builder.py:126-127 | KeyError exactly when `Temp` or `rate` is missing; otherwise a text that opens with `Set Temperature to ` |
| SequenceBuilder.SetFieldText | Sequence_builder.py:129-130 | KeyError exactly when `Field` or `rate` is missing; otherwise a text that opens with `Set Field to ` |
| SequenceBuilder.SetTextParts | Sequence_builder.py:126-130 | a set-step text built from a target without spaces gives back both the target and the rate |
| SequenceBuilder.ConstructPattern | Sequence_builder.py:78-82 | the pattern is the enclosing `exp` joined with `\|`, with no leading or trailing `\|`; splitting it at `\|` gives `exp` back |
| SequenceBuilder.StepPattern | Sequence_builder.py:83-84 | the four step expressions joined in order |
| SequenceBuilder.ParseNumbers | Sequence_builder.py:166 | every number text parses, in order, or ValueError names one that does not |
| SequenceBuilder.WaitStepSpec | Sequence_builder.py:202-203 | a wait step has the keys `typ`, `Temp`, `Field`, `Delay`, `DisplayText`. Its text is `parse_waiting` of the step itself and names exactly its quantities |
| SequenceBuilder.WaitFragmentSpec | Sequence_builder.py:194-203 | a wait fragment decodes to `Delay` = 1st number. A flag is set exactly when the 2nd (Temp) or 3rd (Field) number truncates to 1 |
| SequenceBuilder.SetTempFragmentSpec | Sequence_builder.py:163-169 | a temperature fragment decodes to `set_T` with `Temp` = 1st number and `rate` = 2nd. Its text is `parse_set_temp` of the rest of the step and shows both numbers |
| SequenceBuilder.SetFieldFragmentSpec | Sequence_builder.py:171-176 | a field fragment decodes to `set_Field` with `Field` = 1st number and `rate` = 2nd. Its text is `parse_set_field` of the rest of the step and shows both numbers |
| SequenceBuilder.SetTempStepSpec | Sequence_builder.py:163-169 | a set-temperature step has exactly the keys `typ`, `Temp`, `rate`, `DisplayText`; its text is `parse_set_temp` of the rest and shows target and rate |
| SequenceBuilder.SetFieldStepSpec | Sequence_builder.py:171-176 | a set-field step has exactly the keys `typ`, `Field`, `rate`, `DisplayText`; its text is `parse_set_field` of the rest and shows target and rate |
| SequenceBuilder.DecodeFragment | Sequence_builder.py:161-206 | a SCAN fragment is `Unmodelled`. An empty match reuses the previous step, or NameError before the first. A number that does not parse is a ValueError. Every decoded step has `typ` and `DisplayText` |
| SequenceBuilder.DecodeFromSpec | Sequence_builder.py:158-207 | a successful decoding has exactly one step per fragment, in order. Each step is decoded from its fragment after the step before it |
| SequenceBuilder.DecodeFromAt | Sequence_builder.py:158-207 | step i of a successful decoding is fragment i decoded after step i-1 |
| SequenceBuilder.DecodeFrom | Sequence_builder.py:158-207 | a successful decoding has one step per fragment; a failing first fragment aborts with its error |
| SequenceBuilder.ReadSequence | Sequence_builder.py:158-210 | the fragment loop returns the decoding of all fragments; the first failure aborts it |
| SequenceBuilder.WaitingDialog.constructor | Sequence_builder.py:33 | the dialog starts from `{typ: 'Wait', Temp: False, Field: False, Delay: 0}` and has emitted nothing |
| SequenceBuilder.WaitingDialog.SetValue | Sequence_builder.py:48-50 | only the named key changes |
| SequenceBuilder.WaitingDialog.Acc | Sequence_builder.py:40-46 | with neither quantity chosen, it rejects and emits nothing; otherwise it emits a copy of the configuration and accepts |
| CryostatSequence.CoincideSpec | CryostatGUI/Sequence.py:538-544 | the pairwise comparison of the lengths passes exactly when all lengths are equal |
| CryostatSequence.CoincideThree | CryostatGUI/Sequence.py:538-544 | for the three lists: passes exactly when the three lengths are equal |
| CryostatSequence.LengthCheckFirst | CryostatGUI/Sequence.py:538-544 | the measurement raises with no instrument call exactly when the three lists differ in length |
| CryostatSequence.ScheduleSpec | CryostatGUI/Sequence.py:562-566 | a channel's currents are -exc·base then +exc·base for each base of the curve in order: 2·\|iv\| of them |
| CryostatSequence.Zip3 | CryostatGUI/Sequence.py:556 | channel j pairs the j-th source, excitation current and voltmeter; there are no more channels than the shortest list, and exactly as many as the lists when their lengths agree |
| CryostatSequence.MeasurePoint | CryostatGUI/Sequence.py:564-572 | one set-point: set the current, wait, read the voltmeter, append current and voltage (as `Point`) |
| CryostatSequence.MeasureBase | CryostatGUI/Sequence.py:563-572 | the two polarities of one base, in order |
| CryostatSequence.MeasureChannel | CryostatGUI/Sequence.py:560-586 | enable, the whole schedule, the fit into the record, disable; or the failure of the fit bookkeeping (as `ChannelSweep`) |
| CryostatSequence.SweepChannels | CryostatGUI/Sequence.py:556-586 | the channels in order, stopping at the first failure (as `Channels`) |
| CryostatSequence.PointsSpec | CryostatGUI/Sequence.py:562-572 | the source's list gains exactly the currents set. The voltmeter's list gains one reading per set-point. Nothing else and no record changes |
| CryostatSequence.RefitSpec | CryostatGUI/Sequence.py:573-582 | the record takes `c[1]` and `stats[0][0]`, else IndexError/ValueError. `nonohmic` goes from 0 to 1 exactly above 1e4 and stays 1. Other records unchanged |
| CryostatSequence.ChannelSpec | CryostatGUI/Sequence.py:560-586 | one channel from empty lists: schedule as currents, next 2·\|iv\| readings as voltages, refitted record, its calls in order, nothing else changes |
| CryostatSequence.ChannelsSpec | CryostatGUI/Sequence.py:556-586 | over distinct fresh channels, every channel holds its schedule, its own readings and its record. The calls are the channels' calls in order, and no other list changes |
| CryostatSequence.ChannelsStopped | CryostatGUI/Sequence.py:556-586 | once a channel fails, later channels neither call nor change anything |
| CryostatSequence.InitialSweep | CryostatGUI/Sequence.py:546-549 | with distinct names, the channels are separate and every channel starts from an empty list and a zero record |
| CryostatSequence.SweepFromSpec | CryostatGUI/Sequence.py:546-586 | after the first temperature reading: calls in channel order; channel j holds its schedule, the readings from offset 2j·\|iv\| and its fit record |
| CryostatSequence.PairTemperatures | CryostatGUI/Sequence.py:553-554 | the loop over sensors gives each sensor its two readings, or KeyError when the second reading lacks one |
| CryostatSequence.PairedSpec | CryostatGUI/Sequence.py:588-590 | pairing succeeds exactly when every first-reading sensor is in the second. Each sensor then has [first, second] |
| CryostatSequence.FirstOccurrences | CryostatGUI/Sequence.py:546-549 | the dictionary keys are exactly the names, each once |
| CryostatSequence.RenameSpec | CryostatGUI/Sequence.py:596-604 | with no two names stripping alike, every key's value is found under its stripped name, and every renamed key comes from a key |
| CryostatSequence.RenamedSpec | CryostatGUI/Sequence.py:596-604 | the same for the dictionaries built from a list of names |
| CryostatSequence.ControlPrefixStripped | CryostatGUI/Sequence.py:596 | `strip('control_')` of `control_` + a name with clean ends equals removing the prefix |
| CryostatSequence.DefaultVoltmetersStripped | CryostatGUI/Sequence.py:377-378 | the default voltmeter names strip to `Keithley2182_1` and `Keithley2182_2`, which differ |
| CryostatSequence.DefaultSourcesStripped | CryostatGUI/Sequence.py:379-380 | the default source names strip to `Keithley6221_1` and `Keithley6221_2`, which differ |
| CryostatSequence.Tagged | CryostatGUI/Sequence.py:592-594 | the keys are the sensor names with the suffix; each value is the statistic of that sensor's readings |
| CryostatSequence.MultichannelOk | CryostatGUI/Sequence.py:538-613 | a successful measurement had equal lengths, a successful sweep, paired temperatures and a data file. It ends with the second temperature reading |
| CryostatSequence.MultichannelTemperatures | CryostatGUI/Sequence.py:588-594 | `T_mean_K` and `T_std_K` hold, per sensor, the mean and the sample deviation of its two readings |
| CryostatSequence.MultichannelSpec | CryostatGUI/Sequence.py:538-604 | calls: temperatures, each channel in order, temperatures. Each channel is reported under stripped names with its currents, own readings and fit record |
| CryostatSequence.MeasureResistanceMultichannel | CryostatGUI/Sequence.py:505-617 | the loops on the lab give exactly the result and call log of `Multichannel` |
| CryostatSequence.Multichannel | CryostatGUI/Sequence.py:538-613 | the measurement only appends calls to the log. A record carries the given data file |
| SingleChannel.Applied | CryostatGUI/Sequence.py:477-479 | the current applied is the excitation times the polarity factor; zero exactly when the excitation is |
| SingleChannel.ResistanceAsWritten | CryostatGUI/Sequence.py:483-487 | as written, the resistance times the bare excitation current gives back the reading, whatever the polarity |
| SingleChannel.Resistance | CryostatGUI/Sequence.py:483-487 | corrected, the resistance times the current applied at that polarity gives back the reading |
| SingleChannel.Polarities | CryostatGUI/Sequence.py:475-477 | n measurements give 2n polarities, positive at even and negative at odd positions |
| SingleChannel.MeasurePolarities | CryostatGUI/Sequence.py:477-487 | one measurement: positive then negative, each as `Reverse` |
| SingleChannel.MeasureAll | CryostatGUI/Sequence.py:475-487 | `range(n)` measurements, stopping at the first failure (as `Reverses`) |
| SingleChannel.ReversesCalls | CryostatGUI/Sequence.py:475-484 | with a non-zero current, one set, wait and read per polarity, in order, and one reading taken per polarity |
| SingleChannel.ReversesSpec | CryostatGUI/Sequence.py:475-487 | with a non-zero current, the k-th resistance is the k-th reading over the k-th applied current |
| SingleChannel.ReversesZero | CryostatGUI/Sequence.py:478-487 | a zero current reads once and then fails with ZeroDivisionError |
| SingleChannel.SinglechannelOutcome | CryostatGUI/Sequence.py:470-497 | success exactly with the sensor in both readings, a data file, and no division by zero. A sensor missing at first fails after one reading; zero current after one set-point |
| SingleChannel.SinglechannelSpec | CryostatGUI/Sequence.py:466-497 | calls: enable, temperature, two set-points per measurement, temperature. Record: mean/deviation of the two temperatures and of the 2n resistances |
| SingleChannel.Singlechannel | CryostatGUI/Sequence.py:466-497 | the log starts with enabling the source and reading the sensor. A record needs the sensor in both readings and a data file, and carries that file |
| SingleChannel.MeasureResistanceSinglechannel | CryostatGUI/Sequence.py:437-502 | the loops on the lab give exactly the result and call log of `Singlechannel` |
| SingleChannel.AsWrittenIgnoresPolarity | CryostatGUI/Sequence.py:483-487 | as written, the factor cancels: every resistance is the bare reading over the excitation |
| SingleChannel.OhmicPairAsWritten | CryostatGUI/Sequence.py:483-487 | as written, an ohmic sample with offset gives R + off/exc and -R + off/exc, so a pair sums to 2·off/exc |
| SingleChannel.NegativePolarityExample | CryostatGUI/Sequence.py:483-487 | a 10 Ω sample at 0.5 mA is recorded as 10 and -10 Ω as written, and as 10 Ω when corrected |
| SingleChannel.OhmicPair | CryostatGUI/Sequence.py:483-487 | corrected, the two polarities give R ± off/exc, so every pair sums to 2R |
| SingleChannel.OhmicMeasurement | CryostatGUI/Sequence.py:475-487 | over a whole run on an ohmic sample, every positive/negative pair of resistances sums to 2R |
| OneShot.OneShotMultichannel.constructor | CryostatGUI/Sequence.py:375-385 | the configuration starts as the defaults: the thread names, two currents of 0.5 mA, the curve [1, 0.5], 0.08 s reversal, 10 s interval |
| OneShot.OneShotMultichannel.UpdateConf | CryostatGUI/Sequence.py:390-391 | only the given key changes, to the given value |
| OneShot.ListIndex | CryostatGUI/Sequence.py:395 | a Python list index is valid exactly in [-len, len), and a negative one counts from the end |
| OneShot.SetItem | CryostatGUI/Sequence.py:395 | item assignment: TypeError on a non-list, IndexError out of range, otherwise only that element changes |
| OneShot.OneShotMultichannel.UpdateExc | CryostatGUI/Sequence.py:393-395 | only element `channel - 1` of the currents changes, or the KeyError/TypeError/IndexError with nothing changed |
| OneShot.UpdateExcChannel | CryostatGUI/Sequence.py:393-395 | for channel 1..n on a valid configuration, exactly element channel-1 becomes the value and the rest stay |
| OneShot.UpdateExcChannelZero | CryostatGUI/Sequence.py:395 | channel 0 is index -1: it replaces the last current instead of failing |
| OneShot.DefaultsCoincide | CryostatGUI/Sequence.py:375-385 | the default configuration's three lists have two entries each, so it passes the length check |
| OneShot.NoDatafileNoRecord | CryostatGUI/Sequence.py:375-385 | the defaults carry no `datafile`, and without one the measurement returns no record |

## Left out

- Threads and timers are not modelled.
  - Not modelled: `threading.Lock` in the Keithley driver, `loops_off`, `QThread`/`QTimer` and Qt signals.
  - Every `go`/`query` is one atomic log entry.
  - The dialog's emitted signal is a list of emitted dictionaries.
- Instrument I/O is a `Device` with a transaction log and a reply queue.
  - Not modelled: VISA sessions, resource opening, the serial driver base class and its terminators.
  - The measurement threads are a `Lab` whose readings are a function of how many readings were taken before. It does not tell two voltmeters apart.
- Floating-point numbers are `real`s.
  - `str(float)` and `float(str)` are an abstract `FloatCodec`.
  - numpy's `polyfit`, `mean`, `std` (population) and `std(ddof=1)` are function parameters.
  - `np.linspace` of the default curve is written out as [1, 0.5].
- `datetime.now` and `time.sleep` are a `Clock` that never runs backwards.
  - The waits inside the measurements are `Pause` entries in the call log.
  - `time.time`, the three time stamps of the records and the pandas `DataFrame` entry are not modelled.
- Not modelled in the measurements:
  - the lookup in the `threads` dictionary and its KeyError;
  - the `type` entry added by `measure_oneshot_once`;
  - `measure_oneshot`, `measure_oneshot_once` and `update_iv` of the one-shot thread, which are timer and numpy glue;
  - the `threads` entry of its configuration;
  - the single-channel thread's identical `update_conf` (CryostatGUI/Sequence.py:339-340).
- OneShot.OneShotMultichannel.UpdateExc: the configuration holds list values, not references. An update through `update_exc` is not seen by another holder of the same Python list.
- `read_sequence` takes the fragments as already found.
  - Not modelled: reading the file, the regular-expression engine and the number extraction. Each fragment carries its captured groups and its number texts.
  - The SCAN branch can reuse stale or unbound names, so its outcome is `Unmodelled`.
  - `print` calls are not modelled.
- Not modelled in the sequence builder: `addItem_toSequence`, `addWaiting`, the list model and the rest of the Qt dialog plumbing.
- The driver constructors and `more_ACAL` are not part of this model. `mainWindow.py` is not part of this model.
- Comparing text with a number is taken to raise TypeError, as in Python 3. This applies to `abs` in `setFieldSetpoint` and to the range test of `setRate`.
- `construct_pattern` is modelled as written: it joins the enclosing list `exp` and ignores its parameter. The two agree at the one call site.
- `strip('control_')` is modelled as written, as a strip of the character set {c, o, n, t, r, l, _} from both ends, not as prefix removal. The lemmas show it equals prefix removal for the default names.
- CryostatSequence.MultichannelSpec: states the per-channel report only for distinct names that strip to distinct keys. With repeated names, the lists of a source or voltmeter accumulate across channels, and later keys overwrite earlier ones. `Multichannel` models this, but no lemma characterises it.
- SingleChannel.MeasureResistanceSinglechannel: computes each resistance as the reading over the current applied, the corrected form. The as-written formula is `SingleChannel.ResistanceAsWritten`; see Findings.
- The convergence wait follows the code, not the general description of the system.
  - It checks the deadline before each poll rather than after the reading.
  - It accepts any `error_margin`, including margins <= 0, which are never met.

## Findings

| source | as written | input that shows it | evidently intended | confidence | as-written member | corrected member |
|---|---|---|---|---|---|---|
| Oxford/Drivers/ips120.py:80 | `readField`, `readFieldSetpoint` and `readFieldSweepRate` test a name `value` that is never bound (also lines 94 and 109); every read that gets a reply raises NameError after its query | any reply, e.g. `R+1.5` to `R7` | test the reply `value_str`: refuse an empty reply or one not led by `R`, else parse the stripped number | not executed | Ips120Driver.Ips120.ReadParameterAsWritten | Ips120Driver.Ips120.ReadParameter |
| Oxford/Drivers/ips120.py:198 | the deadline uses `datetime.timedelta`, but `datetime` is the class imported from the module, which has no such attribute; every wait raises AttributeError before any query | any call, e.g. field and set point both `R+1.5` | deadline = start + timeout seconds, poll until on target or past the deadline | not executed | Ips120Driver.Ips120.WaitForFieldAsWritten | Ips120Driver.Ips120.WaitForField |
| Keithley/Keithley2182.py:87 | `DisplayOn` calls `self.go8`, which does not exist; it raises AttributeError and sends nothing | any call | `self.go(':DISPlay:ENABle ON')` | not executed | Keithley2182Driver.Keithley2182.DisplayOnAsWritten | Keithley2182Driver.Keithley2182.DisplayOn |
| Keithley/Keithley2182.py:115 | the range test `0.01 > num > 50` holds for no number, so no rate is ever refused | `num = 100` | refuse `num` outside [0.01, 50] | not executed | Keithley2182Driver.Keithley2182.SetRateAsWritten | Keithley2182Driver.Keithley2182.SetRate |
| CryostatGUI/Sequence.py:483-487 | the reading is multiplied by the polarity factor and then divided by the current times the same factor, so the factor cancels; negative-polarity resistances come out with the wrong sign | 10 Ω sample at 0.5 mA: readings 5 mV and -5 mV give 10 Ω and -10 Ω, mean 0 | resistance = reading / (current × factor), giving 10 Ω at both polarities | not executed | SingleChannel.ResistanceAsWritten | SingleChannel.Resistance |

Four methods put the as-written and corrected members of these rows side by side on the inputs named in the table:

- `Ips120Driver.ReaderDiscrepancy`: the reader, on a reply of `R+1.5`.
- `Ips120Driver.WaitForFieldDiscrepancy`: the field wait, with field and set point both at `R+1.5`.
- `Keithley2182Driver.SetRateDiscrepancy`: the rate of 100 power-line cycles.
- `Keithley2182Driver.DisplayOnDiscrepancy`: switching the display on.

For the resistance row, `SingleChannel.NegativePolarityExample` plays this part.

`SequenceBuilder.WaitingDialogUse` walks the wait dialog of Sequence_builder.py:33-50. Left at its defaults, the dialog rejects. Once the field is ticked, it emits a configuration whose display text waits for the field.
