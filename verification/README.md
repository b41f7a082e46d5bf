# Morse keying, from text and paddles to decoded text, and the fast forms beside it

A Dafny 4.11 model of the keying pipeline of a software radio, with proofs of what it keeps over every run.
`dafny verify dfyconfig.toml` checks the whole project.

The parts, in the direction of the signal:

* **Paddle keyers** (`IambicAd5dz`, `IambicK1el`, `IambicNd7pa`, `IambicDttsp`, with `Paddles` and `Keying` shared):
  each keyer is a class with one `Clock` call per tick, proved equal to a step function on values.  Over every
  paddle sequence the outputs are measured into marks and gaps.  Proved: exact marks and quantised gaps, no drift,
  mode A against mode B, and that the four keyers send the same waveform while both paddles are held.
  `DttspMarks` finds when one of them does *not* make exact marks, and proves exactly when it does.
  `Asking` tells, on the raw paddle levels, what it is for an element to be asked for; `Ad5dzPaddles`, `K1elPaddles`,
  `Nd7paPaddles` and `DttspPaddles` prove that none is sent that is not, and exactly which press brings which element.
* **Text sender** (`KeyerAscii`, `MorseTiming`, `MidiBuffer`, `RingBuffer`, `RingProtocol`, `FrameworkMidi`,
  `MidiSchedule`): text becomes records with durations, staged, published to a ring of bytes, and scheduled
  onto frames callback by callback.
* **Detimer** (`Detime`, `DetimeTracking`, `DetimeDecode`): the adaptive listener that turns key transitions back
  into dits, dahs and spaces.  `KeyerRoundTrip` and `TextRoundTrip` close the two loops: paddles to text, and text
  to text.
* **Transmit switch** (`KeyerPtt`, `KeyerPttCover`): a delay queue and a hang timer, and the exact relation
  between the two parameters that keeps the switch on whenever the delayed key is down.
* **Keyed tone** (`KeyedTone`): the envelope, as whole rises, holds, falls and silences.
* **Packets** (`PacketRing`, `PacketPump`, `TxPacket`, `SentPackets`, `SenderRuns`, `RegisterScan`,
  `RegisterSettings`): stepping through the sample frames of received and sent packets, what a sent packet holds over
  whole runs of the sender, the order in which control registers are refreshed, and what can be read back from them.
* **Filters in exact arithmetic** (`OverlapSave`, `Goertzel`): streaming overlap-save against linear convolution, and
  the ring recurrence against a Fourier sum.

Code that updates fields or arrays is modelled by classes and methods with loops; each method is tied to a function
on values, and the results about whole runs are lemmas about those functions.  Runs are folds over their inputs, or
sequences of states in which every neighbouring pair is a step.

## What the code does not do

These are proved, each with the exact condition under which the code does what one would expect.

* The switch covers the delayed key for every input if and only if the hang is longer than the delay, or the delay
  is zero (`KeyerPttCover.CoversIffHangOutlastsDelay`).
* With automatic character spacing, dttsp cuts a tick off a mark that had to wait for a delay.  At every weight that
  leaves a mark and some space in every element its marks are exact for every use of the paddles if and only if that
  spacing is off (`DttspMarks.ExactIffNoCharacterSpacing`).
* The last output of each overlap-save block uses a sample two blocks too old under its first tap; it is right if
  and only if that tap is zero or the two samples are equal (`OverlapSave.LastOutputRightIff`).
* Every detimer in tune tells all marks that are off by at most j apart if and only if 3j is at most a dot; beyond that
  even one just configured for exactly that dot fails (`DetimeTracking.ToleranceIff`).
* Queued records fire on time if and only if the queue is never starved (whatever follows after it has run dry is
  there by the time it is due) and never held up (nothing that a callback has left behind is due before the next one
  starts), over any session whatever (`MidiSchedule.OnTimeIff`).  Where callbacks follow on from one another, being
  held up is the work of the cap of 64 events alone (`MidiSchedule.HeldUpIffCut`, `OnlyCapCuts`); callbacks of at most
  64 shortest durations are safe from it (`ShortIsNotCut`).  What has become late stays late (`NeverCatchesUp`).
* A prosign that fails stays collected (`KeyerAscii.Keyer.QueueUnichar`), and everything up to the next backslash is
  swallowed without a complaint if and only if there is one (`MorseText.SwallowsIffStuck`).
* The count of a packet ring is right if and only if there are fewer than 64 packets
  (`PacketRing.CountRightIff`): a full ring looks empty, and `packet_ring_buffer_can_write` is never zero.
* The number of receivers can be read back from register 0 if and only if it is at most eight: three of the four bits
  of the field are sent (`RegisterSettings.ReceiversSentIff`).
* The hang time can be read back from register 0x10 if and only if it has ten bits of which bit 2 is clear, since the
  mask leaves that bit out (`RegisterSettings.HangTimeSentIff`), and the gain from register 0x0a if and only if it is
  from -12 to 51 (`RegisterSettings.GainSentIff`).

## Model

| member | source | states |
|---|---|---|
| MovingAverage.MovingAverage16.Init | dspmath/filter_moving_average16.h:45-50 | the window holds sixteen times the initial value and the result is their mean |
| MovingAverage.MovingAverage16.Process | dspmath/filter_moving_average16.h:52-58 | the oldest value leaves the window, the newest enters, and the result is the mean of the window although only the running sum is updated |
| Detime.Detimer.Configure | dspmath/detime.h:71-76 | idle, no last mark, and a window full of two dots; the frame of the last event is kept |
| Detime.Detimer.EndMark | dspmath/detime.h:105-130 | learns half the sum of two neighbouring marks that are about 1:3, then calls the mark a dit up to two dots |
| Detime.Detimer.Process | dspmath/detime.h:101-180 | answers each event as the value-level detimer does, and ends in the same state |
| Detime.HearConcat | sdrtcl/keyer_detime.c:120-140 | hearing two stretches of key line one after the other is hearing them joined |
| Detime.LearnsIff | dspmath/detime.h:105-115 | it learns half the sum of two neighbouring marks if and only if one is more than twice and less than four times the other |
| Detime.DitIff | dspmath/detime.h:117-129 | a mark is a dit if and only if sixteen times its length is at most the sum of the window |
| DetimeTracking.MarkKeepsTune | dspmath/detime.h:105-129 | a mark within j of d or 3d, 3j at most d, is told correctly and leaves every observation within j of two dots |
| DetimeTracking.ToleranceHolds | dspmath/detime.h:105-129 | for any sequence of events with such marks, two_dot stays within j of 2d for ever and every mark is told correctly |
| DetimeTracking.ToleranceIff | dspmath/detime.h:105-129 | for any dot d and any j, all marks within j are told right over any events if and only if 3j is at most d: from every state in tune, and just so from the state configured for d; beyond it eighteen dits within j end in one told as a dah, or one mark may be either |
| DetimeTracking.LockIn | dspmath/detime.h:105-115 | from any state, sixteen changes between marks of exactly d and 3d make two_dot exactly 2d |
| DetimeDecode.Silence | dspmath/detime.h:149-166 | where the query states can be n frames after a key-up, for any polls that come often enough |
| DetimeDecode.HearLead | dspmath/detime.h:159-163 | before the first mark at most one space is written, exactly if some poll comes later than six dots |
| DetimeDecode.HearSegment | dspmath/detime.h:101-166 | a mark and any gap add the right character and no, one or two spaces, by the length of the gap |
| DetimeDecode.HearWave | dspmath/detime.h:101-166 | any number of marks and gaps in the three bands, from any state in tune, add exactly their text |
| DetimeDecode.Decodes | dspmath/detime.h:71-180 | from configuration, after any lead-in, a transmission with timing errors up to j is written exactly, with one space for each letter gap and two for each word gap |
| DetimeDecode.EveryEighthIsEnough | sdrtcl/keyer_detime.c:133-134 | polling on every eighth frame puts a poll into every eight frames |
| Keying.EdgesAreTapeEdges | sdrtcl/keyer_iambic_ad5dz.cc:132-143 | the events sent on changes of output are the edges of the marks and gaps that the outputs measure to |
| IambicAd5dz.Ad5dz.TransitionTo | dspmath/iambic_ad5dz.h:102-114 | the output, memory, state and accumulated duration after a transition |
| IambicAd5dz.Ad5dz.StartEither | dspmath/iambic_ad5dz.h:117-118 | the preferred element if it is wanted, or else the other, or else nothing changes |
| IambicAd5dz.Ad5dz.Expire | dspmath/iambic_ad5dz.h:140-148 | what follows each state when its duration has run out |
| IambicAd5dz.Ad5dz.Clock | dspmath/iambic_ad5dz.h:132-150 | the whole new state and the output for any paddles and ticks |
| IambicAd5dz.WellFormedOutput | dspmath/iambic_ad5dz.h:102-150 | for every paddle input every finished mark lasts exactly the dit or dah ticks, and every finished gap is exactly ies, exactly ils, or at least iws |
| IambicAd5dz.SqueezeInModeA | dspmath/iambic_ad5dz.h:102-150 | any paddles during an element, a squeeze too, let go before its mark ends: no element follows, ever |
| IambicAd5dz.SqueezeInModeB | dspmath/iambic_ad5dz.h:102-150 | a squeeze in mode B, let go before the mark ends: exactly one opposite element follows, and nothing after it |
| Asking.BeganOnTape | sdrtcl/keyer_iambic_ad5dz.cc:132-143 | the calls at which the output turns to an element are those that begin the marks on the tape, one for each, in order |
| Ad5dzPaddles.EveryMarkIsAsked | dspmath/iambic_ad5dz.h:116-149 | over every run from rest, for any times and modes, each mark of an element has a call with the paddle for it down (the other one if swapped), after the call that began the mark before and up to the one that began it |
| Ad5dzPaddles.LonePressStarts | dspmath/iambic_ad5dz.h:117-141 | from off, a paddle pressed alone keys its own element at that call |
| Ad5dzPaddles.AfterMark | dspmath/iambic_ad5dz.h:110-146 | exactly what follows a mark: the other element if its paddle was down during mark or space (in mode A, not if both are up as the mark ends), or else the same if its paddle is down as the space ends, or else nothing |
| Ad5dzPaddles.AfterPause | dspmath/iambic_ad5dz.h:120-148 | exactly what ends a letter or word pause: a dit if its paddle was down in it, or else a dah, or else the next pause or rest |
| IambicAd5dz.NoDrift | dspmath/iambic_ad5dz.h:113-150 | for any ticks no longer than the shortest duration in use, each phase ends on the first call at or after the sum of all nominal durations since leaving off |
| KeyerRoundTrip.PaddleRoundTrip | dspmath/iambic_ad5dz.h:102-150 | for every paddle input, swapped or not, the detimer, hearing the keyer's events, writes exactly the elements the keyer sent, with one space at letter gaps and two at word gaps, and each of those elements has had its paddle down since the one before began |
| KeyerRoundTrip.StandardTimesSuit | dspmath/detime.h:149-166 | dit d, dah 3d, spaces d, 3d, 7d and a poll every d-1 frames satisfy that round trip |
| IambicK1el.K1el.Clock | dspmath/iambic_k1el.h:210-285 | the loop over small states ends for every state and input, and does one flat step |
| IambicK1el.K1el.Turn | dspmath/iambic_k1el.h:220-284 | one turn of the loop either finishes the call or moves to a state of lower rank with the same outcome |
| IambicK1el.K1el.UpdatePaddleLatch | dspmath/iambic_k1el.h:149-157 | pressed paddles are latched, swapped or not |
| IambicK1el.WellKeyedOutput | dspmath/iambic_k1el.h:210-285 | for every paddle input marks are exact and gaps last at least the element space |
| IambicK1el.HeldIsSqueezed | dspmath/iambic_k1el.h:210-285 | both paddles held: dit, space, dah, space without end, whatever the mode |
| K1elPaddles.EveryMarkIsAsked | dspmath/iambic_k1el.h:149-285 | as for ad5dz: no mark without its paddle, swapped or not |
| K1elPaddles.IdleCall | dspmath/iambic_k1el.h:222-258 | at rest a call keys a dit for the dit paddle, or else a dah for the dah paddle, or else nothing, each for its own time |
| K1elPaddles.AfterMark | dspmath/iambic_k1el.h:260-281 | exactly what follows a mark: the other element if its paddle was down in the space, or in mode B in the mark; or else, after a dah, another if its paddle is down as the space ends; or else rest |
| K1elPaddles.SqueezeOutsideModeB | dspmath/iambic_k1el.h:260-281 | outside mode B, whatever is pressed during a mark, no element ever follows if nothing is pressed after it |
| K1elPaddles.SqueezeInModeB | dspmath/iambic_k1el.h:260-281 | in mode B a press of the other paddle before the last call of a mark brings exactly one opposite element and then nothing |
| IambicNd7pa.Nd7pa.Clock | dspmath/iambic_nd7pa.h:103-157 | the whole new state, and an output that belongs to the state before the call |
| IambicNd7pa.Nd7pa.Move | dspmath/iambic_nd7pa.h:114-142 | the state machine without its memories |
| IambicNd7pa.Nd7pa.Remember | dspmath/iambic_nd7pa.h:145-154 | when a press of the other paddle becomes pending and when it is forgotten |
| IambicNd7pa.WellKeyedOutput | dspmath/iambic_nd7pa.h:103-157 | for every paddle input marks are exact and gaps last at least the element space |
| IambicNd7pa.HeldIsSqueezed | dspmath/iambic_nd7pa.h:103-157 | both paddles held: the squeezed waveform, one call late |
| Nd7paPaddles.EveryMarkIsAsked | dspmath/iambic_nd7pa.h:103-157 | as for ad5dz: no mark without its paddle, swapped or not, the output one call behind |
| Nd7paPaddles.IdleCall | dspmath/iambic_nd7pa.h:114-121 | at rest a call begins a dit for the dit paddle, or else a dah for the dah paddle, or else nothing |
| Nd7paPaddles.AfterMark | dspmath/iambic_nd7pa.h:120-154 | exactly what follows a mark: the other element if its paddle was down in time, from the last half of a dit, or third of a dah, to the first half of the space, or else rest |
| IambicDttsp.Dttsp.DoCountDown | dspmath/iambic_dttsp.h:124-143 | which times count down, and when a word space follows a character space |
| IambicDttsp.Dttsp.DoFinish | dspmath/iambic_dttsp.h:155-183 | when an element ends, which one follows it, and when a character space begins |
| IambicDttsp.Dttsp.Clock | dspmath/iambic_dttsp.h:122-247 | the whole new state and the output for any paddles and ticks |
| IambicDttsp.SqueezeThenRelease | dspmath/iambic_dttsp.h:145-183 | a squeeze during an element and any paddles until both are let go: the mark runs its course, mode A sends nothing more, and mode B exactly one opposite element, or none if the middle is wanted and both paddles were never down past it; the output at every later tick |
| IambicDttsp.HeldIsSqueezed | dspmath/iambic_dttsp.h:122-247 | both paddles held: the squeezed waveform from its dah on, for any weight |
| DttspPaddles.AfterElement | dspmath/iambic_dttsp.h:145-205 | exactly what follows an element, whatever the paddles do in it: from taps of the other paddle with its memory wanted, squeezes let go or not, the middle, the mode, and the paddles at the end |
| DttspPaddles.GivenUpIff | dspmath/iambic_dttsp.h:207-217 | an element waiting for a delay is given up if and only if both paddles are up and its memory is not wanted |
| DttspPaddles.WaitsFor | dspmath/iambic_dttsp.h:185-191 | a paddle pressed during a delay has its own element wait, the dah's first |
| DttspPaddles.LetterDelayBegins | dspmath/iambic_dttsp.h:166-176 | with the paddles up and nothing to follow, a delay of two dits if that is automatic |
| DttspPaddles.WordDelayFollows | dspmath/iambic_dttsp.h:126-137 | after it one of four dits more if that is |
| DttspMarks.NearlyKeyedOutput | dspmath/iambic_dttsp.h:122-247 | for every paddle input marks are whole or one tick short, and gaps are never too short |
| DttspMarks.ExactIffNoCharacterSpacing | dspmath/iambic_dttsp.h:124-143 | for every weight that leaves a mark and some space, marks are exact for every use of the paddles if and only if automatic character spacing is off |
| KeyersAgree.FourKeyersAgree | dspmath/iambic.h:22-32 | at every tick of a squeeze ad5dz and k1el agree, nd7pa one call later, and dttsp from the dit after its first dah |
| KeyersAgree.StandardTimes | dspmath/iambic_dttsp.h:227-237 | at weight 50 dttsp has marks of one and three dits and spaces of one |
| MorseTiming.SamplesPer.Set | dspmath/morse_timing.h:32-65 | the five durations in samples with the fractions cut off, wherever that is defined, and the two spaces stretched for Farnsworth speeds |
| MorseTiming.WordsLastAMinute | dspmath/morse_timing.h:46-47 | with neutral settings wpm words of so many dits last a minute of samples, no longer, and less than a sample for each dit shorter |
| MorseTiming.StandardWord | sdrtcl/keyer_ascii.c:156-190 | the standard word as queued is ten dits, four dahs, and nine, four and one of the three spaces |
| MorseTiming.StandardWordsLastAMinute | dspmath/morse_timing.h:38-51 | so with 1:3 marks and 1:3:7 spaces wpm of it last a minute |
| MorseTiming.PercentsOfWeight | dspmath/morse_timing.h:40-51 | each percent of weight makes marks a hundredth of a dit longer and spaces as much shorter |
| MorseTiming.PercentsOfRatio | dspmath/morse_timing.h:39-51 | each percent of ratio makes dits a hundredth of a dit longer and dahs as much shorter, and nothing else |
| MorseTiming.MillisecondsOfCompensation | dspmath/morse_timing.h:38-51 | each millisecond of compensation makes marks a millisecond longer and spaces as much shorter, to within the rounding of the dit |
| MorseTiming.FarnsworthPace | dspmath/morse_timing.h:53-58 | stretching the 19 dits of spaces of a standard word by the factor, and not the other 31, makes it last 50 dits at the slower speed |
| MorseTiming.StretchIs | dspmath/morse_timing.h:57-61 | only the letter and word space are stretched, between 5 wpm and the speed, and cut to whole samples |
| MorseTiming.WeightShifts | dspmath/morse_timing.h:46-51 | another weight or compensation makes every mark longer and every space shorter by the same amount |
| MorseTiming.TextBalances | sdrtcl/keyer_ascii.c:156-190 | every mark of a text is followed by a space |
| MorseTiming.LengthConserved | dspmath/morse_timing.h:46-51 | before fractions are cut off, the length of every text is the same for all weights and compensations |
| MorseTiming.LengthsDifferByLess | dspmath/morse_timing.h:46-51 | after that, where words are no closer than letters, two settings differ by less than one sample for each event of the text |
| RingArithmetic.PowersOfTwoAreRingSizes | dspmath/ring_buffer.h:36-44 | every power of two, the sizes accepted, divides the range of an unsigned pointer |
| RingArithmetic.WrapKeepsSlot | dspmath/ring_buffer.h:54 | wrapping an unsigned pointer does not move it in the ring |
| RingArithmetic.WrapDifference | dspmath/ring_buffer.h:50 | the difference of two wrapped pointers is the number of bytes between them |
| RingBuffer.Ring.Peek | dspmath/ring_buffer.h:56-62 | the first bytes, or -1 and nothing if there are fewer |
| RingBuffer.Ring.Get | dspmath/ring_buffer.h:73-78 | takes the first bytes, or changes nothing |
| RingBuffer.Ring.Put | dspmath/ring_buffer.h:94-101 | appends all the bytes, or changes nothing if they do not fit |
| RingBuffer.Ring.MoveTo | dspmath/ring_buffer.h:80-88 | moves bytes from the front of one ring to the end of another, or changes neither |
| RingBuffer.Ring.Reset | dspmath/ring_buffer.h:46-48 | empties the ring |
| RingProtocol.NoUnreadByteOverwritten | dspmath/ring_buffer.h:94-101 | a writer's next byte goes to a slot that no unread byte is in, pointers wrapping or not |
| RingProtocol.ReceivedIsPrefixOfSent | dspmath/ring_buffer.h:50-111 | for every interleaving, byte by byte, of one writer and one reader, what has been received is a prefix of what has been sent |
| RingProtocol.GetSucceedsIffEnough | dspmath/ring_buffer.h:56-62 | a read that is about to decide goes ahead if and only if enough bytes are published |
| MidiRecords.HeaderRoundTrip | dspmath/midi_buffer.h:50-53 | a record's duration and size come back from the eight bytes they are stored in |
| MidiRecords.StreamRoundTrip | dspmath/midi_buffer.h:105-118 | reading the bytes of a sequence of records gives the records back |
| MidiBuffer.Midi.QueueCommand | dspmath/midi_buffer.h:187-197 | stages a whole record if there is room; if only the header fits, that stays staged, and otherwise nothing does; -1 in both cases |
| MidiBuffer.Midi.QueueNoteOn | dspmath/midi_buffer.h:198-202 | stages a note with its duration, or fails as above |
| MidiBuffer.Midi.QueueDelay | dspmath/midi_buffer.h:210-215 | stages a duration with no bytes |
| MidiBuffer.Midi.Flush | dspmath/midi_buffer.h:163-168 | publishes all that is staged, or nothing |
| MidiBuffer.Midi.Drop | dspmath/midi_buffer.h:170-172 | forgets what is staged |
| MidiBuffer.Midi.TakeRecord | dspmath/midi_buffer.h:106-118 | takes one record off the ring and puts its bytes into the read buffer in one piece |
| MidiBuffer.Midi.GetBuffer | dspmath/midi_buffer.h:92-138 | for any published records, exactly those due before the end of the callback are taken, up to 64, each with its time and exact bytes, and the rest stay |
| FrameworkMidi.Merge.EventGet | sdrtcl/framework.h:683-699 | the next event of the first source that has one due, and that source moves on by one |
| FrameworkMidi.Merge.DeliverAll | sdrtcl/keyer_ascii.c:133-140 | the loop over frames delivers every source's events exactly once, in order, each at its stamped frame |
| MidiSchedule.RecordsFireInOrder | dspmath/midi_buffer.h:99-134 | over any callbacks records fire in order, none lost, each at the later of its callback's start and the time and duration of the one before |
| MidiSchedule.CapNotReached | dspmath/midi_buffer.h:129-133 | in callbacks up to 64 times the shortest duration nothing is due behind the cap, and up to 63 times it is not reached |
| MidiSchedule.AllFired | dspmath/midi_buffer.h:92-138 | over any session whose records all come due before its end: every one of them fires, at the exact sum of the durations before it, if and only if the queue never starves, is never held up and the last callback is not cut short |
| MidiSchedule.OnTimeIff | dspmath/midi_buffer.h:99-134 | over any session, whatever its durations and callbacks, all that fires is on time if and only if nothing is published after its time to a queue that has run dry and nothing left in the queue is due before the next callback starts |
| MidiSchedule.OnlyCapCuts | dspmath/midi_buffer.h:129-133 | a callback that leaves a record due before its end has fired 64 |
| MidiSchedule.HeldUpIffCut | dspmath/midi_buffer.h:99-134 | with contiguous callbacks the queue is held up if and only if one before the last is cut short |
| MidiSchedule.ShortIsNotCut | dspmath/midi_buffer.h:129-133 | no callback of at most 64 shortest durations is cut short, whatever is in the queue |
| MidiSchedule.OnTimeIffNeverStarved | dspmath/midi_buffer.h:99-134 | so with such callbacks, contiguous, not starving is the exact condition |
| MidiSchedule.NeverCatchesUp | dspmath/midi_buffer.h:107-123 | a record is at least as late as every one before it |
| KeyerAscii.Keyer.QueueMidi | sdrtcl/keyer_ascii.c:156-190 | stages the marks and spaces of a code, a pause for a space, nothing otherwise; fails exactly on a bad code or lack of room |
| KeyerAscii.Keyer.QueueCode | sdrtcl/keyer_ascii.c:162-188 | stages a code element by element, its last space that of a letter unless it continues |
| KeyerAscii.Keyer.QueueUnichar | sdrtcl/keyer_ascii.c:203-224 | collects prosigns after backslashes, stages them run together and publishes them; stages other characters singly; a prosign that fails stays collected with its backslashes |
| MorseText.ProsignIsTyped | sdrtcl/keyer_ascii.c:203-219 | with n backslashes, wherever they stand before its end, a prosign is the next n+1 other characters run together |
| MorseText.PlainIsTyped | sdrtcl/keyer_ascii.c:220-222 | without a backslash every character stands by itself |
| MorseText.RecordIs | sdrtcl/keyer_ascii.c:156-190 | each item as the MIDI bytes and duration that are sent, dahs on the next note if there are two |
| MorseText.SwallowsText | sdrtcl/keyer_ascii.c:206-219 | after that no text without a backslash is queued |
| MorseText.SwallowsIffStuck | sdrtcl/keyer_ascii.c:206-219 | and only after that: in every other state some such text is |
| KeyerAscii.Keyer.Puts | sdrtcl/keyer_ascii.c:226-249 | on success exactly the items of the arguments joined by spaces are published; on failure a prefix of them and nothing staged; success whenever there is room |
| TextScript.ProsignIsOneLetter | sdrtcl/keyer_ascii.c:203-219 | a prosign is queued exactly as one letter with the joined code |
| TextScript.TextLine | sdrtcl/keyer_ascii.c:156-224 | the key line of any text is the marks and gaps of its letters, spaces added to the gap before them |
| TextRoundTrip.OnTimeLine | dspmath/midi_buffer.h:92-138 | when no record is late, the events as the detimer hears them make exactly that line |
| TextRoundTrip.TextReadsBack | sdrtcl/keyer_ascii.c:156-224 | every text, prosigns included and of any length, published in any pieces while it is being sent, scheduled over any callbacks in which it is neither starved nor held up, is written by the detimer as the codes of its letters with one space after each, or two where spaces follow |
| TextRoundTrip.PutsFollowOn | sdrtcl/keyer_ascii.c:226-249 | the records of several puts one after another are those of one with the texts joined, so the round trip is theirs too |
| TextRoundTrip.StandardTimesSuit | dspmath/morse_timing.h:46-51 | 1:3 marks and 1:3:7 spaces with a poll every d-1 frames satisfy that round trip |
| KeyerPtt.Switch.TakeEvents | sdrtcl/keyer_ptt.c:130-155 | matching notes join the delay queue up to its capacity, and the first key-down switches on |
| KeyerPtt.Switch.ReleaseNotes | sdrtcl/keyer_ptt.c:156-176 | the notes due at this frame are sent in order, and key-ups restart the hang count |
| KeyerPtt.Switch.DoFrame | sdrtcl/keyer_ptt.c:129-182 | one frame: events, delayed notes, hang count |
| KeyerPtt.Switch.Process | sdrtcl/keyer_ptt.c:121-184 | any number of frames is a run of such steps |
| KeyerPttCover.NotesAreDelayed | sdrtcl/keyer_ptt.c:140-176 | with room in the queue, the notes on or off for the key on its channel that are sent at any frame are exactly those received the delay before, in order |
| KeyerPttCover.OthersAreIgnored | sdrtcl/keyer_ptt.c:135-141 | an event on another channel, for another note, with another command or of another size changes nothing: not the state and not what is sent |
| KeyerPttCover.OursAreTaken | sdrtcl/keyer_ptt.c:140-152 | one that is none of these is queued with its delay, and if it is a key-down the switch goes on and says so on the next note with the same velocity |
| KeyerPttCover.FallIsSent | sdrtcl/keyer_ptt.c:177-181 | the switch says that it goes off with velocity zero, and only then |
| KeyerPttCover.SwitchDropsAfterHang | sdrtcl/keyer_ptt.c:177-181 | when no more notes come, the switch stays on until the hang after the last key-up has passed and goes off exactly then |
| KeyerPttCover.CoversIffHangOutlastsDelay | sdrtcl/keyer_ptt.c:121-184 | the switch is on whenever the delayed key is down, for every input that fits, if and only if the hang outlasts the delay or the delay is zero |
| KeyerPttCover.CoversWhenHangOutlastsDelay | sdrtcl/keyer_ptt.c:121-184 | one half of that: every run is covered |
| KeyerPttCover.UncoveredWhenHangTooShort | sdrtcl/keyer_ptt.c:177-181 | the other half: two dots, the second arriving as the first is released, leave the key down with the switch off |
| Ramps.FallIsRiseReversed | dspmath/ramp.h:41-43 | with equal lengths the fall table is the rise table backwards, for every window |
| Ramps.RiseGoesUp | dspmath/ramp.h:41-43 | with a window that goes up to its middle, the rise goes up from its beginning to its middle and the fall down again |
| Ramps.Ramp.constructor | dspmath/ramp.h:34-43 | an odd number of samples, at least one, filled from half of the window |
| Ramps.Ramp.Next | dspmath/ramp.h:83-86 | the next value of the table, the last one again past its end |
| KeyedTone.Keyed.SwitchOn | dspmath/keyed_tone.h:75-94 | the state and ramps after an on |
| KeyedTone.Keyed.SwitchOff | dspmath/keyed_tone.h:96-114 | the state and ramps after an off |
| KeyedTone.Keyed.Process | dspmath/keyed_tone.h:116-146 | the level of the sample and the state after it |
| KeyedTone.EnvelopeIsWhole | dspmath/keyed_tone.h:75-146 | for every interleaving of on, off and samples the envelope is silences, whole rises, holds and whole falls in that order round, then part of one ramp |
| KeyedTone.LastCommandWins | dspmath/keyed_tone.h:75-146 | after the last command the tone is steady in the state asked for exactly when its remaining ramps are done, within a rise and a fall |
| KeyedTone.SteadyLevels | dspmath/keyed_tone.h:116-146 | steady, each sample is at the full level or silent, and nothing moves |
| PacketRing.Ring.CanRead | dspmath/packet_ring_buffer.h:39 | the number of packets, as long as there are at most 63, although the pointers are 16 bits |
| PacketRing.Ring.CanWrite | dspmath/packet_ring_buffer.h:41 | 64 less that number, and so never zero |
| PacketRing.CountRightIff | dspmath/packet_ring_buffer.h:39-41 | the count read off the 16-bit pointers is right if and only if there are fewer than 64 packets |
| PacketRing.Ring.Read | dspmath/packet_ring_buffer.h:40 | the oldest packet is taken |
| PacketRing.Ring.Write | dspmath/packet_ring_buffer.h:42 | the packet goes behind the others, with at most 62 there |
| PacketPump.Pump.PacketNext | sdrtcl/hl_udp_jack.c:197-227 | the second half of the packet in hand, or the packet put away and the next one taken if there is one |
| PacketPump.Pump.FrameStart | sdrtcl/hl_udp_jack.c:300-305 | takes a packet if there is none in hand |
| PacketPump.Pump.FrameFinish | sdrtcl/hl_udp_jack.c:306-313 | moves on by a frame, and to the next half or packet when another frame would not fit |
| PacketPump.FramesInOrder | sdrtcl/hl_udp_jack.c:197-313 | for every arrival of packets, frames taken are those of the packets in order of arrival, none left out and none twice, and no packet is put away before all of its frames are taken |
| PacketPump.StridesFit | sdrtcl/hl_udp_jack.c:249-250 | the strides in use, 8 to send and 6n+2 for n receivers, fit a half, 63 frames to a half for sending |
| PacketPump.NextFrame | sdrtcl/hl_udp_jack.c:300-331 | every frame lies within the samples of one half of its packet, and there is none only when all that arrived has been taken |
| TxPacket.StoreUnsigned | sdrtcl/hl_udp_jack.c:553-560 | four bytes, high byte first, and nothing else changes |
| RegisterSettings.BigEndianRoundTrip | sdrtcl/hl_udp_jack.c:553-568 | loading what was stored gives the number back |
| TxPacket.PutSample | sdrtcl/hl_udp_jack.c:277-287 | a transmit sample goes to its eight bytes, where both parts can be read back as signed 16-bit numbers behind four zeroes, and leaves the others |
| TxPacket.SampleReadsBack | sdrtcl/hl_udp_jack.c:278-287 | any sample comes back from its eight bytes |
| TxPacket.PacketReadsBack | sdrtcl/hl_udp_jack.c:267-294 | each of the 126 samples of a packet comes back from its place |
| TxPacket.HeadersReadBack | sdrtcl/hl_udp_jack.c:631-646 | end point, sequence number, sync, register numbers, transmit bit and settings come back from a stamped packet, whatever else is in it |
| TxPacket.FramesArePlaces | sdrtcl/hl_udp_jack.c:267-294 | the frames of a packet to be sent are the places of 126 samples, in order |
| TxPacket.Scan | sdrtcl/hl_udp_jack.c:631-785 | the headers are stamped with the next sequence number and the next two registers with their settings, bit by bit from the options, and nothing else changes |
| TxPacket.NothingLeftOver | sdrtcl/hl_udp_jack.c:267-294 | 126 samples and two headers make up a packet, whatever it held before |
| TxPacket.ContentsForgotten | sdrtcl/hl_udp_jack.c:631-647 | two packets with different earlier contents, given the same samples and headers, come out the same |
| SentPackets.Sender.TxIq | sdrtcl/hl_udp_jack.c:267-294 | a sample goes into the packet in hand where the pump is, and no other packet changes; with no packet ready it is lost and counted |
| SentPackets.EveryPlaceWritten | sdrtcl/hl_udp_jack.c:197-313 | for every arrival of packets, each packet put away has been taken at each of its 126 places, in order |
| SentPackets.NothingLeaks | sdrtcl/hl_udp_jack.c:267-294 | for every run, whatever packets arrive when and whatever they hold, each packet put away and then stamped is its own 126 samples and its headers, with no byte left from before |
| SentPackets.SentReadsBack | sdrtcl/hl_udp_jack.c:267-294 | over every run, sample n of a packet put away and stamped comes back from its place as the n-th put into it |
| SentPackets.PutAreOffered | sdrtcl/hl_udp_jack.c:267-294 | the samples that went into packets are those offered while there was one, in order |
| SenderRuns.RunTracks | sdrtcl/hl_udp_jack.c:197-313 | over every run of samples, with packets of the pool going round, the packets that the pump has hold, byte for byte, what the account of all that arrived says |
| SenderRuns.PoolNeverLeaks | sdrtcl/hl_udp_jack.c:267-294 | so a packet put away at any sample, stamped as it lies in the pool, is the last 126 samples that were put and its headers |
| SenderRuns.PoolReadsBack | sdrtcl/hl_udp_jack.c:267-294 | and its n-th sample comes back as the n-th of those 126 |
| RegisterSettings.FrequencySent | sdrtcl/hl_udp_jack.c:666-679 | every receiver's frequency is in the register for that receiver, and the transmitter's in register 1 |
| RegisterSettings.ReceiversSentIff | sdrtcl/hl_udp_jack.c:661-664 | the number of receivers can be read back if and only if it is at most eight |
| RegisterSettings.SpeedAndFiltersSent | sdrtcl/hl_udp_jack.c:649-665 | the fields and flags of register 0 come back from their bits |
| RegisterSettings.LevelAndFlagsSent | sdrtcl/hl_udp_jack.c:680-703 | the level and flags of register 9 come back, and the count of the analyser or else the two filters |
| RegisterSettings.PureSignalSent | sdrtcl/hl_udp_jack.c:704-710 | bit 22 of register 0x0a is that flag |
| RegisterSettings.CwxSent | sdrtcl/hl_udp_jack.c:713-716 | bit 24 of register 0x0f is that flag, and nothing else is set |
| RegisterSettings.HangTimeSentIff | sdrtcl/hl_udp_jack.c:717-722 | any hang time can be read back if and only if it is from 0 to 1023 with bit 2 clear |
| RegisterSettings.GainSentIff | sdrtcl/hl_udp_jack.c:704-712 | the gain and the flag of the amplifier share a byte, and both come back if and only if the gain is from -12 to 51 |
| RegisterSettings.SettingsAreBytes | sdrtcl/hl_udp_jack.c:648-731 | whatever the options, four bytes are sent |
| RegisterScan.NextRegister | sdrtcl/hl_udp_jack.c:644-783 | from any index the loop ends, at the first register from there on that is sent, or the first of all |
| RegisterScan.SentIsNth | sdrtcl/hl_udp_jack.c:648-780 | every register that is sent is one of those counted |
| RegisterScan.SentAreCounted | sdrtcl/hl_udp_jack.c:648-780 | with n receivers exactly n+6 registers are sent, the n+6 that are counted |
| RegisterScan.ScanInOrder | sdrtcl/hl_udp_jack.c:639-784 | successive frames go through them in increasing order, round and round |
| RegisterScan.EachOnceEveryCycle | sdrtcl/hl_udp_jack.c:639-784 | from any index, any n+6 frames in a row refresh every register exactly once |
| OverlapSave.CircularIsFiltered | dspmath/filter_overlap_save.h:199-205 | circular convolution of two blocks with the kernel at its right end is the filter, with the first tap of the last output wrapped |
| OverlapSave.Filter.constructor | dspmath/filter_overlap_save.h:112-128 | empty, with input beginning at the second half and output at the first |
| OverlapSave.Filter.Process | dspmath/filter_overlap_save.h:237-255 | one sample in, one out; after two blocks each output is the filter at the sample L-2 before, the last of a block with the wrapped tap |
| OverlapSave.Filter.EndBlock | dspmath/filter_overlap_save.h:240-252 | the two blocks are convolved, the newer kept as the older of the next two |
| OverlapSave.StreamIsConvolution | dspmath/filter_overlap_save.h:237-255 | every output but the last of each block is the linear convolution, and that one differs by its first tap on a sample two blocks older |
| OverlapSave.LastOutputRightIff | dspmath/filter_overlap_save.h:177-200 | that last output is right if and only if the tap is zero or the two samples are equal |
| Goertzel.Filter.Process | dspmath/filter_goertzel.h:77-90 | a sample into the ring of four, and at the end of a block its energy and the measure of the recurrence over half the block size |
| Goertzel.SumIsFourierTurned | dspmath/filter_goertzel.h:78 | the recurrence stands for the Fourier sum, turned |
| Goertzel.MeasureIsSize | dspmath/filter_goertzel.h:81 | the measure taken at the end of a block is the squared size of the sum |
| Goertzel.SumHasFourierSize | dspmath/filter_goertzel.h:78-81 | which is the squared size of the Fourier sum of the block |
| Goertzel.PowerAtMostEnergy | dspmath/filter_goertzel.h:79-82 | and is at most the number of samples times their energy |
| Goertzel.ReportIsPower | dspmath/filter_goertzel.h:77-90 | power times half the block size is that squared size, with that bound |

## Left out

* Jack, Tcl, ALSA, sockets, option parsing, reconfiguration while running, and the abort path of the text sender: parameters are constants, and arguments stand for what those calls deliver.
* Frame times, durations and observations are unbounded naturals; only ring pointers and stored 32-bit durations wrap.
* The C memory model: the ring protocol is proved for sequentially consistent steps, one byte or one pointer at a time.
* The reader of the record ring running at the same time as `puts`: each is proved on its own, and their meeting only as the ring protocol.
* Floating point: filters, timing and ramps are over exact reals, and the transforms of overlap-save are taken as circular convolution; window shapes, filter design and oscillators are parameters.
- MidiBuffer.Midi.GetBuffer: the special case of a head frame of zero has no effect on unbounded frame times, so it does not appear.
- Detime.Detimer.Process: last_space is kept but never read, as in the source.
- KeyerPtt.Switch.TakeEvents: the delay queue is a sequence of at most 1024 notes, not the ring of bytes it is stored in, and a status byte is split into its command and channel.
- KeyerAscii.Keyer.QueueUnichar: a prosign is a sequence, not an array of sixteen characters, and the count of backslashes is unbounded; text after a failed prosign would run past that array.
- TextRoundTrip.TextReadsBack: dits and dahs share one note; with separate notes the detimer, which listens to one of them, hears only part.
- DetimeDecode.Decodes: two events at one frame are not modelled, since neither keyer sends a mark or space of no length.
- PacketPump.Pump.PacketNext: the abort message is left out, and packets are numbers; a cursor with no packet in hand goes on counting without wrapping.
- SenderRuns.PoolNeverLeaks: packets become ready between samples, never while one is being put, and whoever fills the ones that the pump does not have is any change to the pool.
- PacketPump.FramesInOrder: the decimation of sent frames at higher sample rates is left out; a sent frame is one that is not skipped.
- TxPacket.Scan: the push-to-talk bit is one bit, where the source would let a larger number through to the address; the options do not change during a scan.
- MorseTiming.SamplesPer.Set: lengths below minus one sample or beyond the range of an unsigned, for which the conversion in C is undefined, are left out; the product of a stretch is unbounded.
- MorseTiming.LengthsDifferByLess: settings that make a length negative, or letters further apart than words, for which the pause wraps around, are left out.
- Goertzel.Filter.Process: block sizes below two, for which the code divides by zero, are left out.
- OverlapSave.Filter.constructor: buffers begin with zeroes where the source leaves them unset; nothing is claimed about outputs before two blocks.
* framework_midi_event_init reads its first input port for every input, so with several inputs they would all be the first; the model merges whatever sources it is given.
* framework_midi_event_init returns an uninitialised sum, and sdrtcl/keyer_detime.c skips a callback in which it happens to be zero; the model takes every callback to be processed.
* The debouncer, the vk6ph, mtools and ultimatic keyers, the block and complex Goertzel routines, and the decoding of received sample bytes.
