# Verified model of the radio utilities

This project models four linked parts of the radio-utils workspace in Dafny and proves what they promise.

* **Keying.** The tick-driven keyer engine (six modes, seven states, paddle memories, text queue, PTT hang
  time, residual-carrying scheduler), the Morse encoder, and the Morse decoder. The class
  `Engine.KeyerEngine` has the fields and methods of the original; each method is proved to compute a
  function on the value type `Engine.Keyer`, and the lemmas are about those functions. The main result is
  `RoundTrip.TextRoundTrip`: text sent through the ticking engine comes back from the decoder, for every
  text, every speed and tick that keep the timing ratios legible, and any polling. Around it stand the
  safety of key and PTT over all runs, quiescence with a termination measure, freedom from drift, the meaning
  of every paddle, hold and tap, the hang time, and what the speed settings mean for the word PARIS.
* **Echo buffer.** The bounded, draining live buffer in which concurrent transmitters are mixed, its
  independent readers, and the looping recorder. The live buffer refines an unbounded timeline that holds
  the sum of everyone's samples; feeding is an action of concatenation, and two clients' feeds commute
  exactly when neither hurts the other; readers get every sample in order, and the exact condition is given
  under which a delivered sample is final. A loop recording is the newest part of its operating session,
  pauses included, and the last stop makes the loop of exactly that.
* **Emulator.** Per-client Protocol 1 state driven by frames of arbitrary bytes. Over every interleaving of
  joins, leaves and frames of any number of clients, recorder counts, frequency locks and live offsets stay
  in step, and every live buffer holds the sum of exactly the samples that the frames have fed into it. What
  one client transmits is what every reader is handed at its position (`EmulatorBuffers.TransmittedIsRead`).
* **Wire.** The 24-bit and 16-bit sample codecs with their error bounds, the interleaved frame layout and
  both parsers, the 13-slot control rotation (self-stabilising from any emulator state), and the four-slot
  status rotation (coherent reports).

## How the files fit together

| files | content |
|---|---|
| `Base`, `Samples`, `ByteBuffers` | machine integers and options; exact complex samples and mixing; writing into byte arrays |
| `KeyerConfig`, `Morse`, `TextEncoder`, `Engine` | timing configuration, code table, encoder, engine class and its specification |
| `KeyerFacts`, `KeyerRuns` | what each step changes and keeps; runs of inputs and their outputs |
| `KeyerSafety`, `KeyerQuiescence`, `KeyerDrift`, `KeyerText`, `KeyerRing` | properties of runs |
| `KeyerPaddles`, `KeyerKeys`, `KeyerStraight`, `KeyerLaws`, `KeyerTiming` | what paddles, keys, texts and speed settings mean |
| `Decoder`, `DecoderProofs`, `CodeTables`, `RoundTrip` | decoder class and specification, its refinement, the tables as inverses, the round trip |
| `LiveBuffer`, `LiveTimeline`, `Playback` | live buffer class, its refinement and algebra, readers |
| `LoopEcho`, `EchoBuffer`, `EchoTape`, `LoopTape` | what a loop commits; the shared echo buffer; any calls of it and what they have fed, live and in loops |
| `Emulator`, `Refcounts`, `EmulatorBuffers`, `EmulatorLoops` | client state class, multi-client invariants, from frames to readers and into loops |
| `IqCodec`, `RxFrames`, `StatusReports` | sample codecs, radio-to-host frames, status in both directions |
| `HostRadio`, `HostStream`, `ControlRotation`, `TxPackets` | host-to-radio frames, transmitted stream, control rotation, stand-alone packet builder |

The class `EchoBuffers.EchoBuffer` owns its live buffers as values of `LiveBuffers.Live`, as the original owns
them in its map, and calls their functions; that the class `LiveBuffers.LiveBuffer` computes these functions
in place is proved on the class.

## Where code and documentation disagree

The model follows the code.

* The comment on `schedule_phase` (crates/radio-utils-keyer/src/engine.rs:286-288) counts text gaps among
  the continuous phases. In the code text elements pass through `Idle` for one tick
  (crates/radio-utils-keyer/src/engine.rs:698-699, 834-836) and start afresh, so a macro falls
  behind by that tick and the rounding at every element: `KeyerText.MacroBounds` states the amounts.
* The comment on `feed_from` (crates/radio-utils-emu/src/radio.rs:177-182) says that the late slice is
  dropped. The code writes all samples of a late client at the drain head; `LiveTimeline.FeedsCommute`
  shows exactly when that is visible.
* Switching away from the straight-key modes while the key is down leaves the key active
  (crates/radio-utils-keyer/src/engine.rs:784-787). `KeyerSafety.ModeChange` gives the exact condition.
* Straight mode releases PTT with text still queued (crates/radio-utils-keyer/src/engine.rs:452-511), which
  no other mode does: `KeyerQuiescence.StraightDropsPtt` and `KeyerSafety.PttHeldForText`.
* In iambic A with auto-spacing, memories survive the letter space
  (crates/radio-utils-keyer/src/engine.rs:839-854), so an element can follow a release:
  `KeyerPaddles.IambicARelease` gives the exact condition.
* The stand-alone parser takes the supply voltage from the response 0x18
  (crates/radio-utils-protocol/src/packets.rs:126-128), the streaming client from 0x10
  (crates/radio-utils-protocol/src/protocol1.rs:959-962): `StatusReports.ParsersAgree`.
* The comment on status accumulation (crates/radio-utils-protocol/src/protocol1.rs:931-936) promises one
  rotation per status. That holds from the second status on, and the PTT flag belongs to the response that
  triggered it: `StatusReports.StatusCoherent`.

## Model

| member | source | states |
|---|---|---|
| KeyerConfig.Config.DotDurationUs | crates/radio-utils-keyer/src/config.rs:179-181 | A dot is the floor of 1.2 s over the speed (at least 1), hence between 4705 and 1 200 000 µs |
| KeyerConfig.Config.DashDurationUs | crates/radio-utils-keyer/src/config.rs:184-198 | Dash by weight or dynamic ratio as an exact floor; never shorter than a dot and never above 14 s |
| KeyerConfig.Config.EffectiveDotUs | crates/radio-utils-keyer/src/config.rs:201-203 | With keying compensation a dot never gets shorter |
| KeyerConfig.Config.LetterGapUs | crates/radio-utils-keyer/src/config.rs:216-221 | Never shorter than three dots, with or without Farnsworth spacing |
| KeyerConfig.Config.WordGapUs | crates/radio-utils-keyer/src/config.rs:224-229 | Never shorter than seven dots, with or without Farnsworth spacing |
| Morse.CharToMorse | crates/radio-utils-keyer/src/morse.rs:72-78 | The table search finds the pattern of the first row with the upper-cased character, and nothing otherwise |
| Morse.PatternWellFormed | crates/radio-utils-keyer/src/morse.rs:14-69 | Every pattern of the table is a non-empty string of dots and dashes |
| Morse.PatternInjective | crates/radio-utils-keyer/src/morse.rs:14-69 | No two characters share a pattern, up to ASCII case |
| TextEncoder.TextToElements | crates/radio-utils-keyer/src/morse.rs:88-138 | The push-and-pop loop yields the elements the text means; none of its clean-ups ever removes anything |
| TextEncoder.ElementsStructure | crates/radio-utils-keyer/src/morse.rs:88-138 | Keyed elements are always separated by gaps, and no letter or element gap begins or ends a message |
| TextEncoder.ElementsConcat | crates/radio-utils-keyer/src/morse.rs:88-138 | Encoding a concatenation is encoding the parts, the second with the flag the first leaves |
| TextEncoder.SpaceJoins | crates/radio-utils-keyer/src/morse.rs:88-138 | For all texts `s`, `t`: a space between them contributes exactly one word gap |
| TextEncoder.ElementsInjective | crates/radio-utils-keyer/src/morse.rs:88-138 | Two texts of known characters and spaces with the same elements are equal up to ASCII case |
| Engine.KeyerEngine.constructor | crates/radio-utils-keyer/src/engine.rs:144-167 | A new engine is idle, key up, PTT off, with empty queue and ring |
| Engine.KeyerEngine.SetPaddle | crates/radio-utils-keyer/src/engine.rs:175-215 | The new state is that of the specification: rising edges latched through the timing gate, last paddle remembered |
| Engine.KeyerEngine.SendText | crates/radio-utils-keyer/src/engine.rs:218-222 | The elements of the text are appended to the queue |
| Engine.KeyerEngine.AbortText | crates/radio-utils-keyer/src/engine.rs:225-228 | The queue is emptied and text mode left; nothing else changes |
| Engine.KeyerEngine.UpdateConfig | crates/radio-utils-keyer/src/engine.rs:169-171 | Only the configuration changes |
| Engine.KeyerEngine.DrainTransitions | crates/radio-utils-keyer/src/engine.rs:234-240 | Returns the recorded edges in order and empties the ring |
| Engine.KeyerEngine.IsActive | crates/radio-utils-keyer/src/engine.rs:243-245 | Active exactly when not idle, on the air or with text queued |
| Engine.KeyerEngine.RecordTransition | crates/radio-utils-keyer/src/engine.rs:252-260 | The ring keeps the newest 64 edges in order |
| Engine.KeyerEngine.SchedulePhase | crates/radio-utils-keyer/src/engine.rs:300-307 | The next deadline follows the old one if that expired within the last tick, and the clock otherwise |
| Engine.KeyerEngine.MaybeEmitPtt | crates/radio-utils-keyer/src/engine.rs:316-326 | PTT is requested exactly when it changes |
| Engine.KeyerEngine.StartElementKeyed | crates/radio-utils-keyer/src/engine.rs:363-374 | Starts an element, uses up its memory, and keys or first asks for PTT |
| Engine.KeyerEngine.DispatchTextElement | crates/radio-utils-keyer/src/engine.rs:377-398 | Keyed elements start, gaps wait for their duration |
| Engine.KeyerEngine.HandleHangTime | crates/radio-utils-keyer/src/engine.rs:401-409 | Counts with saturation and releases PTT at the limit |
| Engine.KeyerEngine.EnterIdleFromDelay | crates/radio-utils-keyer/src/engine.rs:420-437 | Idle with everything of the session forgotten |
| Engine.KeyerEngine.Tick | crates/radio-utils-keyer/src/engine.rs:442-450 | One tick in any mode has the result of the specification |
| Engine.KeyerEngine.TickStraight | crates/radio-utils-keyer/src/engine.rs:452-511 | Straight key with debounced release |
| Engine.KeyerEngine.TickBug | crates/radio-utils-keyer/src/engine.rs:513-541 | Automatic dots, manual dashes |
| Engine.KeyerEngine.TickSinglePaddle | crates/radio-utils-keyer/src/engine.rs:547-660 | Short press dot, long press dash, with the upgrade of a running dot |
| Engine.KeyerEngine.TickIambicInner | crates/radio-utils-keyer/src/engine.rs:662-789 | The seven states of the iambic machine |
| Engine.KeyerEngine.ResolveUltimatic | crates/radio-utils-keyer/src/engine.rs:793-829 | The side to send next is the last pressed one, if active |
| Engine.KeyerEngine.ResolveDelayTail | crates/radio-utils-keyer/src/engine.rs:833-857 | Text, letter space or idle, in this order |
| Engine.KeyerEngine.ResolveAfterDitDelay | crates/radio-utils-keyer/src/engine.rs:860-886 | Opposite side first after a dot |
| Engine.KeyerEngine.ResolveAfterDashDelay | crates/radio-utils-keyer/src/engine.rs:889-913 | Opposite side first after a dash |
| KeyerSafety.TickSafe | crates/radio-utils-keyer/src/engine.rs:442-790 | In every mode, one tick makes only a legal output (alternating key edges within PTT, alternating PTT with the key up) and keeps the engine safe |
| KeyerSafety.RunSafe | crates/radio-utils-keyer/src/engine.rs:169-279 | Over any run of paddles, texts, aborts, ticks and allowed reconfigurations, every output is legal on the lines the outputs before it left |
| KeyerSafety.FixedModeSafe | crates/radio-utils-keyer/src/engine.rs:442-790 | From a fresh engine with a fixed mode, any run whatever keys legally: key-down and key-up strictly alternate inside PTT spans |
| KeyerSafety.ModeChange | crates/radio-utils-keyer/src/engine.rs:784-787 | A safe engine stays safe over all later runs if and only if the new mode is not taken away from under a sounding straight key |
| KeyerSafety.SecondKeyDown | crates/radio-utils-keyer/src/engine.rs:784-787 | The failing family: a sounding straight key left by a mode change emits a second key-down after two ticks and a press |
| KeyerSafety.OrphanReachable | crates/radio-utils-keyer/src/engine.rs:452-511 | Every straight-mode configuration reaches that family: press, two ticks, change of mode |
| KeyerSafety.PttDroppedWithText | crates/radio-utils-keyer/src/engine.rs:401-511 | A tick drops PTT with text queued if and only if the engine is an idle straight key with nothing held whose hang time runs out on this tick |
| KeyerSafety.PttHeldForText | crates/radio-utils-keyer/src/engine.rs:401-413 | Outside straight mode no tick, from any state, releases PTT while text is queued |
| KeyerQuiescence.StraightDropsPtt | crates/radio-utils-keyer/src/engine.rs:452-511 | Straight mode never looks at the queue: it releases PTT with text queued, and the text stays queued |
| KeyerQuiescence.TickProgress | crates/radio-utils-keyer/src/engine.rs:442-857 | With nothing pressed and nothing queued, every tick before rest lowers the measure by a tick and pays for its key-downs out of the budget |
| KeyerQuiescence.Quiescence | crates/radio-utils-keyer/src/engine.rs:401-511 | Once the ticks outlast the measure, any calm engine is idle with key up and PTT off for good, after at most one element per usable memory and one pending element, also with saturating hang time; it reports itself inactive unless straight mode holds queued text |
| KeyerQuiescence.FixedModeCalm | crates/radio-utils-keyer/src/engine.rs:175-236 | A run that keeps its mode leaves an engine to which the previous result applies as soon as paddles are up and the queue is empty |
| KeyerDrift.TickChained | crates/radio-utils-keyer/src/engine.rs:300-313 | A paddle-driven phase, also the last one, ends at the first tick that reaches its deadline, less than a tick late, and the next deadline is the old one plus the exact duration |
| KeyerDrift.NoDrift | crates/radio-utils-keyer/src/engine.rs:281-313 | After any number of phases of an unbroken run, in all modes that time elements and through speed changes, the deadline is the first one plus the exact sum of the durations |
| KeyerDrift.FreshStart | crates/radio-utils-keyer/src/engine.rs:300-307 | A press in idle starts such a run: its deadline is the tick that saw it plus the duration |
| KeyerPaddles.HeldTick | crates/radio-utils-keyer/src/engine.rs:683-769 | A held engine changes phase exactly at the tick that reaches the deadline, to the phase its mode prescribes |
| KeyerPaddles.HeldWave | crates/radio-utils-keyer/src/engine.rs:860-913 | For holds of any length: iambic modes alternate for ever, Ultimatic repeats the last-pressed side, and state and deadline are those of an ideal wave sampled at the ticks |
| KeyerPaddles.MemoriesSendOnce | crates/radio-utils-keyer/src/engine.rs:793-913 | After release, each remembered side is sent exactly once and nothing else, in iambic B, and in iambic A when auto-spacing adds a letter space |
| KeyerPaddles.OppositeTapOnce | crates/radio-utils-keyer/src/engine.rs:353-359 | Iambic B, whatever the element's own paddle does during and after the tap: an opposite tap within the element sends, over any later run, at most one opposite element and only if it began while more of the element than the timing percentage was still to come, and exactly one then once both paddles are up |
| KeyerPaddles.OppositeTap | crates/radio-utils-keyer/src/engine.rs:353-359 | The same when both paddles are let go together, and then none of the own side |
| KeyerPaddles.IambicARelease | crates/radio-utils-keyer/src/engine.rs:833-857 | Iambic A: after the release of both paddles no further element is sent, exactly unless auto-spacing adds a letter space and a side was remembered |
| KeyerKeys.OnlySide | crates/radio-utils-keyer/src/engine.rs:175-215 | With only one paddle ever down, over any run in the iambic modes and Ultimatic, everything started is that paddle's element: dit paddle dits, dash paddle dashes, exchanged exactly when the keys are reversed |
| KeyerKeys.HoldOne | crates/radio-utils-keyer/src/engine.rs:662-769 | A fresh engine with one paddle held sends that paddle's element and gap from the first tick on, for any time, each beginning exactly where the one before ended |
| KeyerStraight.StraightPressed | crates/radio-utils-keyer/src/engine.rs:452-472 | A press in idle sounds on the same tick, or on the next after asking for PTT |
| KeyerStraight.StraightHeld | crates/radio-utils-keyer/src/engine.rs:501-506 | Held for any number of ticks it emits nothing and stays down |
| KeyerStraight.StraightStays | crates/radio-utils-keyer/src/engine.rs:481-506 | A sounding straight key emits nothing and stays down through any pressing and releasing that is never up for 20 ms on end |
| KeyerStraight.StraightReleases | crates/radio-utils-keyer/src/engine.rs:481-500 | The key-up comes exactly at the first tick on which the paddles have been up for 20 ms on end |
| KeyerStraight.BugPressed | crates/radio-utils-keyer/src/engine.rs:513-526 | The dash paddle of an idle bug sounds on the same tick, or on the next after asking for PTT |
| KeyerStraight.BugFollows | crates/radio-utils-keyer/src/engine.rs:528-537 | A manual dash sounds as long as every tick finds its paddle down, and ends at the first that does not |
| KeyerStraight.ShortPress | crates/radio-utils-keyer/src/engine.rs:574-582 | Single paddle let go within the dit: key-up at once, the next element as after a full dit, and nothing more keyed |
| KeyerStraight.LongPress | crates/radio-utils-keyer/src/engine.rs:583-594 | Single paddle held past the dit: the key stays down for exactly a dash from the beginning |
| KeyerStraight.SqueezeSendsLast | crates/radio-utils-keyer/src/engine.rs:793-829 | Ultimatic: once the second paddle joins, every element started is the second one's, for holds of any length |
| KeyerStraight.HangTime | crates/radio-utils-keyer/src/engine.rs:401-409 | In every mode PTT goes off once, at exactly the tick on which the hang time is over |
| KeyerLaws.HeldIsRemembered | crates/radio-utils-keyer/src/engine.rs:683-692 | A held opposite paddle is remembered during an element at any tick in iambic A, and exactly inside the memory window in iambic B and Ultimatic |
| KeyerLaws.TextsQueueUp | crates/radio-utils-keyer/src/engine.rs:218-222 | Texts queue up in order behind what is there |
| KeyerLaws.OnlyTheConfiguration | crates/radio-utils-keyer/src/engine.rs:169-171 | A new configuration leaves everything else as it is |
| KeyerLaws.PaddleInterrupts | crates/radio-utils-keyer/src/engine.rs:202-215 | A press ends the text, and is not itself remembered as an element |
| KeyerLaws.BugDits | crates/radio-utils-keyer/src/engine.rs:662-667 | An idle bug with both paddles down sends a dit |
| KeyerLaws.AutoSpacing | crates/radio-utils-keyer/src/engine.rs:839-848 | The letter space ends a whole letter gap after the element |
| KeyerLaws.PressInLetterSpace | crates/radio-utils-keyer/src/engine.rs:772-776 | A press in a letter space starts an element of full length on the next tick |
| KeyerLaws.InactiveIsSilent | crates/radio-utils-keyer/src/engine.rs:243-245 | An engine that is not active and remembers nothing emits nothing, for ever |
| KeyerLaws.TwoTexts | crates/radio-utils-keyer/src/engine.rs:218-222 | Two texts given to a fresh engine are keyed exactly one after the other |
| KeyerRing.RingIsNewest | crates/radio-utils-keyer/src/engine.rs:252-260 | The ring is always the newest 64 of the key edges that the run puts out, each with the time of its tick |
| KeyerTiming.DotFillsMinute | crates/radio-utils-keyer/src/config.rs:179-181 | As many words of 50 dots as the speed says fill a minute, to within the rounding of a dot |
| KeyerTiming.DashByWeight | crates/radio-utils-keyer/src/config.rs:184-198 | By weight a dash is `weight / 25` dots longer than a dot, rounded down; weight 50 makes exactly three dots |
| KeyerTiming.DashByRatio | crates/radio-utils-keyer/src/config.rs:184-198 | By dynamic ratio a dash lies between 2.4 and 3 dots, at 2.4 from the upper speed on |
| KeyerTiming.Compensation | crates/radio-utils-keyer/src/config.rs:206-208 | Compensation lengthens every key-down by its milliseconds and no gap |
| KeyerTiming.TextUs | crates/radio-utils-keyer/src/config.rs:216-221 | The time of any text at standard weight: its characters in dots, its spacing in gap units |
| KeyerTiming.ParisSpeed | crates/radio-utils-keyer/src/config.rs:233-242 | PARIS takes 50 dots, and with Farnsworth spacing as long as at the Farnsworth speed, to within the rounding |
| KeyerText.ElementRun | crates/radio-utils-keyer/src/engine.rs:377-398 | One queued element from idle to idle: its edges and the clock at its end, exactly |
| KeyerText.MacroTiming | crates/radio-utils-keyer/src/engine.rs:672-705 | For any queue, speed and tick: an engine left alone produces exactly the pulses of the ideal timing, however long it ticks on |
| KeyerText.MacroBounds | crates/radio-utils-keyer/src/engine.rs:698-836 | Key-downs last within a tick of their duration (a tick less after PTT), single gaps are two ticks longer up to three |
| Decoder.Decoder.OnTransition | crates/radio-utils-cw-decoder/src/lib.rs:92-108 | Edges have the effect of the specification on line, accumulator, space flag and log; the history stays the last 32 characters of the log |
| Decoder.Decoder.Poll | crates/radio-utils-cw-decoder/src/lib.rs:118-125 | Polls have the effect of the specification |
| Decoder.Decoder.Snapshot | crates/radio-utils-cw-decoder/src/lib.rs:129-139 | Copies the history in order, as much as fits, and changes nothing else |
| Decoder.Decoder.Clear | crates/radio-utils-cw-decoder/src/lib.rs:154-159 | Line, accumulator, space flag and history as at the start; the time of the last transition stays |
| Decoder.Decoder.ProcessGap | crates/radio-utils-cw-decoder/src/lib.rs:183-195 | Character at two dots, one space at six |
| Decoder.Decoder.PushChar | crates/radio-utils-cw-decoder/src/lib.rs:207-212 | Appends to the log; the ring evicts the oldest |
| Decoder.HistoryIsNewest | crates/radio-utils-cw-decoder/src/lib.rs:207-212 | The history is the last 32 characters decoded |
| DecoderProofs.ClearForgets | crates/radio-utils-cw-decoder/src/lib.rs:154-159 | After a reset any alternating edges and polls are decoded as from the start |
| DecoderProofs.GapTwice | crates/radio-utils-cw-decoder/src/lib.rs:183-195 | Processing a gap early and again at its full length is processing it once |
| DecoderProofs.PollTransparency | crates/radio-utils-cw-decoder/src/lib.rs:118-125 | For alternating edges with any polls between them at any times, the whole state is that of the edges alone, polled once at the end |
| DecoderProofs.ReadingRefined | crates/radio-utils-cw-decoder/src/lib.rs:92-195 | After the edges of any pulses the log is a pure reading of their lengths and gaps, and the accumulator the packed open pattern; characters of more than six elements vanish |
| DecoderProofs.LogRefined | crates/radio-utils-cw-decoder/src/lib.rs:92-212 | The same with polls, plus the open character after two dots of silence and one space after six |
| CodeTables.LetterOfKnown | crates/radio-utils-cw-decoder/src/lib.rs:230-277 | The decoder table inverts the encoder table on the characters it knows and drops the others |
| RoundTrip.StandardLegible | crates/radio-utils-keyer/src/config.rs:179-181 | Standard weight without Farnsworth or compensation is legible at every speed with ticks of at most a third of a dot |
| RoundTrip.PatternRead | crates/radio-utils-cw-decoder/src/lib.rs:161-181 | A pattern keyed by the engine with its tick jitter is read as itself |
| RoundTrip.TextCaught | crates/radio-utils-keyer/src/engine.rs:377-398 | The pulses of any text are read as the text should be heard |
| RoundTrip.HeardIsTidy | crates/radio-utils-keyer/src/morse.rs:88-138 | What is heard is the text upper-cased, unknown characters dropped, space runs collapsed, outer spaces trimmed |
| RoundTrip.TextRoundTrip | crates/radio-utils-cw-decoder/src/lib.rs:161-212 | Text sent by a fresh ticking engine in any mode but Straight comes back from the decoder exactly, for any text, legible speed and tick, any polls, and a last poll two to six dots after the last edge |
| LiveBuffers.LiveBuffer.RestartWithEpoch | crates/radio-utils-emu/src/radio.rs:158-163 | An empty buffer of the new epoch |
| LiveBuffers.LiveBuffer.StartClient | crates/radio-utils-emu/src/radio.rs:168-171 | The client begins at the write head |
| LiveBuffers.LiveBuffer.StopClient | crates/radio-utils-emu/src/radio.rs:173-175 | Only its offset is removed |
| LiveBuffers.LiveBuffer.FeedFrom | crates/radio-utils-emu/src/radio.rs:183-210 | In-place mixing, growing and draining give the specified buffer; a late client lands at the drain head |
| LiveTimeline.RunKeepsWindow | crates/radio-utils-emu/src/radio.rs:148-210 | After any interleaving of starts, feeds and stops by any clients the buffer is the window from `drained` on of the unbounded timeline of sums; it holds as many of the newest samples as its bound allows, offsets stay within it, `drained` only grows |
| LiveTimeline.SessionRefinesTimeline | crates/radio-utils-emu/src/radio.rs:148-210 | As long as nobody is late, writes, offsets and head are those of a timeline that is never drained |
| LiveTimeline.FeedPieces | crates/radio-utils-emu/src/radio.rs:183-210 | Feeding `a` and then `b` is feeding `a + b`, also across draining |
| LiveTimeline.FeedsCommute | crates/radio-utils-emu/src/radio.rs:183-210 | Feeds of two clients commute if and only if each either drains nothing or leaves the other's offset within the capacity of the new write head |
| Playback.EchoPlaybackState.CopyLive | crates/radio-utils-emu/src/radio.rs:680-720 | A read of one frequency returns the specified samples and moves only its own cursor |
| Playback.DeliveredAsRead | crates/radio-utils-emu/src/radio.rs:700-720 | The logged deliveries are what the read returns before its silence |
| Playback.DeliveredFromTimeline | crates/radio-utils-emu/src/radio.rs:700-720 | Every delivered sample is the timeline's sum at its position |
| Playback.ReaderInOrder | crates/radio-utils-emu/src/radio.rs:654-748 | Positions strictly increase within a session, and only drained samples are skipped |
| Playback.FinalIff | crates/radio-utils-emu/src/radio.rs:183-210 | A position below the write head can never change again if and only if every active client lands behind it |
| Playback.DeliveredIsFinal | crates/radio-utils-emu/src/radio.rs:700-718 | What is delivered while recording never changes, if all offsets are within the delay of the write head |
| Playback.ReadsDrain | crates/radio-utils-emu/src/radio.rs:705-720 | Reads of any sizes deliver every readable sample that is left once and in order, then silence; after the last stop that is everything |
| Playback.ReadsInNumbers | crates/radio-utils-emu/src/radio.rs:680-720 | Output `j` of reads of any sizes from where the reader is: the timeline's sum there if it is behind the write head, by more than 1024 samples while someone is recording, and silence otherwise |
| Playback.ReadMoves | crates/radio-utils-emu/src/radio.rs:680-720 | A read moves the reader by exactly what it was given |
| Playback.EchoPlaybackState.CopyLoop | crates/radio-utils-emu/src/radio.rs:607-621 | The wrapping copy ends and returns the periodic extension from the cursor |
| Playback.LoopReadsPeriodic | crates/radio-utils-emu/src/radio.rs:607-621 | Reads of any chunk sizes concatenate to the periodic extension |
| LoopEcho.TrimEdges | crates/radio-utils-emu/src/radio.rs:513-530 | Trimming by the two searches equals trimming by definition |
| LoopEcho.TrimExact | crates/radio-utils-emu/src/radio.rs:513-530 | Only silence at the edges is removed; nothing is left exactly of silence |
| LoopEcho.CrossFade | crates/radio-utils-emu/src/radio.rs:549-562 | The in-place blend reads only original samples |
| LoopEcho.Commit | crates/radio-utils-emu/src/radio.rs:494-562 | The committed loop is the specified one |
| LoopEcho.CommittedLength | crates/radio-utils-emu/src/radio.rs:494-571 | A commit is never longer than the bound and empty only for silence, so playback ends |
| LoopEcho.CommittedSamples | crates/radio-utils-emu/src/radio.rs:513-562 | In numbers: half a second of silence behind the recorded samples, 40 ms or a quarter faded; outside the fade every sample is the recorded one, inside each component lies between the two it blends, and the first is the one that followed the last |
| EchoBuffers.EchoBuffer.StartRecording | crates/radio-utils-emu/src/radio.rs:302-377 | Recorder, live buffer and epoch are those specified; short pauses continue a loop recording |
| EchoBuffers.EchoBuffer.Feed | crates/radio-utils-emu/src/radio.rs:384-419 | Only active frequencies record; a loop keeps the newest samples |
| EchoBuffers.EchoBuffer.StopRecording | crates/radio-utils-emu/src/radio.rs:425-466 | Count, offset and commit on the last release |
| EchoBuffers.EchoBuffer.CommitFreq | crates/radio-utils-emu/src/radio.rs:475-572 | Nothing for silence or frequency 0, else the committed loop |
| Emulator.UnpackTxIq | crates/radio-utils-emu/src/radio.rs:758-768 | The samples of all blocks that fit |
| Emulator.ClientState.ProcessControl | crates/radio-utils-emu/src/protocol1.rs:166-229 | Every control address has the specified effect, and the result says whether PTT changed |
| Emulator.ClientState.ProcessHostFrame | crates/radio-utils-emu/src/protocol1.rs:242-296 | The synchronous path gives the specified state on data packets and nothing otherwise |
| Emulator.ClientState.HandleHostData | crates/radio-utils-emu/src/protocol1.rs:298-363 | The asynchronous path gives the same specified state |
| Emulator.OutOfSync | crates/radio-utils-emu/src/protocol1.rs:243-253 | A sub-frame without its three sync bytes, and a frame that is too short, have no effect |
| Emulator.DataPacket | crates/radio-utils-emu/src/protocol1.rs:246-248 | Data packets are exactly those that begin with EF FE 01 |
| Emulator.ClientState.Release | crates/radio-utils-emu/src/protocol1.rs:628-636 | A leaving client gives its recorder back |
| Refcounts.SubframeFollows | crates/radio-utils-emu/src/protocol1.rs:242-296 | A sub-frame of any bytes moves counts and offsets exactly with the frequency lock |
| Refcounts.RunInStep | crates/radio-utils-emu/src/protocol1.rs:166-363 | Counts, locks and offsets stay in step over any steps |
| Refcounts.EmulatorInStep | crates/radio-utils-emu/src/protocol1.rs:628-636 | In every run of any number of clients and frames of any bytes: each count is the number of clients locked to that frequency, locks are set exactly during PTT, and live offsets belong to exactly those clients |
| EchoTape.TapeWindows | crates/radio-utils-emu/src/radio.rs:302-466 | After any interleaving of starts, feeds and stops on any frequencies, every live buffer is the window of the sum of exactly the samples fed since its last restart |
| EchoTape.TapeLoops | crates/radio-utils-emu/src/radio.rs:475-571 | After any calls every committed loop is non-empty, not on frequency 0, and within the maximum duration at the highest rate used |
| EchoTape.TapeSized | crates/radio-utils-emu/src/radio.rs:346-357 | After any calls, every live buffer has the capacity of the maximum duration at its first client's rate |
| LoopTape.LoopKept | crates/radio-utils-emu/src/radio.rs:302-419 | Loop mode: after any calls, every recording is the newest part of its session, told from the calls alone: all that was fed since it began, with the silence of pauses under 30 s |
| LoopTape.LoopFull | crates/radio-utils-emu/src/radio.rs:402-418 | With one sample rate, that is as much of it as the maximum duration holds |
| LoopTape.LastStopCommits | crates/radio-utils-emu/src/radio.rs:425-466 | The last stop makes the loop of exactly what is kept; earlier stops, silence and other frequencies leave the loops alone |
| LoopTape.NoLoopAtZero | crates/radio-utils-emu/src/radio.rs:482-486 | Frequency 0 never gets a loop |
| EchoBuffers.SamplesInFloor | crates/radio-utils-emu/src/radio.rs:400-403 | A number of samples is rate times seconds, rounded down |
| EchoTape.FedIsRead | crates/radio-utils-emu/src/radio.rs:654-720 | A read that reaches a fed sample in the same session returns it on top of what the other feeds put there |
| EmulatorBuffers.RunIsCalls | crates/radio-utils-emu/src/protocol1.rs:242-363 | A run of any steps does to the echo buffer exactly the calls computed from its frames |
| EmulatorBuffers.EmulatorSound | crates/radio-utils-emu/src/protocol1.rs:242-363 | In every run of the emulator each live buffer is the window of the sum of exactly the samples its clients' frames have fed since the last restart, and each committed loop is playable and bounded |
| EmulatorBuffers.TransmittedIsRead | crates/radio-utils-emu/src/radio.rs:654-720 | From one client's host to any reader: a transmitted sample is returned at its timeline position as its quantised conjugate, on top of what all other feeds of the session put there |
| EmulatorBuffers.LockIsFromKeying | crates/radio-utils-emu/src/protocol1.rs:269-291 | The frequency lock is the transmit frequency of the sub-frame with which PTT went on last, whatever is commanded after that |
| EmulatorLoops.EmulatorRecords | crates/radio-utils-emu/src/protocol1.rs:242-363 | In every run in loop mode, each recording is the newest part of what the frames have fed in its session |
| EmulatorLoops.TransmittedIsRecorded | crates/radio-utils-emu/src/protocol1.rs:242-296 | A sub-frame of a client's host with PTT on adds to the session the quantised conjugates of its samples, and silence up to 63 |
| EmulatorLoops.ReleaseCommits | crates/radio-utils-emu/src/protocol1.rs:284-291 | The last client to release PTT or leave makes the loop of exactly what the frames have recorded |
| IqCodec.Exact24 | crates/radio-utils-protocol/src/types.rs:257-312 | Every 24-bit integer comes back from its bytes |
| IqCodec.QuantiseError | crates/radio-utils-protocol/src/types.rs:287-301 | Truncating to `max` steps and reading in units of `max + 1` is off by less than two units |
| IqCodec.PackIq24BitInto | crates/radio-utils-protocol/src/types.rs:293-312 | Writes exactly the six bytes and returns the next offset |
| IqCodec.IqRoundTrip | crates/radio-utils-protocol/src/types.rs:257-312 | A sample in range comes back within 2 / 2^23 per component: conjugated from the radio side, as itself from the host side |
| RxFrames.FillSubframe | crates/radio-utils-emu/src/protocol1.rs:488-502 | The interleaved rows, the silent microphone and the zero padding fill the sub-frame as specified, leaving the rest of the buffer |
| RxFrames.ParseRadioSubframe | crates/radio-utils-protocol/src/protocol1.rs:969-999 | Each channel gets the samples at its positions, for every number of channels |
| RxFrames.ParseRxPacket | crates/radio-utils-protocol/src/packets.rs:58-103 | A result exactly for packets in sync, with the same samples and the status of both responses |
| RxFrames.PacketRoundTrip | crates/radio-utils-emu/src/protocol1.rs:370-524 | For every number of channels, parsing a built packet gives 2 * (504 / (6 n + 2)) samples per channel, each within 2 / 2^23 of the conjugate, and both parsers agree |
| RxFrames.WireFormat | crates/radio-utils-emu/src/protocol1.rs:488-502 | The position of every sample in numbers, I before Q, each as 24-bit two's complement with the most significant byte first |
| StatusReports.VersionResponse | crates/radio-utils-emu/src/protocol1.rs:396-401 | The first slot carries no overflow and both firmware versions |
| StatusReports.PowerReadings | crates/radio-utils-emu/src/protocol1.rs:402-436 | Forward and exciter readings are the square roots of drive times envelope on their scales, rounded down, and the reflected one at most 13 % of forward but at least one count |
| StatusReports.ParsersAgree | crates/radio-utils-protocol/src/packets.rs:110-131 | Both parsers keep the same status fields, except that they take the supply voltage from different responses; exactly when the supplies agree |
| StatusReports.Responder.FillSubframeSync | crates/radio-utils-emu/src/protocol1.rs:370-503 | Header of the current rotation index, then the samples; the index advances |
| StatusReports.Responder.BuildDataPacketSync | crates/radio-utils-emu/src/protocol1.rs:505-520 | The whole packet, with the wrapping sequence number |
| StatusReports.Receiver.ParseSubframe | crates/radio-utils-protocol/src/protocol1.rs:910-1009 | Status and samples of a sub-frame in sync, nothing otherwise |
| StatusReports.StatusCoherent | crates/radio-utils-protocol/src/protocol1.rs:937-967 | From any starting slot: one emission per rotation, with the fields of exactly the four responses before it and the PTT of the response that triggered it |
| StatusReports.EmulatorStatus | crates/radio-utils-emu/src/protocol1.rs:385-439 | Against the emulator: every status after the first carries its readings from the four sub-frames of one rotation |
| ControlRotation.ObeyControl | crates/radio-utils-protocol/src/protocol1.rs:773-863 | What the command of each of the 13 slots makes of any emulator state: its own settings become the client's, PTT with them, and nothing else changes |
| HostRadio.Protocol1Client.FillHostSubframe | crates/radio-utils-protocol/src/protocol1.rs:661-770 | The sub-frame written: with PTT on it carries the oldest 63 samples of buffer and ring, or all, which leave the stream; without PTT none |
| HostRadio.Protocol1Client.SendHostDataPacket | crates/radio-utils-protocol/src/protocol1.rs:637-659 | The whole packet: sequence number and the next two sub-frames of rotation and stream |
| HostRadio.BlockAudio | crates/radio-utils-protocol/src/protocol1.rs:699-705 | The audio bytes are the in-phase sample on both channels, or silence in CW mode |
| HostRadio.FilterBoardFollows | crates/radio-utils-protocol/src/protocol1.rs:779-799 | Filter board outputs by the band in use: the transmit one under PTT, the first receiver's otherwise |
| HostRadio.AlexFollows | crates/radio-utils-protocol/src/protocol1.rs:820-827 | Low-pass by transmit band, high-pass by receive band |
| HostRadio.Attenuator | crates/radio-utils-protocol/src/protocol1.rs:829-861 | The attenuation reaches the radio in both of its slots |
| HostStream.NothingLost | crates/radio-utils-protocol/src/protocol1.rs:675-731 | Over any production and sub-frames: what was sent followed by what is left is what there was followed by what was produced |
| HostStream.SentInARow | crates/radio-utils-protocol/src/protocol1.rs:675-731 | With PTT on, `k` sub-frames carry together the first 63 k samples of the stream, or all; without PTT none |
| HostStream.StreamHeard | crates/radio-utils-emu/src/radio.rs:758-768 | The emulator hears `k` sub-frames in a row as the quantised conjugates of the stream in order, then silence |
| ControlRotation.DeliverPatches | crates/radio-utils-emu/src/protocol1.rs:166-229 | Exactly what any sequence of deliveries leaves: each setting is the client's if its slot arrived and unchanged otherwise |
| ControlRotation.Stabilises | crates/radio-utils-protocol/src/protocol1.rs:773-863 | From any emulator state, once all slots arrived in any order with losses and duplicates, all settings agree, if and only if the rate is supported and the number of DDCs is 1 to 8 |
| ControlRotation.SevenPackets | crates/radio-utils-protocol/src/protocol1.rs:773-776 | Seven packets without loss are enough from any index |
| ControlRotation.WireStabilises | crates/radio-utils-protocol/src/protocol1.rs:661-671 | The same for the bytes on the wire, with any samples and with or without echo |
| ControlRotation.HostSamplesHeard | crates/radio-utils-emu/src/radio.rs:758-768 | The emulator takes from a client's sub-frame the quantised conjugates of the samples sent, then silence |
| ControlRotation.HeardNear | crates/radio-utils-protocol/src/protocol1.rs:706-712 | Each within 2 / 2^15 of the conjugate |
| TxPackets.SharesInOrder | crates/radio-utils-protocol/src/packets.rs:170-203 | The two sub-frames carry the first 126 samples in order |
| TxPackets.BuildTxPacket | crates/radio-utils-protocol/src/packets.rs:149-224 | Both sub-frames are byte for byte those of the streaming client in CW mode |

A row whose member is a class method states its whole new state as a function of the old one; the function
has the same name in the value type beside the class, and the lemmas are about it.

## Left out

- Clock width: times are natural numbers; the wrap-around of 64-bit microseconds is not modelled. The hang counter and its limit saturate as in the source.
- Rounding: samples, weights and powers are exact reals and timing fractions are exact floors, where the source computes in 64-bit floating point; NaN and infinities do not occur.
- Crossfade weights: any weights from 0 to 1 that begin with 0, instead of the half-Hann formula.
- Maximum duration of echoes: any real number of seconds; changing it between calls is not part of a run.
- Signal shaping: noise, frequency shift, band selection and attenuation of playback, the sidetone and the tracking of the transmit envelope.
- StatusReports.Responder.FillSubframeSync: the samples of the channels are inputs, because they come out of playback with its frequency shift and noise; the power readings are computed from a given envelope.
- StatusReports.EmulatorStatus: the transmit envelope behind the power readings is an input.
- Summing playback over several frequencies: each frequency's turn of the playback loops is modelled, their sum is not.
- Recorder counts as 32-bit integers: counts are natural numbers; they are proved equal to a number of clients.
- Time of PTT changes: the clock readings of the echo buffer are parameters.
- UDP transport, discovery, tasks, locks and timers: delivery of frames is a step of the model in any order. Dropped channel sends are not modelled.
- A client that restarts before its old task has cleaned up: there is one client state per address.
- Switching the echo buffer on or off during a transmission: in the multi-client results it is always there.
- Threads and handles around the engine, paddle input back-ends, JNI, WebMIDI and WebSerial: device input and foreign calls.
- Draining of transitions into the decoder: the ring keeps only 64 edges, so the round trip uses the complete log of key edges.
- Setters and the send-config burst of the streaming client, its pacing and statistics: they only add ways to reach the states covered.
- Serialisation, logging, hardware names and MAC addresses: cosmetic.
- RoundTrip.TextRoundTrip: assumes legible timing (`RoundTrip.Legible`: no mode Straight, three ticks within a dot, compensation and a tick within a dot, dashes of two dots and a tick, letter gaps under six dots), because beyond these ratios the decoder's thresholds read other symbols.
- KeyerText.MacroBounds: assumes that every element and gap lasts longer than a tick, as the round trip does.
- KeyerDrift.NoDrift: covers paddle-driven phases; text phases start afresh at each element and have their own bounds.
- LiveTimeline.SessionRefinesTimeline: covers runs in which no client is late; for late clients the writes at the drain head are recorded as they happen in `LiveTimeline.RunKeepsWindow`.
- ControlRotation.Stabilises: receive frequencies of the eighth and later DDCs are never sent by the rotation, so it speaks of the first seven.
