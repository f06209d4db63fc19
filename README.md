# Drum machine event router

A model of the event-routing layer of the drum-machine app (`apps/drum_machine.py`).
The layer turns three kinds of input into effects:

- sequencer playback callbacks;
- incoming MIDI;
- touch-pad and menu edits.

Its effects are presses and releases of the eight percussion voices, messages sent on the USB and UART MIDI transports, and changes to the pattern grid.

The outside world is abstract:

- The voices and the two transports are not modelled as devices. Every call to them is an `Action` appended to the application's `trace`: `Press(voice, velocity)`, `Release(voice)` or `Send(transport, message)`. A handler's observable effect is the part of the trace it appends.
- The global settings (`midi_thru`, `midi_channel`, `keyboard_touch`) are a `Settings` value that the handlers read.
- A MIDI input port is a queue of pending messages.
- The sequencer library's note grid is an abstract map from (track, position) to a note number, with `HasNote`, `SetNote` and `RemoveNote`.
- The menu's step editors are objects holding a boolean array and a length. The menu selection is a `MenuNode` value passed to the touch handler.

Files:

- `midi.dfy` (module `Midi`): message kinds, transports, the input queue.
- `routing.dfy` (module `Routing`): the effect lists of the playback and MIDI-input handlers as functions, with the lemmas about them. `VoiceCalls` and `Sends` project a trace onto its voice calls and its sends.
- `pattern.dfy` (module `Pattern`): the grid, the step editors, the track sync `SyncTrack` and the touch toggle `ToggleStep`, with their lemmas.
- `app.dfy` (module `DrumMachine`): class `App`, which holds the shared state, and the handler methods. Each method's postcondition ties the new trace or grid to the functions above.

Behaviour kept as the code has it:

- **Choke index.** The choke tests voice index 3 and releases index 4. In the voice tuple, index 3 is the open hat and index 4 the floor tom. So releasing the open-hat note first releases the floor tom, and releasing the closed hat (index 2) chokes nothing. The comment at apps/drum_machine.py:82 calls index 3 the closed hat, and line 83 calls index 4 the open hat, but the voice tuple at lines 54-56 puts ClosedHat at 2, OpenHat at 3 and FloorTom at 4; the model follows the code.
- **Track guard.** The guard is `track > tracks`, so `track == tracks` passes it: `set_note`/`remove_note` are then called with track index 8, one past the last voice.
- **Negative drain limit.** The drain loop runs `while limit:`. A negative limit never reaches zero, so it drains the whole queue (`DrainCount`).
- **Press velocity.** The MIDI-input path hands the voice the raw MIDI velocity (0..127). The playback path hands it the 0.0..1.0 level.
- **Send order.** The two paths send in different orders. The thru echo goes to USB then UART. Playback sends go to UART then USB.
- **Removing notes.** `update_sequencer_track` calls `remove_note` for every false position, not only for positions that changed. On the grid this cannot be told apart from removing only changed cells, because removing an absent note does nothing.

Python's `%` floors. Every modulus here has a positive divisor (8, or a length of at least 1), where flooring agrees with Dafny's Euclidean `%`.

## Model

| member | source | states |
|---|---|---|
| `Routing.VoiceOf` | apps/drum_machine.py:73 | a note number maps to a voice in 0..7 that is congruent to `notenum - 1` modulo 8 |
| `Routing.VoiceOfCongruent` | apps/drum_machine.py:73 | two notes reach the same voice exactly when they differ by a multiple of 8 |
| `Routing.VoiceOfWraps` | apps/drum_machine.py:73 | notes `n` and `n + 8` reach the same voice |
| `Routing.VoiceOfNoteNumber` | apps/drum_machine.py:73 | voice `t` is played by note `t + 1` |
| `Routing.MidiVelocity` | apps/drum_machine.py:75 | the sent velocity is the level times 127, truncated, and lies in 0..127 |
| `Routing.PressRouting` | apps/drum_machine.py:72-77 | a playback press makes exactly one voice call: a press of `VoiceOf(n)` with the level. It then sends exactly one note-on, carrying `n`, the configured channel and a 0..127 velocity, to the UART before USB. No voice call follows a send |
| `Routing.ReleaseRouting` | apps/drum_machine.py:80-89 | when the voice index is 3, voice 4 is released strictly before voice 3; any other voice is released alone. Then a channel-less note-off goes to the UART before USB. No voice call follows a send |
| `Routing.ChokeAsWritten` | apps/drum_machine.py:51-60 | with the voice tuple's order, releasing the open-hat note 4 releases the floor tom (index 4) before the open hat (index 3); releasing the closed-hat note 3 releases only index 2 |
| `Routing.PlaybackAliasing` | apps/drum_machine.py:72-84 | notes congruent modulo 8 make identical voice calls on press and on release |
| `Routing.EchoRouting` | apps/drum_machine.py:95-97 | the only sends of an incoming message are its echo. The echo goes to USB then UART exactly when thru is on and the message is recognised, whatever the channel filter decides. It precedes every voice call |
| `Routing.ChannelFilterRouting` | apps/drum_machine.py:99-100 | with a channel configured, a message on another channel makes no voice call |
| `Routing.DispatchRouting` | apps/drum_machine.py:102-109 | a message that passes the filter: a note-on with positive velocity presses `VoiceOf(note)` with that velocity; a note-on with velocity 0 and a note-off release that voice; any other kind makes no voice call; there is no choke on this path |
| `Routing.QueueActionsAppend` | apps/drum_machine.py:111-116 | processing two batches in turn has the effects of processing their concatenation |
| `Routing.DrainResumes` | apps/drum_machine.py:111-116 | for counters `a, b >= 0`, a pass with counter `a` then a pass with counter `b` on what is left take `DrainCount(queued, a + b)` messages in all, with the same effects, in the same order, as one pass with counter `a + b` |
| `Routing.QueueFilterRouting` | apps/drum_machine.py:99-116 | a queue in which every message is on another channel makes no voice call |
| `Routing.QueueWithoutThru` | apps/drum_machine.py:94-116 | without thru, MIDI input never produces outgoing MIDI |
| `Pattern.SyncTrackCells` | apps/drum_machine.py:159-173 | after a track sync, position `i` below the length of `value` has a note exactly when `value[i]`. A note already there is kept unchanged; a new note has note number `track + 1` |
| `Pattern.SyncTrackOutside` | apps/drum_machine.py:159-173 | a track sync leaves other tracks, and positions outside `value`, unchanged |
| `Pattern.SyncTrackIdempotent` | apps/drum_machine.py:156-173 | syncing the same value twice gives the same grid as once |
| `Pattern.ToggleStep` | apps/drum_machine.py:136-137 | a touch flips the step at `position % length` and no other |
| `Pattern.ToggleStepTwice` | apps/drum_machine.py:136-137 | two touches at the same position restore the steps |
| `DrumMachine.App.constructor` | apps/drum_machine.py:65-69 | start-up: 16 steps, eight tracks, 120 BPM, an empty grid and an empty trace; one new, empty step editor per voice (built at apps/drum_machine.py:223-230), of length 16, each with its own step array; the sequencer and every editor share one length |
| `DrumMachine.App.SequencerPress` | apps/drum_machine.py:72-77 | appends exactly `PressActions` to the trace |
| `DrumMachine.App.SequencerRelease` | apps/drum_machine.py:80-89 | appends exactly `ReleaseActions` to the trace |
| `DrumMachine.App.ProcessMessage` | apps/drum_machine.py:94-109 | appends exactly `MessageActions`: the echo, then the filtered dispatch |
| `DrumMachine.App.ProcessMessages` | apps/drum_machine.py:111-116 | takes `DrainCount(queued, limit)` messages from the port, in arrival order. It leaves the rest queued and appends the effects of the messages it took |
| `DrumMachine.App.TouchPress` | apps/drum_machine.py:126-141 | with touch off or no focused editor, nothing changes. Otherwise the focused editor's steps become `ToggleStep` of the old steps. The trace never changes |
| `DrumMachine.App.UpdateSequencerLength` | apps/drum_machine.py:151-154 | the sequencer and every step editor get the new length (1..16), so they keep sharing one length. The grid and the tempo are unchanged |
| `DrumMachine.App.UpdateSequencerTrack` | apps/drum_machine.py:156-173 | a track below 0 or above `tracks` leaves the grid unchanged. Otherwise the grid becomes `SyncTrack` of the old grid, and `HasNote(track, i) == value[i]` for every `i` below the length of `value` |
| `DrumMachine.App.SetBpm` | apps/drum_machine.py:200-207 | the BPM menu item, limited to 60..240, sets the sequencer's tempo |

## Left out

- Audio setup and the voices' synthesis: the mixer, `synthio` and `synthvoice` are hardware and DSP libraries. Voices appear only as indices in the trace.
- The sequencer clock: tick timing, step advance and step resolution belong to `synthkeyboard.Sequencer`, which is not part of this model. Only its grid accessors and its `length`, `bpm` and `tracks` attributes are modelled.
- Grid bounds: the grid accessors are abstract, so the model performs no bounds check on a track or position. What the library does with out-of-range cells is not part of this model.
- Resizing: setting the sequencer's `length` is modelled as a plain assignment. Any truncation the library performs inside its setter is not part of this model.
- Pattern and voice persistence: `menu.save` and `menu.load` are not part of this model. No load or save operation is modelled, and the model has no member for the pattern Index menu item or its 0..15 range.
- `DrumMachine.App.TouchPress`: the link from a step editor to the grid is not modelled. Each editor's `on_update` calls `update_sequencer_track(i, value)` (apps/drum_machine.py:227), but whether the menu library runs that callback after the touch edit at line 137 is not visible in the source. So a touch changes only the focused editor's steps, and the grid changes only through `UpdateSequencerTrack`.
- The LCD menu: construction, `draw()`, `do_update()` and control handling are UI work. The redraw after a touch edit is therefore not modelled.
- The voice-parameter callbacks, and the `Active`, `Level` and `Step` items: these are `menu.set_attribute` wrappers with no logic of their own. Only the BPM item is kept, for its range.
- The async tasks (`midi_task`, `touch_task`, `controls_task`, `main`): these are cooperative-scheduling plumbing. The drain limit is a parameter of `ProcessMessages`; the source's default is 32.
- Floating point: the playback level is an exact `real`. `MidiVelocity` takes the floor of `level * 127`, which equals Python's `int()` for non-negative levels; float rounding of the product is not modelled. The level is required to be in 0.0..1.0, the voice interface's range.
- The MIDI transports' byte I/O: a send is a trace entry.
- `DrumMachine.App.SendMessage`: a send is taken to leave the message unchanged. `adafruit_midi`'s `send` in fact sets the message's channel to the port's `out_channel`. So after a thru echo the source's filter (apps/drum_machine.py:99) reads that channel, while the model (`ProcessMessage`, `ChannelFilterRouting`, `DispatchRouting`) filters on the received channel. The channel in a playback `Send` (`PressRouting`) is the one the message was built with, not the port's `out_channel`.
- `Routing.PressActions`, `Routing.ReleaseActions`: the range checks of `adafruit_midi`'s `NoteOn`/`NoteOff` constructors are not modelled. A note number outside 0..127 raises `ValueError` there, after the voice call and before any send; the model sends for every note number. Grid notes are `track + 1`, in 1..9, so the playback path never reaches that case.
- Types outside the source's vocabulary: the thru check and the dispatch use `isinstance` tests, and the channel filter reads `msg.channel`. Message kinds are the datatype's four constructors: note-on, note-off, every other recognised kind, and unrecognised events. `MIDIUnknownEvent` is not part of this model: an unrecognised event is taken to carry no channel (`ChannelOf`), so a configured channel filter drops it.
