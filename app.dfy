/** The drum machine application: the state its event handlers share and the
    handlers themselves. Every voice call and every MIDI send is appended to
    `trace`, so a handler's observable effect is the part of the trace it adds;
    module Routing defines and characterises those parts. */
module DrumMachine {
  import opened Midi
  import opened Routing
  import opened Pattern

  class App {
    /** The global settings, read by the handlers and never changed by them. */
    const settings: Settings
    /** Every voice call and MIDI send so far, oldest first. */
    var trace: seq<Action>
    const sequencer: Sequencer
    /** One step editor per voice, in voice order. */
    const sequenceItems: seq<SequenceItem>

    /** Eight tracks and eight step editors of capacity 16; the sequencer and
        every editor share one length in 1..16. */
    ghost predicate Valid()
      reads sequencer`length, sequenceItems
    {
      sequencer.tracks == VoiceCount
      && |sequenceItems| == VoiceCount
      && MinLength <= sequencer.length <= MaxLength
      && forall j :: 0 <= j < |sequenceItems| ==>
           sequenceItems[j].steps.Length == MaxLength && sequenceItems[j].length == sequencer.length
    }

    /** Start-up: a 16-step sequencer with one track per voice at 120 BPM, and
        one new, empty step editor per voice at the sequencer's length. */
    constructor (settings: Settings)
      ensures Valid() && this.settings == settings && trace == []
      ensures fresh(sequencer) && sequencer.length == MaxLength && sequencer.bpm == 120
      ensures sequencer.notes == map[]
      ensures forall j :: 0 <= j < |sequenceItems| ==>
        fresh(sequenceItems[j]) && fresh(sequenceItems[j].steps)
        && forall k :: 0 <= k < MaxLength ==> !sequenceItems[j].steps[k]
      ensures forall j, k :: 0 <= j < k < |sequenceItems| ==> sequenceItems[j].steps != sequenceItems[k].steps
    {
      var seqr := new Sequencer(MaxLength, VoiceCount, 120);
      var items: seq<SequenceItem> := [];
      while |items| < VoiceCount
        invariant |items| <= VoiceCount
        invariant seqr.length == MaxLength && seqr.bpm == 120 && seqr.notes == map[]
        invariant forall j :: 0 <= j < |items| ==>
          items[j].steps.Length == MaxLength && items[j].length == MaxLength
        invariant forall j :: 0 <= j < |items| ==>
          fresh(items[j]) && fresh(items[j].steps)
          && forall k :: 0 <= k < MaxLength ==> !items[j].steps[k]
        invariant forall j, k :: 0 <= j < k < |items| ==> items[j].steps != items[k].steps
      {
        var item := new SequenceItem(MaxLength);
        items := items + [item];
      }
      this.settings := settings;
      trace := [];
      sequencer := seqr;
      sequenceItems := items;
    }

    // ------------------------------------------------------------------
    // The outside world, as trace entries

    method PressVoice(voice: int, velocity: real)
      requires 0 <= voice < VoiceCount
      modifies this`trace
      ensures trace == old(trace) + [Press(voice, velocity)]
    {
      trace := trace + [Press(voice, velocity)];
    }

    method ReleaseVoice(voice: int)
      requires 0 <= voice < VoiceCount
      modifies this`trace
      ensures trace == old(trace) + [Release(voice)]
    {
      trace := trace + [Release(voice)];
    }

    method SendMessage(port: Transport, msg: Message)
      modifies this`trace
      ensures trace == old(trace) + [Send(port, msg)]
    {
      trace := trace + [Send(port, msg)];
    }

    // ------------------------------------------------------------------
    // Playback callbacks

    /** The sequencer plays note `notenum`. */
    method SequencerPress(notenum: int, velocity: real)
      requires 0.0 <= velocity <= 1.0
      modifies this`trace
      ensures trace == old(trace) + PressActions(settings, notenum, velocity)
    {
      PressVoice(VoiceOf(notenum), velocity);
      var msg := NoteOn(notenum, MidiVelocity(velocity), settings.midiChannel);
      SendMessage(Uart, msg);
      SendMessage(Usb, msg);
    }

    /** The sequencer ends note `notenum`. */
    method SequencerRelease(notenum: int)
      modifies this`trace
      ensures trace == old(trace) + ReleaseActions(notenum)
    {
      var voice := VoiceOf(notenum);
      if voice == ChokeVoice {
        ReleaseVoice(voice + 1);
      }
      ReleaseVoice(voice);
      var msg := NoteOff(notenum, None);
      SendMessage(Uart, msg);
      SendMessage(Usb, msg);
    }

    // ------------------------------------------------------------------
    // MIDI input

    /** Handle one incoming message. */
    method ProcessMessage(msg: Message)
      modifies this`trace
      ensures trace == old(trace) + MessageActions(settings, msg)
    {
      if settings.midiThru && !msg.Unknown? {
        SendMessage(Usb, msg);
        SendMessage(Uart, msg);
      }
      if settings.midiChannel.Some? && ChannelOf(msg) != settings.midiChannel {
        return;
      }
      match msg
      case NoteOn(note, velocity, _) =>
        if velocity > 0 {
          PressVoice(VoiceOf(note), velocity as real);
        } else {
          ReleaseVoice(VoiceOf(note));
        }
      case NoteOff(note, _) =>
        ReleaseVoice(VoiceOf(note));
      case _ =>
    }

    /** Drain `port`: handle received messages until `limit` of them were
        handled or nothing more is queued. What stays queued is left for the
        next pass. */
    method ProcessMessages(port: MidiInput, limit: int)
      modifies this`trace, port
      ensures var k := DrainCount(|old(port.pending)|, limit);
        port.pending == old(port.pending)[k..]
        && trace == old(trace) + QueueActions(settings, old(port.pending)[..k])
    {
      ghost var queued := port.pending;
      ghost var taken := 0;
      var remaining := limit;
      while remaining != 0
        invariant 0 <= taken <= |queued|
        invariant remaining == limit - taken
        invariant 0 <= limit ==> taken <= limit
        invariant port.pending == queued[taken..]
        invariant trace == old(trace) + QueueActions(settings, queued[..taken])
        decreases |port.pending|
      {
        var received := port.Receive();
        if received.None? {
          break;
        }
        ProcessMessage(received.value);
        QueueActionsAppend(settings, queued[..taken], [queued[taken]]);
        assert queued[..taken + 1] == queued[..taken] + [queued[taken]];
        assert QueueActions(settings, [queued[taken]]) == MessageActions(settings, queued[taken]);
        taken := taken + 1;
        remaining := remaining - 1;
      }
    }

    // ------------------------------------------------------------------
    // Touch

    /** A touch pad at `position` is pressed while `selected` is the menu's
        selection: with touch editing on, it flips one step of the focused step
        editor; it never plays a voice or sends MIDI. */
    method TouchPress(selected: MenuNode, position: int)
      requires Focused(selected).Some? ==> Focused(selected).value.Valid()
      modifies if Focused(selected).Some? then {Focused(selected).value.steps} else {}
      ensures trace == old(trace)
      ensures Focused(selected).Some? ==>
        var editor := Focused(selected).value;
        if settings.keyboardTouch
        then editor.steps[..] == ToggleStep(old(editor.steps[..]), editor.length, position)
        else editor.steps[..] == old(editor.steps[..])
    {
      if !settings.keyboardTouch {
        return;
      }
      var focus := Focused(selected);
      if focus.None? {
        return;
      }
      var editor := focus.value;
      var k := position % editor.length;
      editor.steps[k] := !editor.steps[k];
    }

    // ------------------------------------------------------------------
    // Menu edits

    /** The Length menu item changed: the sequencer and every step editor take
        the new length. */
    method UpdateSequencerLength(value: int)
      requires Valid()
      requires MinLength <= value <= MaxLength
      modifies sequencer`length, sequenceItems
      ensures Valid()
      ensures sequencer.length == value
      ensures forall j :: 0 <= j < |sequenceItems| ==> sequenceItems[j].length == value
      ensures sequencer.notes == old(sequencer.notes) && sequencer.bpm == old(sequencer.bpm)
    {
      sequencer.length := value;
      for i := 0 to |sequenceItems|
        invariant sequencer.length == value
        invariant sequencer.notes == old(sequencer.notes) && sequencer.bpm == old(sequencer.bpm)
        invariant forall j :: 0 <= j < i ==> sequenceItems[j].length == value
      {
        sequenceItems[i].length := value;
      }
    }

    /** The step editor of track `track` changed to `value`: bring the track's
        notes in line with it, one position at a time. */
    method UpdateSequencerTrack(track: int, value: seq<bool>)
      modifies sequencer`notes
      ensures track > sequencer.tracks || track < 0 ==> sequencer.notes == old(sequencer.notes)
      ensures !(track > sequencer.tracks || track < 0) ==>
        sequencer.notes == SyncTrack(old(sequencer.notes), track, value)
        && forall i :: 0 <= i < |value| ==> ((track, i) in sequencer.notes <==> value[i])
    {
      if track > sequencer.tracks || track < 0 {
        return;
      }
      for i := 0 to |value|
        invariant sequencer.notes == SyncTrack(old(sequencer.notes), track, value[..i])
      {
        assert value[..i + 1][..i] == value[..i];
        if value[i] {
          var present := sequencer.HasNote(i, track);
          if !present {
            sequencer.SetNote(i, track + 1, track);
          }
        } else {
          sequencer.RemoveNote(i, track);
        }
      }
      assert value[..|value|] == value;
      forall i | 0 <= i < |value|
        ensures (track, i) in sequencer.notes <==> value[i]
      {
        SyncTrackCells(old(sequencer.notes), track, value, i);
      }
    }

    /** The BPM menu item changed. */
    method SetBpm(value: int)
      requires MinBpm <= value <= MaxBpm
      modifies sequencer`bpm
      ensures sequencer.bpm == value
    {
      sequencer.bpm := value;
    }
  }

  /** A client of a fresh application: a touch on the kick editor leaves the
      snare editor alone, and a new length reaches every editor. */
  method StartUpEdits()
  {
    var app := new App(Settings(false, None, true));
    var snare := app.sequenceItems[1].steps[..];
    app.TouchPress(SequenceNode(app.sequenceItems[0]), 5);
    assert app.sequenceItems[0].steps[5];
    assert app.sequenceItems[1].steps[..] == snare;
    app.UpdateSequencerLength(4);
    assert app.sequenceItems[1].length == 4 && app.sequencer.length == 4;
    app.TouchPress(GroupNode(SequenceNode(app.sequenceItems[1])), 6);
    assert app.sequenceItems[1].steps[2];
    assert app.trace == [];
  }
}
