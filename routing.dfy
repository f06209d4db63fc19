/** The event router of the drum machine, as functions from an event to the
    ordered list of effects it has: voice presses and releases, and messages
    sent on the two MIDI transports. The stateful handlers in module
    DrumMachine append exactly these lists to their trace. */
module Routing {
  import opened Midi

  /** Number of percussion voices (length of the voice tuple). */
  const VoiceCount := 8
  /** The voice index whose release first releases `ChokeVoice + 1`. */
  const ChokeVoice := 3
  /** Largest MIDI velocity. */
  const MaxMidiVelocity := 127

  /** The global settings the router reads and never changes. */
  datatype Settings = Settings(midiThru: bool, midiChannel: Option<int>, keyboardTouch: bool)

  /** One observable effect of the router. `velocity` is the value handed to the
      voice's press call. */
  datatype Action =
    | Press(voice: int, velocity: real)
    | Release(voice: int)
    | Send(port: Transport, msg: Message)

  /** The voice that note number `notenum` plays: note numbers wrap around the
      voices, note 1 being voice 0. */
  function VoiceOf(notenum: int): (voice: int)
    ensures 0 <= voice < VoiceCount
    ensures (notenum - 1 - voice) % VoiceCount == 0
  {
    (notenum - 1) % VoiceCount
  }

  /** The MIDI velocity sent for a voice velocity in 0.0..1.0: the velocity
      scaled to 0..127 and truncated. */
  function MidiVelocity(velocity: real): (v: int)
    requires 0.0 <= velocity <= 1.0
    ensures 0 <= v <= MaxMidiVelocity
    ensures v as real <= velocity * 127.0 < v as real + 1.0
  {
    (velocity * 127.0).Floor
  }

  /** Playback press of note `notenum`: press the voice, then send a note-on on
      the configured channel, first on the UART and then on USB. */
  function PressActions(s: Settings, notenum: int, velocity: real): seq<Action>
    requires 0.0 <= velocity <= 1.0
  {
    var msg := NoteOn(notenum, MidiVelocity(velocity), s.midiChannel);
    [Press(VoiceOf(notenum), velocity), Send(Uart, msg), Send(Usb, msg)]
  }

  /** Playback release of note `notenum`: on voice `ChokeVoice` first release the
      next voice, then release the voice and send a channel-less note-off, first
      on the UART and then on USB. */
  function ReleaseActions(notenum: int): seq<Action> {
    var voice := VoiceOf(notenum);
    var msg := NoteOff(notenum, None);
    (if voice == ChokeVoice then [Release(voice + 1)] else [])
      + [Release(voice), Send(Uart, msg), Send(Usb, msg)]
  }

  /** The thru echo of an incoming message: sent verbatim to USB, then to the
      UART, when thru is on and the message is a recognised kind. */
  function EchoActions(s: Settings, msg: Message): seq<Action> {
    if s.midiThru && !msg.Unknown? then [Send(Usb, msg), Send(Uart, msg)] else []
  }

  /** The channel filter drops a message when a channel is configured and the
      message's channel is a different one. */
  predicate FilteredOut(s: Settings, msg: Message) {
    s.midiChannel.Some? && ChannelOf(msg) != s.midiChannel
  }

  /** Voice effect of a message that passed the filter; a note-on with velocity
      0 is a release. */
  function DispatchActions(msg: Message): seq<Action> {
    match msg
    case NoteOn(note, velocity, _) =>
      if velocity > 0 then [Press(VoiceOf(note), velocity as real)] else [Release(VoiceOf(note))]
    case NoteOff(note, _) => [Release(VoiceOf(note))]
    case _ => []
  }

  /** All effects of one incoming message: echo first, then the filtered dispatch. */
  function MessageActions(s: Settings, msg: Message): seq<Action> {
    EchoActions(s, msg) + (if FilteredOut(s, msg) then [] else DispatchActions(msg))
  }

  /** Effects of processing `msgs` one after the other, in arrival order. */
  function QueueActions(s: Settings, msgs: seq<Message>): seq<Action> {
    if msgs == [] then [] else MessageActions(s, msgs[0]) + QueueActions(s, msgs[1..])
  }

  /** How many of `queued` messages one drain pass with counter `limit` takes:
      the loop stops when the counter reaches zero or the queue is empty, so a
      negative counter never stops it early. */
  function DrainCount(queued: nat, limit: int): nat {
    if 0 <= limit < queued then limit else queued
  }

  // ------------------------------------------------------------------
  // Projections of a trace

  /** The voice calls of a trace, in order. */
  function VoiceCalls(t: seq<Action>): (r: seq<Action>)
    ensures forall a :: a in r <==> a in t && !a.Send?
  {
    if t == [] then [] else (if t[0].Send? then [] else [t[0]]) + VoiceCalls(t[1..])
  }

  /** The MIDI sends of a trace, in order, across both transports. */
  function Sends(t: seq<Action>): (r: seq<Action>)
    ensures forall a :: a in r <==> a in t && a.Send?
  {
    if t == [] then [] else (if t[0].Send? then [t[0]] else []) + Sends(t[1..])
  }

  /** No voice call comes after a send. */
  predicate SendsLast(t: seq<Action>) {
    forall i, j :: 0 <= i < j < |t| && t[i].Send? ==> t[j].Send?
  }

  /** No send comes after a voice call. */
  predicate SendsFirst(t: seq<Action>) {
    forall i, j :: 0 <= i < j < |t| && t[j].Send? ==> t[i].Send?
  }

  lemma {:induction false} VoiceCallsAppend(a: seq<Action>, b: seq<Action>)
    ensures VoiceCalls(a + b) == VoiceCalls(a) + VoiceCalls(b)
  {
    if a == [] {
      assert a + b == b;
    } else {
      var head: seq<Action> := if a[0].Send? then [] else [a[0]];
      assert (a + b)[0] == a[0] && (a + b)[1..] == a[1..] + b;
      calc {
        VoiceCalls(a + b);
        head + VoiceCalls(a[1..] + b);
        { VoiceCallsAppend(a[1..], b); }
        head + (VoiceCalls(a[1..]) + VoiceCalls(b));
        (head + VoiceCalls(a[1..])) + VoiceCalls(b);
        VoiceCalls(a) + VoiceCalls(b);
      }
    }
  }

  lemma {:induction false} SendsAppend(a: seq<Action>, b: seq<Action>)
    ensures Sends(a + b) == Sends(a) + Sends(b)
  {
    if a == [] {
      assert a + b == b;
    } else {
      var head: seq<Action> := if a[0].Send? then [a[0]] else [];
      assert (a + b)[0] == a[0] && (a + b)[1..] == a[1..] + b;
      calc {
        Sends(a + b);
        head + Sends(a[1..] + b);
        { SendsAppend(a[1..], b); }
        head + (Sends(a[1..]) + Sends(b));
        (head + Sends(a[1..])) + Sends(b);
        Sends(a) + Sends(b);
      }
    }
  }

  // ------------------------------------------------------------------
  // Note-number mapping

  /** Two note numbers reach the same voice exactly when they differ by a
      multiple of the voice count. */
  lemma VoiceOfCongruent(n: int, m: int)
    ensures VoiceOf(n) == VoiceOf(m) <==> (n - m) % VoiceCount == 0
  {
  }

  /** Note `n + 8` aliases note `n`. */
  lemma VoiceOfWraps(n: int)
    ensures VoiceOf(n + VoiceCount) == VoiceOf(n)
  {
  }

  /** Voice `t` is played by note `t + 1`. */
  lemma VoiceOfNoteNumber(t: int)
    requires 0 <= t < VoiceCount
    ensures VoiceOf(t + 1) == t
  {
  }

  // ------------------------------------------------------------------
  // Playback callbacks

  /** A playback press presses exactly one voice, `VoiceOf(notenum)`, and then
      sends one note-on for `notenum` with the configured channel and a 0..127
      velocity, on the UART before USB. */
  lemma PressRouting(s: Settings, notenum: int, velocity: real)
    requires 0.0 <= velocity <= 1.0
    ensures VoiceCalls(PressActions(s, notenum, velocity)) == [Press(VoiceOf(notenum), velocity)]
    ensures var msg := NoteOn(notenum, MidiVelocity(velocity), s.midiChannel);
      Sends(PressActions(s, notenum, velocity)) == [Send(Uart, msg), Send(Usb, msg)]
      && 0 <= msg.velocity <= MaxMidiVelocity
    ensures SendsLast(PressActions(s, notenum, velocity))
  {
    var t := PressActions(s, notenum, velocity);
    assert t == [t[0]] + [t[1]] + [t[2]];
    VoiceCallsAppend([t[0]] + [t[1]], [t[2]]);
    VoiceCallsAppend([t[0]], [t[1]]);
    SendsAppend([t[0]] + [t[1]], [t[2]]);
    SendsAppend([t[0]], [t[1]]);
  }

  /** A playback release of a note on voice `ChokeVoice` releases voice
      `ChokeVoice + 1` strictly before it; any other note releases only its own
      voice. Either way it then sends a channel-less note-off on the UART before
      USB, and nothing is pressed. */
  lemma ReleaseRouting(notenum: int)
    ensures VoiceCalls(ReleaseActions(notenum)) ==
      if VoiceOf(notenum) == ChokeVoice then [Release(ChokeVoice + 1), Release(ChokeVoice)]
      else [Release(VoiceOf(notenum))]
    ensures var msg := NoteOff(notenum, None);
      Sends(ReleaseActions(notenum)) == [Send(Uart, msg), Send(Usb, msg)]
    ensures SendsLast(ReleaseActions(notenum))
  {
    var voice := VoiceOf(notenum);
    var msg := NoteOff(notenum, None);
    var choke: seq<Action> := if voice == ChokeVoice then [Release(voice + 1)] else [];
    var tail := [Release(voice), Send(Uart, msg), Send(Usb, msg)];
    assert ReleaseActions(notenum) == choke + tail;
    ReleaseTail(voice, msg);
    VoiceCallsAppend(choke, tail);
    SendsAppend(choke, tail);
    if voice == ChokeVoice {
      assert VoiceCalls(choke) == choke;
      assert Sends(choke) == [];
    }
  }

  /** The part of a release trace after the choke. */
  lemma ReleaseTail(voice: int, msg: Message)
    ensures var tail := [Release(voice), Send(Uart, msg), Send(Usb, msg)];
      VoiceCalls(tail) == [Release(voice)] && Sends(tail) == [Send(Uart, msg), Send(Usb, msg)]
  {
    var tail := [Release(voice), Send(Uart, msg), Send(Usb, msg)];
    assert tail == [tail[0]] + [tail[1]] + [tail[2]];
    VoiceCallsAppend([tail[0]] + [tail[1]], [tail[2]]);
    VoiceCallsAppend([tail[0]], [tail[1]]);
    SendsAppend([tail[0]] + [tail[1]], [tail[2]]);
    SendsAppend([tail[0]], [tail[1]]);
  }

  /** The choke against the voice tuple (kick, snare, closed hat, open hat,
      floor tom, ...): the open-hat note 4 releases the floor tom (voice 4)
      before the open hat, and the closed-hat note 3 releases only voice 2. */
  lemma ChokeAsWritten()
    ensures VoiceCalls(ReleaseActions(4)) == [Release(4), Release(3)]
    ensures VoiceCalls(ReleaseActions(3)) == [Release(2)]
  {
    ReleaseRouting(4);
    ReleaseRouting(3);
  }

  /** Notes that alias the same voice make the same voice calls. */
  lemma PlaybackAliasing(s: Settings, n: int, m: int, velocity: real)
    requires 0.0 <= velocity <= 1.0
    requires (n - m) % VoiceCount == 0
    ensures VoiceCalls(PressActions(s, n, velocity)) == VoiceCalls(PressActions(s, m, velocity))
    ensures VoiceCalls(ReleaseActions(n)) == VoiceCalls(ReleaseActions(m))
  {
    VoiceOfCongruent(n, m);
    PressRouting(s, n, velocity);
    PressRouting(s, m, velocity);
    ReleaseRouting(n);
    ReleaseRouting(m);
  }

  // ------------------------------------------------------------------
  // MIDI input

  /** The only sends of an incoming message are its echo: the message itself to
      USB then UART, exactly when thru is on and the message is recognised,
      whatever the channel filter decides. The echo precedes every voice call. */
  lemma EchoRouting(s: Settings, msg: Message)
    ensures Sends(MessageActions(s, msg)) ==
      if s.midiThru && !msg.Unknown? then [Send(Usb, msg), Send(Uart, msg)] else []
    ensures SendsFirst(MessageActions(s, msg))
  {
    var echo := EchoActions(s, msg);
    var rest := if FilteredOut(s, msg) then [] else DispatchActions(msg);
    SendsAppend(echo, rest);
    if echo != [] {
      assert echo == [echo[0]] + [echo[1]];
      SendsAppend([echo[0]], [echo[1]]);
    }
    assert |rest| <= 1;
    if rest != [] {
      assert rest == [rest[0]];
    }
  }

  /** A message on another channel than the configured one makes no voice call. */
  lemma ChannelFilterRouting(s: Settings, msg: Message)
    requires s.midiChannel.Some? && ChannelOf(msg) != s.midiChannel
    ensures VoiceCalls(MessageActions(s, msg)) == []
  {
    VoiceCallsAppend(EchoActions(s, msg), []);
  }

  /** A message that passes the filter: a note-on with positive velocity presses
      `VoiceOf(note)` with that velocity; a note-on with velocity 0 and a
      note-off release it; any other kind makes no voice call. There is no choke
      on this path: at most one voice call. */
  lemma DispatchRouting(s: Settings, msg: Message)
    requires !(s.midiChannel.Some? && ChannelOf(msg) != s.midiChannel)
    ensures msg.NoteOn? && msg.velocity > 0 ==>
      VoiceCalls(MessageActions(s, msg)) == [Press(VoiceOf(msg.note), msg.velocity as real)]
    ensures msg.NoteOn? && msg.velocity <= 0 ==>
      VoiceCalls(MessageActions(s, msg)) == [Release(VoiceOf(msg.note))]
    ensures msg.NoteOff? ==> VoiceCalls(MessageActions(s, msg)) == [Release(VoiceOf(msg.note))]
    ensures msg.Other? || msg.Unknown? ==> VoiceCalls(MessageActions(s, msg)) == []
  {
    var echo := EchoActions(s, msg);
    VoiceCallsAppend(echo, DispatchActions(msg));
    if echo != [] {
      assert echo == [echo[0]] + [echo[1]];
      VoiceCallsAppend([echo[0]], [echo[1]]);
    }
  }

  /** Processing two batches one after the other has the effects of processing
      their concatenation. */
  lemma {:induction false} QueueActionsAppend(s: Settings, a: seq<Message>, b: seq<Message>)
    ensures QueueActions(s, a + b) == QueueActions(s, a) + QueueActions(s, b)
  {
    if a != [] {
      assert (a + b)[1..] == a[1..] + b;
      QueueActionsAppend(s, a[1..], b);
    } else {
      assert a + b == b;
    }
  }

  /** A drain pass that stops early loses nothing: a pass with counter `a`
      followed by a pass with counter `b` on what it left queued takes as many
      messages as one pass with counter `a + b`, and has the same effects. */
  lemma DrainResumes(s: Settings, queue: seq<Message>, a: int, b: int)
    requires 0 <= a && 0 <= b
    ensures var first := DrainCount(|queue|, a);
      var second := DrainCount(|queue| - first, b);
      first + second == DrainCount(|queue|, a + b)
      && QueueActions(s, queue[..first]) + QueueActions(s, queue[first..][..second])
         == QueueActions(s, queue[..DrainCount(|queue|, a + b)])
  {
    var first := DrainCount(|queue|, a);
    var second := DrainCount(|queue| - first, b);
    assert queue[..first + second] == queue[..first] + queue[first..][..second];
    QueueActionsAppend(s, queue[..first], queue[first..][..second]);
  }

  /** When every queued message is on another channel than the configured one,
      processing the queue makes no voice call. */
  lemma {:induction false} QueueFilterRouting(s: Settings, queue: seq<Message>)
    requires s.midiChannel.Some?
    requires forall i :: 0 <= i < |queue| ==> ChannelOf(queue[i]) != s.midiChannel
    ensures VoiceCalls(QueueActions(s, queue)) == []
  {
    if queue != [] {
      ChannelFilterRouting(s, queue[0]);
      QueueFilterRouting(s, queue[1..]);
      VoiceCallsAppend(MessageActions(s, queue[0]), QueueActions(s, queue[1..]));
    }
  }

  /** MIDI input is never mirrored: without thru, processing a queue sends
      nothing. */
  lemma {:induction false} QueueWithoutThru(s: Settings, queue: seq<Message>)
    requires !s.midiThru
    ensures Sends(QueueActions(s, queue)) == []
  {
    if queue != [] {
      EchoRouting(s, queue[0]);
      QueueWithoutThru(s, queue[1..]);
      SendsAppend(MessageActions(s, queue[0]), QueueActions(s, queue[1..]));
    }
  }
}
