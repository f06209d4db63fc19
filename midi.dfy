/** MIDI vocabulary of the drum machine: message kinds, the two transports,
    and an input port whose receive queue is drained by the router. */
module Midi {

  datatype Option<+T> = None | Some(value: T)

  /** The two outgoing transports: the USB device port and the serial (UART) port. */
  datatype Transport = Usb | Uart

  /** Incoming and outgoing messages. `channel` is `None` when a message carries
      no explicit channel (for example a note-off built from a note number only).
      `Other` stands for every recognised message kind that is neither a note-on
      nor a note-off; `Unknown` for a raw event the parser did not recognise. */
  datatype Message =
    | NoteOn(note: int, velocity: int, channel: Option<int>)
    | NoteOff(note: int, channel: Option<int>)
    | Other(channel: Option<int>)
    | Unknown

  /** The channel attribute of a message; an unrecognised event has none. */
  function ChannelOf(msg: Message): Option<int> {
    if msg.Unknown? then None else msg.channel
  }

  /** A MIDI input port: the messages received but not yet read, oldest first. */
  class MidiInput {
    var pending: seq<Message>

    constructor (queued: seq<Message>)
      ensures pending == queued
    {
      pending := queued;
    }

    /** Non-blocking receive: the oldest pending message, or `None` when the
        queue is empty. */
    method Receive() returns (msg: Option<Message>)
      modifies this
      ensures old(pending) == [] ==> msg == None && pending == []
      ensures old(pending) != [] ==> msg == Some(old(pending)[0]) && pending == old(pending)[1..]
    {
      if pending == [] {
        msg := None;
      } else {
        msg := Some(pending[0]);
        pending := pending[1..];
      }
    }
  }
}
