/** Values exchanged between the MIDI input port and the recorder: the raw
    messages the port delivers and the messages the recorder writes into its
    track. */
module Midi {

  datatype Option<+T> = None | Some(value: T)

  /** A byte of a MIDI message. */
  type byte = x: int | 0 <= x < 256

  /** A data byte of a channel message: its top bit is clear. */
  type dataByte = x: int | 0 <= x < 128

  /** Wall-clock time, in microseconds (the resolution of a datetime). */
  type Time = int

  /** The status and two data bytes of a channel message as delivered by the port. */
  datatype RawMessage = RawMessage(status: byte, data1: dataByte, data2: dataByte)

  /** One delivery of the port: the message and the seconds elapsed since the
      port's previous message. */
  datatype Event = Event(message: RawMessage, deltatime: real)

  /** The messages the recorder appends to its track; `time` is the delta in ticks. */
  datatype TrackMessage =
    | NoteOn(channel: nat, note: dataByte, velocity: dataByte, time: int)
    | ControlChange(channel: nat, control: dataByte, value: dataByte, time: int)

  /** Active sensing, a keep-alive the recorder skips. */
  const ActiveSense: byte := 254
  /** Note on, channel 0: the only note status the recorder keeps. */
  const NoteOnStatus: byte := 144
  /** Control change, channel 0: the only controller status the recorder keeps. */
  const ControlChangeStatus: byte := 176
  /** Channel written into every recorded control change. */
  const ControlChangeChannel: nat := 1
  /** Channel of a recorded note on (the message library's default). */
  const NoteOnChannel: nat := 0

  /** True when a message with this status is appended to the track. */
  predicate IsRecorded(status: byte)
  {
    status == NoteOnStatus || status == ControlChangeStatus
  }
}
