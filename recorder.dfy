/** The MidiRecorder object: its fields, the wait for the first event, the
    start of a recording session and the per-event callback. */
module Recorder {
  import opened Midi
  import opened Ticks
  import opened Recording

  /** One call of the port's non-blocking get_message, with the clock reading
      taken if the wait ends on it. */
  datatype Poll = Poll(message: Option<Event>, now: Time)

  /** A polled result that ends the wait for the first event: a message whose
      status is neither active sense nor 0. */
  predicate StartsRecording(m: Option<Event>)
  {
    m.Some? && m.value.message.status != ActiveSense && m.value.message.status != 0
  }

  class MidiRecorder {
    /** The buffered first event, replayed by the next callback. */
    var msg: Option<Event>
    /** When the last message other than active sense arrived. */
    var timeLastMsg: Time
    /** Seconds accumulated since the last recorded note on. */
    var activesense: real
    /** The track being recorded. */
    var track: seq<TrackMessage>
    /** Tempo in beats per minute. */
    var tempo: int
    /** Whether events are logged. */
    var debug: bool

    ghost predicate Valid()
      reads this
    {
      ValidBpm(tempo)
    }

    /** The fields the callback works on. */
    function State(): RecState
      reads this
    {
      RecState(msg, timeLastMsg, activesense, track)
    }

    /** A recorder with nothing buffered; the session fields hold what
        StartRecording gives them. */
    constructor (now: Time)
      ensures Valid()
      ensures msg == None && timeLastMsg == now
      ensures track == [] && activesense == 0.0 && tempo == 120 && !debug
    {
      msg := None;
      timeLastMsg := now;
      activesense := 0.0;
      track := [];
      tempo := 120;
      debug := false;
    }

    /** Polls the port until a message other than active sense or status 0
        arrives; every poll overwrites the buffer. `polled` is the number of
        polls used; `returned` is false when the polls ran out first, which in
        the program means the wait is still going on. */
    method WaitFirstEvent(polls: seq<Poll>) returns (polled: nat, returned: bool)
      requires Valid()
      modifies this`msg, this`timeLastMsg
      ensures Valid()
      ensures polled <= |polls|
      ensures forall i :: 0 <= i < polled - 1 ==> !StartsRecording(polls[i].message)
      ensures returned ==>
        && 0 < polled
        && StartsRecording(polls[polled - 1].message)
        && msg == polls[polled - 1].message
        && timeLastMsg == polls[polled - 1].now
      ensures !returned ==>
        && polled == |polls|
        && (forall i :: 0 <= i < |polls| ==> !StartsRecording(polls[i].message))
        && msg == (if polls == [] then old(msg) else polls[|polls| - 1].message)
        && timeLastMsg == old(timeLastMsg)
    {
      polled := 0;
      while polled < |polls|
        invariant polled <= |polls|
        invariant forall i :: 0 <= i < polled ==> !StartsRecording(polls[i].message)
        invariant msg == (if polled == 0 then old(msg) else polls[polled - 1].message)
        invariant timeLastMsg == old(timeLastMsg)
      {
        var p := polls[polled];
        msg := p.message;
        polled := polled + 1;
        if msg.Some? {
          var message := msg.value.message;
          if message.status != ActiveSense {
            if message.status != 0 {
              timeLastMsg := p.now;
              returned := true;
              return;
            }
          }
        }
      }
      returned := false;
    }

    /** Starts a new track: empty, with nothing accumulated. The buffered first
        event and the time of the last message are kept. */
    method StartRecording(bpm: int, verbose: bool)
      requires ValidBpm(bpm)
      modifies this`tempo, this`debug, this`activesense, this`track
      ensures Valid()
      ensures tempo == bpm && debug == verbose
      ensures track == [] && activesense == 0.0
      ensures msg == old(msg) && timeLastMsg == old(timeLastMsg)
    {
      tempo := bpm;
      debug := verbose;
      activesense := 0.0;
      track := [];
    }

    /** The callback, invoked for every incoming event: a buffered first event
        is cleared and handled by a nested call first, then the event itself. */
    method Call(event: Event, now: Time)
      requires Valid()
      modifies this`msg, this`timeLastMsg, this`activesense, this`track
      ensures Valid()
      ensures State() == Callback(old(State()), event, now, tempo)
      ensures msg == None
      ensures old(track) <= track && |track| <= |old(track)| + 2
      decreases if msg.Some? then 1 else 0
    {
      if msg.Some? {
        var first := msg.value;
        msg := None;
        Call(first, now);
      }
      var message := event.message;
      activesense := activesense + event.deltatime;
      if message.status != ActiveSense {
        timeLastMsg := now;
        var miditime := MidiTime(activesense, tempo);
        if message.status == NoteOnStatus {
          track := track + [NoteOn(NoteOnChannel, message.data1, message.data2, miditime)];
          activesense := 0.0;
        } else if message.status == ControlChangeStatus {
          track := track + [ControlChange(ControlChangeChannel, message.data1, message.data2, miditime)];
        }
      }
    }
  }
}
