/** The event callback of the recorder as a function of its fields: what one
    delivered event does to the buffered first event, the accumulated time, the
    time of the last message and the track, and what a stream of deliveries does. */
module Recording {
  import opened Midi
  import opened Ticks

  /** The recorder fields the callback reads and writes. `activesense` holds the
      seconds accumulated since the last recorded note on (or since the session
      started). */
  datatype RecState = RecState(
    msg: Option<Event>,
    timeLastMsg: Time,
    activesense: real,
    track: seq<TrackMessage>)

  /** One invocation of the callback: the event and the wall-clock time at which
      it was handled. */
  datatype Delivery = Delivery(event: Event, now: Time)

  /** Handling of one event, without the first-event replay. */
  function Process(s: RecState, e: Event, now: Time, bpm: int): (r: RecState)
    requires ValidBpm(bpm)
    ensures r.msg == s.msg
    ensures e.message.status == ActiveSense ==>
      r == s.(activesense := s.activesense + e.deltatime)
    ensures e.message.status != ActiveSense ==> r.timeLastMsg == now
    ensures e.message.status == NoteOnStatus ==>
      && r.track == s.track + [NoteOn(NoteOnChannel, e.message.data1, e.message.data2,
                                      MidiTime(s.activesense + e.deltatime, bpm))]
      && r.activesense == 0.0
    ensures e.message.status == ControlChangeStatus ==>
      && r.track == s.track + [ControlChange(ControlChangeChannel, e.message.data1, e.message.data2,
                                             MidiTime(s.activesense + e.deltatime, bpm))]
      && r.activesense == s.activesense + e.deltatime
    ensures !IsRecorded(e.message.status) ==>
      r.track == s.track && r.activesense == s.activesense + e.deltatime
  {
    var acc := s.activesense + e.deltatime;
    if e.message.status == ActiveSense then
      s.(activesense := acc)
    else
      var miditime := MidiTime(acc, bpm);
      if e.message.status == NoteOnStatus then
        s.(timeLastMsg := now, activesense := 0.0,
           track := s.track + [NoteOn(NoteOnChannel, e.message.data1, e.message.data2, miditime)])
      else if e.message.status == ControlChangeStatus then
        s.(timeLastMsg := now, activesense := acc,
           track := s.track + [ControlChange(ControlChangeChannel, e.message.data1, e.message.data2, miditime)])
      else
        s.(timeLastMsg := now, activesense := acc)
  }

  /** Processes the deliveries one after another, without any replay. */
  function ProcessAll(s: RecState, ds: seq<Delivery>, bpm: int): RecState
    requires ValidBpm(bpm)
    decreases |ds|
  {
    if ds == [] then s
    else ProcessAll(Process(s, ds[0].event, ds[0].now, bpm), ds[1..], bpm)
  }

  /** The buffered first event as a delivery handled at `now`, if there is one. */
  function Pending(msg: Option<Event>, now: Time): (ds: seq<Delivery>)
    ensures |ds| == if msg.Some? then 1 else 0
  {
    if msg.Some? then [Delivery(msg.value, now)] else []
  }

  /** One invocation of the callback: the buffered first event, if any, is
      cleared and handled first, then the delivered event. */
  function Callback(s: RecState, e: Event, now: Time, bpm: int): (r: RecState)
    requires ValidBpm(bpm)
    ensures r.msg == None
    ensures r == ProcessAll(s.(msg := None), Pending(s.msg, now) + [Delivery(e, now)], bpm)
    ensures s.track <= r.track && |r.track| <= |s.track| + 2
  {
    var cleared := s.(msg := None);
    var d := Delivery(e, now);
    if s.msg.Some? then
      var replayed := Process(cleared, s.msg.value, now, bpm);
      ProcessAllPair(cleared, Delivery(s.msg.value, now), d, bpm);
      Process(replayed, e, now, bpm)
    else
      assert [] + [d] == [d];
      assert [d][1..] == [];
      Process(cleared, e, now, bpm)
  }

  lemma ProcessAllPair(s: RecState, d1: Delivery, d2: Delivery, bpm: int)
    requires ValidBpm(bpm)
    ensures ProcessAll(s, [d1, d2], bpm)
         == Process(Process(s, d1.event, d1.now, bpm), d2.event, d2.now, bpm)
  {
    var s1 := Process(s, d1.event, d1.now, bpm);
    assert [d1, d2][0] == d1 && [d1, d2][1..] == [d2];
    assert ProcessAll(s, [d1, d2], bpm) == ProcessAll(s1, [d2], bpm);
    assert [d2][1..] == [];
    assert ProcessAll(s1, [d2], bpm) == ProcessAll(Process(s1, d2.event, d2.now, bpm), [], bpm);
  }

  /** The callback invoked once for every delivery, in order. */
  function Run(s: RecState, ds: seq<Delivery>, bpm: int): RecState
    requires ValidBpm(bpm)
    decreases |ds|
  {
    if ds == [] then s
    else Run(Callback(s, ds[0].event, ds[0].now, bpm), ds[1..], bpm)
  }

  /** Sum of the delta times of the deliveries. */
  function SumDeltas(ds: seq<Delivery>): real
    decreases |ds|
  {
    if ds == [] then 0.0 else ds[0].event.deltatime + SumDeltas(ds[1..])
  }

  /** Number of deliveries whose status is appended to the track. */
  function CountRecorded(ds: seq<Delivery>): nat
    decreases |ds|
  {
    if ds == [] then 0
    else (if IsRecorded(ds[0].event.message.status) then 1 else 0) + CountRecorded(ds[1..])
  }

  lemma {:induction false} SumDeltasAppend(a: seq<Delivery>, b: seq<Delivery>)
    ensures SumDeltas(a + b) == SumDeltas(a) + SumDeltas(b)
    decreases |a|
  {
    if a == [] {
      assert a + b == b;
    } else {
      assert (a + b)[1..] == a[1..] + b;
      SumDeltasAppend(a[1..], b);
    }
  }

  /** Processing a concatenation is processing its parts in turn. */
  lemma {:induction false} ProcessAllAppend(s: RecState, a: seq<Delivery>, b: seq<Delivery>, bpm: int)
    requires ValidBpm(bpm)
    ensures ProcessAll(s, a + b, bpm) == ProcessAll(ProcessAll(s, a, bpm), b, bpm)
    decreases |a|
  {
    if a == [] {
      assert a + b == b;
    } else {
      assert (a + b)[0] == a[0];
      assert (a + b)[1..] == a[1..] + b;
      ProcessAllAppend(Process(s, a[0].event, a[0].now, bpm), a[1..], b, bpm);
    }
  }

  /** The track only grows: the old entries stay as they were, and exactly one
      entry is added per delivery with status 144 or 176. */
  lemma {:induction false} ProcessAllTrack(s: RecState, ds: seq<Delivery>, bpm: int)
    requires ValidBpm(bpm)
    ensures s.track <= ProcessAll(s, ds, bpm).track
    ensures |ProcessAll(s, ds, bpm).track| == |s.track| + CountRecorded(ds)
    ensures ProcessAll(s, ds, bpm).msg == s.msg
    decreases |ds|
  {
    if ds != [] {
      ProcessAllTrack(Process(s, ds[0].event, ds[0].now, bpm), ds[1..], bpm);
    }
  }

  /** Once the buffered event is gone, the callback is plain processing. */
  lemma {:induction false} RunWithoutBuffer(s: RecState, ds: seq<Delivery>, bpm: int)
    requires ValidBpm(bpm)
    requires s.msg == None
    ensures Run(s, ds, bpm) == ProcessAll(s, ds, bpm)
    decreases |ds|
  {
    if ds != [] {
      var d := ds[0];
      assert Pending(s.msg, d.now) + [d] == [d];
      assert Callback(s, d.event, d.now, bpm) == Process(s, d.event, d.now, bpm);
      RunWithoutBuffer(Callback(s, d.event, d.now, bpm), ds[1..], bpm);
    }
  }

  /** The buffered first event is handled exactly once, just before the first
      delivered event and with that event's time; if nothing is ever delivered,
      it stays buffered and is never recorded. */
  lemma {:induction false} RunReplaysFirstOnce(s: RecState, ds: seq<Delivery>, bpm: int)
    requires ValidBpm(bpm)
    requires s.msg.Some?
    ensures ds == [] ==> Run(s, ds, bpm) == s
    ensures ds != [] ==>
      && Run(s, ds, bpm).msg == None
      && Run(s, ds, bpm) == ProcessAll(s.(msg := None), [Delivery(s.msg.value, ds[0].now)] + ds, bpm)
  {
    if ds != [] {
      var d := ds[0];
      var first := Delivery(s.msg.value, d.now);
      var c := Callback(s, d.event, d.now, bpm);
      assert Run(s, ds, bpm) == Run(c, ds[1..], bpm);
      assert Pending(s.msg, d.now) + [d] == [first, d];
      assert c == ProcessAll(s.(msg := None), [first, d], bpm);
      RunWithoutBuffer(c, ds[1..], bpm);
      ProcessAllAppend(s.(msg := None), [first, d], ds[1..], bpm);
      assert [first, d] + ds[1..] == [first] + ds;
      ProcessAllTrack(s.(msg := None), [first] + ds, bpm);
    }
  }

  /** Over a whole stream the track only grows, by at most one entry per
      delivery plus the replayed first event. */
  lemma {:induction false} RunTrackGrows(s: RecState, ds: seq<Delivery>, bpm: int)
    requires ValidBpm(bpm)
    ensures s.track <= Run(s, ds, bpm).track
    ensures |Run(s, ds, bpm).track| <= |s.track| + |ds| + (if s.msg.Some? then 1 else 0)
  {
    if s.msg.Some? {
      RunReplaysFirstOnce(s, ds, bpm);
      if ds != [] {
        ProcessAllTrack(s.(msg := None), [Delivery(s.msg.value, ds[0].now)] + ds, bpm);
        CountRecordedBound([Delivery(s.msg.value, ds[0].now)] + ds);
      }
    } else {
      RunWithoutBuffer(s, ds, bpm);
      ProcessAllTrack(s, ds, bpm);
      CountRecordedBound(ds);
    }
  }

  lemma {:induction false} CountRecordedBound(ds: seq<Delivery>)
    ensures CountRecorded(ds) <= |ds|
    decreases |ds|
  {
    if ds != [] {
      CountRecordedBound(ds[1..]);
    }
  }

  /** Without a note on, every delta time (active sense, control changes and
      dropped statuses included) is added to the accumulator. */
  lemma {:induction false} AccumulatesUntilNoteOn(s: RecState, ds: seq<Delivery>, bpm: int)
    requires ValidBpm(bpm)
    requires forall i :: 0 <= i < |ds| ==> ds[i].event.message.status != NoteOnStatus
    ensures ProcessAll(s, ds, bpm).activesense == s.activesense + SumDeltas(ds)
    decreases |ds|
  {
    if ds != [] {
      AccumulatesUntilNoteOn(Process(s, ds[0].event, ds[0].now, bpm), ds[1..], bpm);
    }
  }

  /** A note on is stamped with the whole time since the previous note on,
      whatever control changes came between, and restarts the accumulator. */
  lemma NoteOnTimeSincePreviousNote(s: RecState, ds: seq<Delivery>, note: Delivery, bpm: int)
    requires ValidBpm(bpm)
    requires forall i :: 0 <= i < |ds| ==> ds[i].event.message.status != NoteOnStatus
    requires note.event.message.status == NoteOnStatus
    ensures ProcessAll(s, ds + [note], bpm).track
         == ProcessAll(s, ds, bpm).track
            + [NoteOn(NoteOnChannel, note.event.message.data1, note.event.message.data2,
                      MidiTime(s.activesense + SumDeltas(ds + [note]), bpm))]
    ensures ProcessAll(s, ds + [note], bpm).activesense == 0.0
  {
    ProcessAllAppend(s, ds, [note], bpm);
    AccumulatesUntilNoteOn(s, ds, bpm);
    SumDeltasAppend(ds, [note]);
    assert SumDeltas([note]) == note.event.deltatime;
    assert ProcessAll(ProcessAll(s, ds, bpm), [note], bpm)
        == Process(ProcessAll(s, ds, bpm), note.event, note.now, bpm);
  }

  /** A stream of active sense only records nothing, keeps the time of the last
      message, and only adds its delta times to the accumulator. */
  lemma {:induction false} ActiveSenseOnly(s: RecState, ds: seq<Delivery>, bpm: int)
    requires ValidBpm(bpm)
    requires forall i :: 0 <= i < |ds| ==> ds[i].event.message.status == ActiveSense
    ensures ProcessAll(s, ds, bpm) == s.(activesense := s.activesense + SumDeltas(ds))
    decreases |ds|
  {
    if ds != [] {
      ActiveSenseOnly(Process(s, ds[0].event, ds[0].now, bpm), ds[1..], bpm);
    }
  }

  /** A stream holding no status 144 or 176 leaves the track as it was. */
  lemma UnrecordedOnly(s: RecState, ds: seq<Delivery>, bpm: int)
    requires ValidBpm(bpm)
    requires forall i :: 0 <= i < |ds| ==> !IsRecorded(ds[i].event.message.status)
    ensures ProcessAll(s, ds, bpm).track == s.track
  {
    ProcessAllTrack(s, ds, bpm);
    CountRecordedNone(ds);
  }

  lemma {:induction false} CountRecordedNone(ds: seq<Delivery>)
    requires forall i :: 0 <= i < |ds| ==> !IsRecorded(ds[i].event.message.status)
    ensures CountRecorded(ds) == 0
    decreases |ds|
  {
    if ds != [] {
      CountRecordedNone(ds[1..]);
    }
  }
}
