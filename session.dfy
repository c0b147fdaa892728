/** The decisions `main` makes around the recorder: when an auto-mode session
    is rotated into a file, and under which name a session is saved. */
module Session {
  import opened Midi
  import opened Ticks
  import opened Recording
  import opened Recorder

  const MicrosPerSecond: int := 1000000
  /** The tempo `main` records with (start_recording's default). */
  const DefaultBpm: int := 120

  /** A track handed to the file writer under a path. */
  datatype SavedFile = SavedFile(path: string, track: seq<TrackMessage>)

  /** The silence timeout of auto mode, `auto` seconds, in microseconds. */
  function Timeout(auto: int): int
  {
    auto * MicrosPerSecond
  }

  /** Auto mode is on and the last message is more than the timeout ago. */
  predicate ShouldRotate(auto: int, now: Time, timeLastMsg: Time)
  {
    auto != 0 && now > timeLastMsg + Timeout(auto)
  }

  /** The file a session is saved to: `name.mid` without auto mode, otherwise
      `name_<stamp>.mid` with the session's time stamp. */
  function FileName(name: string, auto: int, stamp: string): (f: string)
    ensures name <= f && |f| >= |name| + 4
    ensures f[|f| - 4..] == ".mid"
    ensures auto == 0 ==> |f| == |name| + 4
    ensures auto != 0 ==> f[|name|] == '_' && f[|name| + 1..|f| - 4] == stamp
  {
    if auto != 0 then name + "_" + stamp + ".mid" else name + ".mid"
  }

  /** Without auto mode every session goes to the same file. */
  lemma FixedFileName(name: string, stamp1: string, stamp2: string)
    ensures FileName(name, 0, stamp1) == FileName(name, 0, stamp2) == name + ".mid"
  {
  }

  /** In auto mode two sessions with different stamps never share a file, and
      no session file is the fixed file of the non-auto mode. */
  lemma AutoFileNamesDistinct(name: string, auto: int, stamp1: string, stamp2: string)
    requires auto != 0
    ensures FileName(name, auto, stamp1) == FileName(name, auto, stamp2) ==> stamp1 == stamp2
    ensures FileName(name, auto, stamp1) != FileName(name, 0, stamp2)
  {
    var f1, f2 := FileName(name, auto, stamp1), FileName(name, auto, stamp2);
    if f1 == f2 {
      assert stamp1 == f1[|name| + 1..|f1| - 4] == f2[|name| + 1..|f2| - 4] == stamp2;
    }
    assert |f1| == |name| + |stamp1| + 5;
  }

  /** Without auto mode nothing is ever rotated. */
  lemma NoRotationWithoutAuto(now: Time, timeLastMsg: Time)
    ensures !ShouldRotate(0, now, timeLastMsg)
  {
  }

  /** Once due, a rotation stays due as the clock advances. */
  lemma RotationStaysDue(auto: int, now: Time, later: Time, timeLastMsg: Time)
    requires ShouldRotate(auto, now, timeLastMsg)
    requires now <= later
    ensures ShouldRotate(auto, later, timeLastMsg)
  {
  }

  /** Silence of exactly the timeout is not enough: the comparison is strict. */
  lemma RotationIsStrict(auto: int, timeLastMsg: Time)
    ensures !ShouldRotate(auto, timeLastMsg + Timeout(auto), timeLastMsg)
  {
  }

  /** A callback carrying anything but active sense restarts the idle clock:
      with a non-negative timeout no rotation is due at the moment it is handled. */
  lemma CallbackDefersRotation(s: RecState, e: Event, now: Time, bpm: int, auto: int)
    requires ValidBpm(bpm)
    requires auto >= 0
    requires e.message.status != ActiveSense
    ensures !ShouldRotate(auto, now, Callback(s, e, now, bpm).timeLastMsg)
  {
  }

  /** Active sense does not keep a session alive: a stream of it, with no
      buffered event left, records nothing and leaves the rotation decision
      exactly as it was. */
  lemma ActiveSenseDoesNotDefer(s: RecState, ds: seq<Delivery>, bpm: int, auto: int, now: Time)
    requires ValidBpm(bpm)
    requires s.msg == None
    requires forall i :: 0 <= i < |ds| ==> ds[i].event.message.status == ActiveSense
    ensures Run(s, ds, bpm).track == s.track
    ensures ShouldRotate(auto, now, Run(s, ds, bpm).timeLastMsg) == ShouldRotate(auto, now, s.timeLastMsg)
  {
    RunWithoutBuffer(s, ds, bpm);
    ActiveSenseOnly(s, ds, bpm);
  }

  /** Program start: create the recorder, choose the first file name, wait for
      the first event and start recording. `started` is false while the wait
      is still going on. */
  method Begin(now: Time, name: string, auto: int, stamp: string, polls: seq<Poll>, verbose: bool)
    returns (rec: MidiRecorder, filename: string, polled: nat, started: bool)
    ensures fresh(rec) && rec.Valid()
    ensures filename == FileName(name, auto, stamp)
    ensures polled <= |polls|
    ensures forall i :: 0 <= i < polled - 1 ==> !StartsRecording(polls[i].message)
    ensures started ==>
      && 0 < polled
      && rec.msg == polls[polled - 1].message && StartsRecording(rec.msg)
      && rec.timeLastMsg == polls[polled - 1].now
      && rec.track == [] && rec.activesense == 0.0
      && rec.tempo == DefaultBpm && rec.debug == verbose
    ensures !started ==>
      && (forall i :: 0 <= i < |polls| ==> !StartsRecording(polls[i].message))
      && rec.msg == (if polls == [] then None else polls[|polls| - 1].message)
      && rec.timeLastMsg == now
      && rec.track == [] && rec.activesense == 0.0
      && rec.tempo == DefaultBpm && !rec.debug
  {
    rec := new MidiRecorder(now);
    filename := FileName(name, auto, stamp);
    polled, started := rec.WaitFirstEvent(polls);
    if started {
      rec.StartRecording(DefaultBpm, verbose);
    }
  }

  /** One pass of the main loop at time `now`. When a rotation is due the
      current track is saved under the current file name, the port is waited
      on again and, once a first event arrives, a new track is started under
      a freshly stamped name. `waiting` is true when the polls ran out before
      a first event arrived. */
  method MainLoopStep(rec: MidiRecorder, auto: int, name: string, filename: string, now: Time,
                      polls: seq<Poll>, stamp: string, verbose: bool)
    returns (saved: Option<SavedFile>, nextFilename: string, polled: nat, waiting: bool)
    requires rec.Valid()
    modifies rec
    ensures rec.Valid()
    ensures !ShouldRotate(auto, now, old(rec.timeLastMsg)) ==>
      && saved == None && nextFilename == filename && polled == 0 && !waiting
      && unchanged(rec)
    ensures ShouldRotate(auto, now, old(rec.timeLastMsg)) ==>
      && saved == Some(SavedFile(filename, old(rec.track)))
      && polled <= |polls|
      && (forall i :: 0 <= i < polled - 1 ==> !StartsRecording(polls[i].message))
    ensures ShouldRotate(auto, now, old(rec.timeLastMsg)) && !waiting ==>
      && 0 < polled
      && rec.msg == polls[polled - 1].message && StartsRecording(rec.msg)
      && rec.timeLastMsg == polls[polled - 1].now
      && nextFilename == FileName(name, auto, stamp)
      && rec.track == [] && rec.activesense == 0.0
      && rec.tempo == DefaultBpm && rec.debug == verbose
    ensures waiting ==>
      && ShouldRotate(auto, now, old(rec.timeLastMsg))
      && (forall i :: 0 <= i < |polls| ==> !StartsRecording(polls[i].message))
      && nextFilename == filename
      && rec.msg == (if polls == [] then old(rec.msg) else polls[|polls| - 1].message)
      && rec.timeLastMsg == old(rec.timeLastMsg)
      && rec.track == old(rec.track) && rec.activesense == old(rec.activesense)
      && rec.tempo == old(rec.tempo) && rec.debug == old(rec.debug)
  {
    saved, nextFilename, polled, waiting := None, filename, 0, false;
    if auto != 0 {
      if now > rec.timeLastMsg + Timeout(auto) {
        saved := Some(SavedFile(filename, rec.track));
        var returned;
        polled, returned := rec.WaitFirstEvent(polls);
        if returned {
          nextFilename := FileName(name, auto, stamp);
          rec.StartRecording(DefaultBpm, verbose);
        } else {
          waiting := true;
        }
      }
    }
  }
}
