/** server_modules/transcription.py: the HTTP routes that read the web
    transcript list and start and stop a recording.

    The module does `from web_adapter import ..., is_recording`, which binds
    its own name `is_recording` to the value the flag had at import time
    (`False`); later assignments in web_adapter do not reach it. The routes
    below model the code as written, reading that copy; the `...Live`
    routes read the store's flag, as evidently intended. */
module Transcription {
  import opened Text
  import opened Capture
  import opened WebAdapter

  // ---------------------------------------------------------------------
  // Reading the transcript list

  /** `GET /api/transcriptions`: the whole list, oldest first. */
  method GetTranscriptions(store: TranscriptStore) returns (r: seq<Segment>)
    ensures r == store.transcriptions
  {
    r := store.transcriptions;
  }

  /** `GET /api/transcriptions/latest`: the newest segment, or one with empty
      text and timestamp when there is none. */
  function Latest(segments: seq<Segment>): (r: Segment)
    ensures segments == [] ==> r == Segment("", "")
    ensures segments != [] ==> r in segments
  {
    if segments == [] then Segment("", "") else Last(segments)
  }

  /** After a chunk is processed the latest segment is its text, stamped
      with the time it came back; a chunk without text leaves it as it was. */
  lemma LatestAfterChunk(before: seq<Segment>, reply: WhisperReply, timestamp: string)
    ensures SegmentOf(reply, timestamp) == [] ==> Latest(before + SegmentOf(reply, timestamp)) == Latest(before)
    ensures SegmentOf(reply, timestamp) != [] ==>
      Latest(before + SegmentOf(reply, timestamp)) == Segment(Strip(reply.text), timestamp)
  {
    if SegmentOf(reply, timestamp) == [] {
      assert before + SegmentOf(reply, timestamp) == before;
    }
  }

  /** The test of `GET /api/transcriptions/recent`: the timestamp parses
      (`parseTime` gives seconds since an epoch, `None` for a `ValueError`) and
      lies at most 120 seconds before `nowMicros`, the current time in
      microseconds. A timestamp in the future passes too. */
  predicate InWindow(segment: Segment, nowMicros: int, parseTime: string -> Option<int>) {
    var t := parseTime(segment.timestamp);
    t.Some? && nowMicros - t.value * 1000000 <= 120000000
  }

  /** Reference definition: the segments within the window, in list order. */
  function RecentSpec(segments: seq<Segment>, nowMicros: int, parseTime: string -> Option<int>): seq<Segment> {
    if segments == [] then []
    else
      var init := RecentSpec(segments[..|segments| - 1], nowMicros, parseTime);
      if InWindow(Last(segments), nowMicros, parseTime) then init + [Last(segments)] else init
  }

  /** `GET /api/transcriptions/recent`; a timestamp that does not parse skips
      its segment. */
  method Recent(segments: seq<Segment>, nowMicros: int, parseTime: string -> Option<int>) returns (r: seq<Segment>)
    ensures r == RecentSpec(segments, nowMicros, parseTime)
  {
    if segments == [] {
      return [];
    }
    r := [];
    var i := 0;
    while i < |segments|
      invariant 0 <= i <= |segments|
      invariant r == RecentSpec(segments[..i], nowMicros, parseTime)
    {
      var t := parseTime(segments[i].timestamp);
      if t.Some? && nowMicros - t.value * 1000000 <= 120000000 {
        r := r + [segments[i]];
      }
      assert segments[..i + 1][..i] == segments[..i];
      i := i + 1;
    }
    assert segments[..i] == segments;
  }

  /** The recent list holds exactly the segments within the window. */
  lemma {:induction false} RecentMembers(segments: seq<Segment>, nowMicros: int, parseTime: string -> Option<int>, x: Segment)
    ensures x in RecentSpec(segments, nowMicros, parseTime) <==> x in segments && InWindow(x, nowMicros, parseTime)
  {
    if segments != [] {
      var init := segments[..|segments| - 1];
      RecentMembers(init, nowMicros, parseTime, x);
      assert segments == init + [Last(segments)];
    }
  }

  /** Filtering commutes with concatenation, so the recent list keeps the
      list's order. */
  lemma {:induction false} RecentAppend(a: seq<Segment>, b: seq<Segment>, nowMicros: int, parseTime: string -> Option<int>)
    ensures RecentSpec(a + b, nowMicros, parseTime) == RecentSpec(a, nowMicros, parseTime) + RecentSpec(b, nowMicros, parseTime)
  {
    if b != [] {
      RecentAppend(a, b[..|b| - 1], nowMicros, parseTime);
      assert (a + b)[..|a + b| - 1] == a + b[..|b| - 1];
    } else {
      assert a + b == a;
    }
  }

  // ---------------------------------------------------------------------
  // Recording routes

  datatype StartStatus =
    | AlreadyRecording
    | RecordingStarted
      /** `int(record_seconds)` raised; the route fails with status 500. */
    | BadRecordSeconds

  datatype StopStatus = NotRecording | RecordingStopped

  /** The request's `device_name`, `BlackHole` by default. */
  function DeviceArg(body: map<string, string>): string {
    if "device_name" in body then body["device_name"] else "BlackHole"
  }

  /** The request's `record_seconds` through Python's `int` (`parseInt`,
      `None` for a `ValueError`), 5 by default. */
  function SecondsArg(body: map<string, string>, parseInt: string -> Option<int>): Option<int> {
    if "record_seconds" in body then parseInt(body["record_seconds"]) else Some(5)
  }

  /** The module's state: the shared store, its own copy of `is_recording`
      and the global `transcriber`. */
  class RecordingRoutes {
    const store: TranscriptStore
    const isRecordingAtImport: bool
    var transcriber: WebTranscriber?

    /** The global transcriber, when there is one, reports to the shared store. */
    predicate Valid()
      reads this
    {
      transcriber != null ==> transcriber.store == store
    }

    constructor (store: TranscriptStore)
      ensures Valid()
      ensures this.store == store && isRecordingAtImport == store.isRecording && transcriber == null
    {
      this.store := store;
      isRecordingAtImport := store.isRecording;
      transcriber := null;
    }

    /** `POST /api/recording/start` as written, deciding on the imported copy
        of the flag. `body` is the request's JSON (`{}` when absent) and
        `deviceNames` the devices PyAudio reports. */
    method StartRecording(body: map<string, string>, parseInt: string -> Option<int>, deviceNames: seq<string>)
      returns (status: StartStatus)
      requires Valid()
      modifies this, store
      ensures Valid()
      ensures isRecordingAtImport ==>
        status == AlreadyRecording && transcriber == old(transcriber)
        && store.transcriptions == old(store.transcriptions) && store.isRecording == old(store.isRecording)
      ensures !isRecordingAtImport ==> store.transcriptions == []
      ensures !isRecordingAtImport && SecondsArg(body, parseInt).None? ==>
        status == BadRecordSeconds && transcriber == old(transcriber) && store.isRecording == old(store.isRecording)
      ensures !isRecordingAtImport && SecondsArg(body, parseInt).Some? ==>
        status == RecordingStarted && transcriber != null && fresh(transcriber) && fresh(transcriber.transcriber)
        && transcriber.store == store && store.isRecording
        && transcriber.transcriber.deviceName == DeviceArg(body)
        && transcriber.transcriber.recordSeconds == SecondsArg(body, parseInt).value
        && !transcriber.transcriber.stopRecording
    {
      if isRecordingAtImport {
        return AlreadyRecording;
      }
      status := Launch(body, parseInt, deviceNames);
    }

    /** The part of `start_recording` after the flag test: clear the list,
        read the arguments, create and start a transcriber. */
    method Launch(body: map<string, string>, parseInt: string -> Option<int>, deviceNames: seq<string>)
      returns (status: StartStatus)
      requires Valid()
      modifies this, store
      ensures Valid()
      ensures store.transcriptions == []
      ensures SecondsArg(body, parseInt).None? ==>
        status == BadRecordSeconds && transcriber == old(transcriber) && store.isRecording == old(store.isRecording)
      ensures SecondsArg(body, parseInt).Some? ==>
        status == RecordingStarted && transcriber != null && fresh(transcriber) && fresh(transcriber.transcriber)
        && transcriber.store == store && store.isRecording
        && transcriber.transcriber.deviceName == DeviceArg(body)
        && transcriber.transcriber.recordSeconds == SecondsArg(body, parseInt).value
        && !transcriber.transcriber.stopRecording
    {
      store.transcriptions := [];
      var deviceName := DeviceArg(body);
      var recordSeconds := SecondsArg(body, parseInt);
      if recordSeconds.None? {
        return BadRecordSeconds;
      }
      var t := new WebTranscriber(store, deviceName, recordSeconds.value, deviceNames);
      transcriber := t;
      t.Start();
      return RecordingStarted;
    }

    /** `POST /api/recording/stop` as written. */
    method StopRecording() returns (status: StopStatus)
      requires Valid()
      modifies this`transcriber, store`isRecording
      modifies if transcriber == null then {} else {transcriber.transcriber}`stopRecording
      ensures Valid()
      ensures !isRecordingAtImport || old(transcriber) == null ==>
        status == NotRecording && transcriber == old(transcriber) && store.isRecording == old(store.isRecording)
        && (old(transcriber) != null ==> unchanged(old(transcriber).transcriber))
      ensures isRecordingAtImport && old(transcriber) != null ==>
        status == RecordingStopped && transcriber == null && !store.isRecording
        && old(transcriber).transcriber.stopRecording
      ensures store.transcriptions == old(store.transcriptions)
    {
      if !isRecordingAtImport || transcriber == null {
        return NotRecording;
      }
      status := Halt();
    }

    /** The part of `stop_recording` after the test: stop the transcriber and
        forget it. */
    method Halt() returns (status: StopStatus)
      requires transcriber != null
      requires Valid()
      modifies this`transcriber, store`isRecording, transcriber.transcriber`stopRecording
      ensures Valid()
      ensures status == RecordingStopped && transcriber == null && !store.isRecording
      ensures old(transcriber).transcriber.stopRecording
      ensures store.transcriptions == old(store.transcriptions)
    {
      transcriber.Stop();
      transcriber := null;
      return RecordingStopped;
    }

    /** `GET /api/recording/status` as written. */
    method RecordingStatus() returns (isRecording: bool)
      ensures isRecording == isRecordingAtImport
    {
      return isRecordingAtImport;
    }

    /** `POST /api/recording/start` reading the live flag. */
    method StartRecordingLive(body: map<string, string>, parseInt: string -> Option<int>, deviceNames: seq<string>)
      returns (status: StartStatus)
      requires Valid()
      modifies this, store
      ensures Valid()
      ensures old(store.isRecording) ==>
        status == AlreadyRecording && transcriber == old(transcriber)
        && store.transcriptions == old(store.transcriptions) && store.isRecording
      ensures !old(store.isRecording) ==> store.transcriptions == []
      ensures !old(store.isRecording) && SecondsArg(body, parseInt).None? ==>
        status == BadRecordSeconds && transcriber == old(transcriber) && !store.isRecording
      ensures !old(store.isRecording) && SecondsArg(body, parseInt).Some? ==>
        status == RecordingStarted && transcriber != null && fresh(transcriber) && fresh(transcriber.transcriber)
        && transcriber.store == store && store.isRecording
    {
      if store.isRecording {
        return AlreadyRecording;
      }
      status := Launch(body, parseInt, deviceNames);
    }

    /** `POST /api/recording/stop` reading the live flag. */
    method StopRecordingLive() returns (status: StopStatus)
      requires Valid()
      modifies this`transcriber, store`isRecording
      modifies if transcriber == null then {} else {transcriber.transcriber}`stopRecording
      ensures Valid()
      ensures !old(store.isRecording) || old(transcriber) == null ==>
        status == NotRecording && transcriber == old(transcriber) && store.isRecording == old(store.isRecording)
        && (old(transcriber) != null ==> unchanged(old(transcriber).transcriber))
      ensures old(store.isRecording) && old(transcriber) != null ==>
        status == RecordingStopped && transcriber == null && !store.isRecording
        && old(transcriber).transcriber.stopRecording
      ensures store.transcriptions == old(store.transcriptions)
    {
      if !store.isRecording || transcriber == null {
        return NotRecording;
      }
      status := Halt();
    }

    /** `GET /api/recording/status` reading the live flag. */
    method RecordingStatusLive() returns (isRecording: bool)
      ensures isRecording == store.isRecording
    {
      return store.isRecording;
    }
  }

  /** As written, a server that starts a recording can never stop it: the
      stop route answers `not_recording` and the status route `false`, while
      the recording runs and its transcriber was never told to stop. */
  method StopAfterStartAsWritten(deviceNames: seq<string>, parseInt: string -> Option<int>)
    returns (started: StartStatus, reported: bool, stopped: StopStatus, stillRecording: bool, stopFlag: bool)
    ensures started == RecordingStarted && !reported && stopped == NotRecording && stillRecording && !stopFlag
  {
    var store := new TranscriptStore();
    var routes := new RecordingRoutes(store);
    started := routes.StartRecording(map[], parseInt, deviceNames);
    var t := routes.transcriber;
    assert !t.transcriber.stopRecording;
    reported := routes.RecordingStatus();
    stopped := routes.StopRecording();
    stillRecording := store.isRecording;
    stopFlag := t.transcriber.stopRecording;
  }

  /** As written, a second start while recording is accepted again. */
  method StartTwiceAsWritten(deviceNames: seq<string>, parseInt: string -> Option<int>)
    returns (first: StartStatus, second: StartStatus)
    ensures first == RecordingStarted && second == RecordingStarted
  {
    var store := new TranscriptStore();
    var routes := new RecordingRoutes(store);
    first := routes.StartRecording(map[], parseInt, deviceNames);
    second := routes.StartRecording(map[], parseInt, deviceNames);
  }

  /** With the live flag, the status follows the recording, a second start
      is refused, and stop stops. */
  method StopAfterStartLive(deviceNames: seq<string>, parseInt: string -> Option<int>)
    returns (started: StartStatus, again: StartStatus, reported: bool, stopped: StopStatus, stillRecording: bool)
    ensures started == RecordingStarted && again == AlreadyRecording && reported
    ensures stopped == RecordingStopped && !stillRecording
  {
    var store := new TranscriptStore();
    var routes := new RecordingRoutes(store);
    started := routes.StartRecordingLive(map[], parseInt, deviceNames);
    again := routes.StartRecordingLive(map[], parseInt, deviceNames);
    reported := routes.RecordingStatusLive();
    stopped := routes.StopRecordingLive();
    stillRecording := store.isRecording;
  }
}
