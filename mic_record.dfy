/** mic_record.py: `MicrophoneTranscriber`, the microphone variant of the
    transcriber. It differs from `WhisperTranscriber` in its device choice
    (the default input device, or one the user picks at the terminal) and in
    writing a timestamp before each text. Threads are modelled as in
    record_and_transcript.py: each is a method running its loop over the
    values it consumes. */
module MicRecord {
  import opened Text
  import opened Capture

  datatype DeviceInfo = DeviceInfo(name: string, maxInputChannels: int)

  /** The indices of the devices with at least one input channel, in order. */
  function InputDevices(devices: seq<DeviceInfo>): seq<int> {
    if devices == [] then []
    else
      var init := InputDevices(devices[..|devices| - 1]);
      if Last(devices).maxInputChannels > 0 then init + [|devices| - 1] else init
  }

  predicate IsInputDevice(devices: seq<DeviceInfo>, x: int) {
    0 <= x < |devices| && devices[x].maxInputChannels > 0
  }

  lemma {:induction false} InputDevicesSpec(devices: seq<DeviceInfo>, x: int)
    ensures x in InputDevices(devices) <==> IsInputDevice(devices, x)
  {
    if devices != [] {
      InputDevicesSpec(devices[..|devices| - 1], x);
    }
  }

  /** The first typed index that parses and names an input device. */
  function FirstAccepted(typed: seq<string>, devices: seq<DeviceInfo>, parseInt: string -> Option<int>): Option<int> {
    if typed == [] then None
    else
      var parsed := parseInt(typed[0]);
      if parsed.Some? && IsInputDevice(devices, parsed.value) then parsed
      else FirstAccepted(typed[1..], devices, parseInt)
  }

  predicate Accepted(parsed: Option<int>, devices: seq<DeviceInfo>) {
    parsed.Some? && IsInputDevice(devices, parsed.value)
  }

  /** The selection loop accepts only an index of an input device, the first
      one typed; when none is typed before the input ends it gives `None`. */
  lemma {:induction false} FirstAcceptedSpec(typed: seq<string>, devices: seq<DeviceInfo>, parseInt: string -> Option<int>)
    ensures var r := FirstAccepted(typed, devices, parseInt);
      && (r.Some? ==>
            IsInputDevice(devices, r.value)
            && exists m :: 0 <= m < |typed| && parseInt(typed[m]) == r
                 && forall n :: 0 <= n < m ==> !Accepted(parseInt(typed[n]), devices))
      && (r.None? <==> forall n :: 0 <= n < |typed| ==> !Accepted(parseInt(typed[n]), devices))
  {
    if typed != [] {
      FirstAcceptedSpec(typed[1..], devices, parseInt);
      var r := FirstAccepted(typed, devices, parseInt);
      if !Accepted(parseInt(typed[0]), devices) {
        if r.Some? {
          var m :| 0 <= m < |typed[1..]| && parseInt(typed[1..][m]) == r
            && forall n :: 0 <= n < m ==> !Accepted(parseInt(typed[1..][n]), devices);
          assert parseInt(typed[m + 1]) == r;
          assert forall n :: 0 <= n < m + 1 ==> !Accepted(parseInt(typed[n]), devices) by {
            forall n | 0 <= n < m + 1 ensures !Accepted(parseInt(typed[n]), devices) {
              if n > 0 {
                assert typed[n] == typed[1..][n - 1];
              }
            }
          }
        } else {
          assert forall n :: 0 <= n < |typed| ==> !Accepted(parseInt(typed[n]), devices) by {
            forall n | 0 <= n < |typed| ensures !Accepted(parseInt(typed[n]), devices) {
              if n > 0 {
                assert typed[n] == typed[1..][n - 1];
              }
            }
          }
        }
      } else {
        assert parseInt(typed[0]) == r;
      }
    }
  }

  /** `find_microphone`. `defaultIndex` is the default input device's index
      (`None` when PyAudio raises for want of one), `interactive` whether
      standard input is a terminal, `answers` the lines typed there (the
      input ends after the last; reading past it raises `EOFError`), and
      `parseInt` Python's `int` on a line (`None` for a `ValueError`). Every
      exception is caught and gives `None`. */
  method FindMicrophone(defaultIndex: Option<int>, devices: seq<DeviceInfo>, interactive: bool,
                        answers: seq<string>, parseInt: string -> Option<int>)
    returns (index: Option<int>)
    ensures defaultIndex.None? ==> index.None?
    ensures defaultIndex.Some? && !interactive ==> index == defaultIndex
    ensures defaultIndex.Some? && interactive && answers == [] ==> index.None?
    ensures defaultIndex.Some? && interactive && answers != [] && Lower(answers[0]) == "y" ==> index == defaultIndex
    ensures defaultIndex.Some? && interactive && answers != [] && Lower(answers[0]) != "y" ==>
      index == FirstAccepted(answers[1..], devices, parseInt)
  {
    if defaultIndex.None? {
      return None;
    }
    var inputDevices: seq<int> := [];
    var i := 0;
    while i < |devices|
      invariant 0 <= i <= |devices|
      invariant inputDevices == InputDevices(devices[..i])
    {
      if devices[i].maxInputChannels > 0 {
        inputDevices := inputDevices + [i];
      }
      assert devices[..i + 1][..i] == devices[..i];
      i := i + 1;
    }
    assert devices[..i] == devices;
    if interactive {
      if answers == [] {
        return None;
      }
      if Lower(answers[0]) == "y" {
        return defaultIndex;
      }
      var k := 1;
      while k < |answers|
        invariant 1 <= k <= |answers|
        invariant FirstAccepted(answers[k..], devices, parseInt) == FirstAccepted(answers[1..], devices, parseInt)
      {
        var parsed := parseInt(answers[k]);
        if parsed.Some? {
          InputDevicesSpec(devices, parsed.value);
          if parsed.value in inputDevices {
            return parsed;
          }
        }
        assert answers[k..][1..] == answers[k + 1..];
        k := k + 1;
      }
      return None;
    }
    return defaultIndex;
  }

  /** One line of the microphone transcript file. */
  function StampedLine(timestamp: string, text: string): string {
    "[" + timestamp + "] " + text + "\n"
  }

  /** The file contents `save_transcription_thread` writes; `stamp(k)` is the
      time at which the `k`-th text was taken off the queue. */
  function StampedLines(texts: seq<string>, stamp: nat -> string): string {
    if texts == [] then ""
    else StampedLines(texts[..|texts| - 1], stamp) + StampedLine(stamp(|texts| - 1), Last(texts))
  }

  /** The texts prefixed by their bracketed timestamps. */
  function Stamped(texts: seq<string>, stamp: nat -> string): (r: seq<string>)
    ensures |r| == |texts|
  {
    seq(|texts|, k requires 0 <= k < |texts| => "[" + stamp(k) + "] " + texts[k])
  }

  /** The microphone file is the plain file of the stamped texts: one line per
      text, in queue order, each carrying its timestamp. */
  lemma {:induction false} StampedIsPlain(texts: seq<string>, stamp: nat -> string)
    ensures StampedLines(texts, stamp) == PlainLines(Stamped(texts, stamp))
  {
    if texts != [] {
      var init := texts[..|texts| - 1];
      var line := "[" + stamp(|texts| - 1) + "] " + Last(texts);
      StampedIsPlain(init, stamp);
      assert Stamped(texts, stamp)[..|texts| - 1] == Stamped(init, stamp);
      assert Last(Stamped(texts, stamp)) == line;
      ConcatAssoc(PlainLines(Stamped(init, stamp)), line, "\n");
    }
  }

  class MicrophoneTranscriber {
    const sampleRate: int
    const chunkSize: int
    const recordSeconds: int
    const framesPerBuffer: int
    const micIndex: Option<int>
    var audioQueue: seq<Bytes>
    var textQueue: seq<string>
    var stopRecording: bool
    var allAudioData: seq<Bytes>
    /** The contents of the transcription file. */
    var output: string

    /** The device choice takes the inputs of `FindMicrophone`. */
    constructor (sampleRate: int, chunkSize: int, recordSeconds: int,
                 defaultIndex: Option<int>, devices: seq<DeviceInfo>, interactive: bool,
                 answers: seq<string>, parseInt: string -> Option<int>)
      ensures this.sampleRate == sampleRate && this.chunkSize == chunkSize && this.recordSeconds == recordSeconds
      ensures framesPerBuffer == sampleRate * recordSeconds
      ensures audioQueue == [] && textQueue == [] && !stopRecording && allAudioData == [] && output == ""
      ensures defaultIndex.None? ==> micIndex.None?
      ensures defaultIndex.Some? && !interactive ==> micIndex == defaultIndex
      ensures defaultIndex.Some? && interactive && answers == [] ==> micIndex.None?
      ensures defaultIndex.Some? && interactive && answers != [] && Lower(answers[0]) == "y" ==> micIndex == defaultIndex
      ensures defaultIndex.Some? && interactive && answers != [] && Lower(answers[0]) != "y" ==>
        micIndex == FirstAccepted(answers[1..], devices, parseInt)
    {
      var index := FindMicrophone(defaultIndex, devices, interactive, answers, parseInt);
      this.sampleRate := sampleRate;
      this.chunkSize := chunkSize;
      this.recordSeconds := recordSeconds;
      framesPerBuffer := sampleRate * recordSeconds;
      micIndex := index;
      audioQueue := [];
      textQueue := [];
      stopRecording := false;
      allAudioData := [];
      output := "";
    }

    /** `record_audio_thread` over the frames `captured` that the stream
        returned before the stop flag was seen. `ok` is false when computing
        `chunks_per_buffer` raises (a zero `chunk_size`); `pending` is the
        local `frames` buffer when the loop exits, which is never enqueued. */
    method RecordAudioThread(captured: seq<Bytes>) returns (ok: bool, pending: seq<Bytes>)
      modifies this`allAudioData, this`audioQueue
      ensures ok <==> chunkSize != 0
      ensures ok ==>
        var cpb := ChunksPerBuffer(framesPerBuffer, chunkSize).value;
        Recording(pending, allAudioData, audioQueue)
          == Record(Recording([], old(allAudioData), old(audioQueue)), captured, cpb)
      ensures ok ==> (audioQueue == old(audioQueue) + Enqueued(framesPerBuffer, chunkSize, captured)
        && allAudioData == old(allAudioData) + captured
        && pending == Leftover(captured, Width(ChunksPerBuffer(framesPerBuffer, chunkSize).value)))
      ensures !ok ==> pending == [] && allAudioData == old(allAudioData) && audioQueue == old(audioQueue)
    {
      var cpbOpt := ChunksPerBuffer(framesPerBuffer, chunkSize);
      if cpbOpt.None? {
        return false, [];
      }
      var cpb := cpbOpt.value;
      ghost var start := Recording([], allAudioData, audioQueue);
      var frames: seq<Bytes> := [];
      var i := 0;
      while i < |captured|
        invariant 0 <= i <= |captured|
        invariant Recording(frames, allAudioData, audioQueue) == Record(start, captured[..i], cpb)
      {
        var data := captured[i];
        frames := frames + [data];
        allAudioData := allAudioData + [data];
        if |frames| >= cpb {
          audioQueue := audioQueue + [Join(frames)];
          frames := [];
        }
        assert captured[..i + 1][..i] == captured[..i];
        i := i + 1;
      }
      assert captured[..i] == captured;
      RecordIsChunking(start.allAudio, start.queued, captured, cpb);
      return true, frames;
    }

    /** The body of the transcription loop for one reply: a non-empty
        stripped text is put on `text_queue`. */
    method TakeText(reply: WhisperReply)
      modifies this`textQueue
      ensures textQueue == old(textQueue) + TextOf(reply)
    {
      if reply.Transcript? {
        var text := Strip(reply.text);
        if text != "" {
          textQueue := textQueue + [text];
        }
      }
    }

    /** `transcribe_thread`: every queued chunk is sent to Whisper (`whisper`
        gives the reply for a chunk) and its stripped, non-empty text is put on
        the text queue. `finished` tells whether the loop exits once the queue
        is empty (the stop flag is set) or keeps waiting for more audio. */
    method TranscribeThread(whisper: Bytes -> WhisperReply) returns (finished: bool)
      modifies this`audioQueue, this`textQueue
      ensures audioQueue == []
      ensures textQueue == old(textQueue) + Transcripts(old(audioQueue), whisper)
      ensures finished == stopRecording
    {
      ghost var chunks, texts := audioQueue, textQueue;
      ghost var k := 0;
      while audioQueue != []
        invariant 0 <= k <= |chunks| && audioQueue == chunks[k..]
        invariant textQueue == texts + Transcripts(chunks[..k], whisper)
        decreases |audioQueue|
      {
        var audio := audioQueue[0];
        assert audio == chunks[k];
        audioQueue := audioQueue[1..];
        TranscriptsStep(chunks, k, whisper);
        ConcatAssoc(texts, Transcripts(chunks[..k], whisper), TextOf(whisper(audio)));
        TakeText(whisper(audio));
        k := k + 1;
      }
      assert chunks[..k] == chunks;
      return stopRecording;
    }

    /** `save_transcription_thread`: the file is opened for writing (so it
        starts empty) and each queued text is written on a line of its own,
        after the time it was taken off the queue. */
    method SaveTranscriptionThread(stamp: nat -> string) returns (finished: bool)
      modifies this`textQueue, this`output
      ensures output == StampedLines(old(textQueue), stamp)
      ensures textQueue == []
      ensures finished == stopRecording
    {
      ghost var texts := textQueue;
      output := "";
      var k := 0;
      while textQueue != []
        invariant 0 <= k <= |texts| && textQueue == texts[k..]
        invariant output == StampedLines(texts[..k], stamp)
        decreases |textQueue|
      {
        var text := textQueue[0];
        textQueue := textQueue[1..];
        var timestamp := stamp(k);
        output := output + ("[" + timestamp + "] " + text + "\n");
        assert texts[..k + 1][..k] == texts[..k] && text == texts[k];
        k := k + 1;
      }
      assert texts[..k] == texts;
      return stopRecording;
    }

    /** `stop`: sets the stop flag. */
    method Stop()
      modifies this`stopRecording
      ensures stopRecording
    {
      stopRecording := true;
    }

    /** The end of `start`: the recording is saved when `saveAudio` is set and
        some audio was captured; the bytes written are all captured frames. */
    method AudioToSave(saveAudio: bool) returns (audio: Option<Bytes>)
      ensures audio.Some? <==> saveAudio && allAudioData != []
      ensures audio.Some? ==> audio.value == Join(allAudioData)
    {
      if saveAudio && allAudioData != [] {
        audio := Some(Join(allAudioData));
      } else {
        audio := None;
      }
    }

    /** `start` followed through to its end, as for `WhisperTranscriber`. */
    method Start(captured: seq<Bytes>, whisper: Bytes -> WhisperReply, stamp: nat -> string, saveAudio: bool)
      returns (savedAudio: Option<Bytes>)
      modifies this
      ensures stopRecording && audioQueue == [] && textQueue == []
      ensures output == StampedLines(old(textQueue)
        + Transcripts(old(audioQueue) + Enqueued(framesPerBuffer, chunkSize, captured), whisper), stamp)
      ensures allAudioData == old(allAudioData) + (if chunkSize == 0 then [] else captured)
      ensures savedAudio.Some? <==> saveAudio && allAudioData != []
      ensures savedAudio.Some? ==> savedAudio.value == Join(allAudioData)
    {
      ghost var chunks := audioQueue + Enqueued(framesPerBuffer, chunkSize, captured);
      var _, _ := RecordAudioThread(captured);
      assert audioQueue == chunks;
      Stop();
      var _ := TranscribeThread(whisper);
      var _ := SaveTranscriptionThread(stamp);
      savedAudio := AudioToSave(saveAudio);
    }
  }
}
