/** record_and_transcript.py: `WhisperTranscriber` records from the first
    input device whose name contains a given text, packs the frames into
    chunks, transcribes each chunk and writes the texts to a file.

    The three worker threads and the PyAudio stream are not modelled as
    concurrent activities: each thread is a method that runs its loop over
    the values it would consume (the frames the stream returned before the
    stop flag was seen, the chunks on the audio queue, the texts on the text
    queue), and `Start` runs them in the order the data flows through the
    queues. */
module RecordAndTranscript {
  import opened Text
  import opened Capture

  /** The device lookup of `WhisperTranscriber.__init__`: the index of the
      first device whose name contains `deviceName`, or `None` when no name does. */
  method FindDevice(deviceNames: seq<string>, deviceName: string) returns (index: Option<nat>)
    ensures index.Some? ==>
      index.value < |deviceNames| && Contains(deviceNames[index.value], deviceName)
      && forall j :: 0 <= j < index.value ==> !Contains(deviceNames[j], deviceName)
    ensures index.None? <==> forall j :: 0 <= j < |deviceNames| ==> !Contains(deviceNames[j], deviceName)
  {
    var i := 0;
    while i < |deviceNames|
      invariant 0 <= i <= |deviceNames|
      invariant forall j :: 0 <= j < i ==> !Contains(deviceNames[j], deviceName)
    {
      if Contains(deviceNames[i], deviceName) {
        return Some(i);
      }
      i := i + 1;
    }
    return None;
  }

  class WhisperTranscriber {
    const deviceName: string
    const sampleRate: int
    const chunkSize: int
    const recordSeconds: int
    const framesPerBuffer: int
    /** `None` when no device matched; the constructor then returns early. */
    const deviceIndex: Option<nat>
    var audioQueue: seq<Bytes>
    var textQueue: seq<string>
    var stopRecording: bool
    var allAudioData: seq<Bytes>
    /** The contents of the transcription file. */
    var output: string

    /** `deviceNames` are the names PyAudio reports, by device index. */
    constructor (deviceName: string, sampleRate: int, chunkSize: int, recordSeconds: int, deviceNames: seq<string>)
      ensures this.deviceName == deviceName && this.sampleRate == sampleRate
      ensures this.chunkSize == chunkSize && this.recordSeconds == recordSeconds
      ensures framesPerBuffer == sampleRate * recordSeconds
      ensures audioQueue == [] && textQueue == [] && !stopRecording && allAudioData == [] && output == ""
      ensures deviceIndex.Some? ==>
        deviceIndex.value < |deviceNames| && Contains(deviceNames[deviceIndex.value], deviceName)
        && forall j :: 0 <= j < deviceIndex.value ==> !Contains(deviceNames[j], deviceName)
      ensures deviceIndex.None? <==> forall j :: 0 <= j < |deviceNames| ==> !Contains(deviceNames[j], deviceName)
    {
      var index := FindDevice(deviceNames, deviceName);
      this.deviceName := deviceName;
      this.sampleRate := sampleRate;
      this.chunkSize := chunkSize;
      this.recordSeconds := recordSeconds;
      framesPerBuffer := sampleRate * recordSeconds;
      deviceIndex := index;
      audioQueue := [];
      textQueue := [];
      stopRecording := false;
      allAudioData := [];
      output := "";
    }

    /** `record_audio_thread` over the frames `captured` that the stream
        returned before the stop flag was seen. `ok` is false when computing
        `chunks_per_buffer` raises (a zero `chunk_size`); `pending` is the
        local `frames` buffer when the loop exits, which is never enqueued. */
    method RecordAudioThread(captured: seq<Bytes>) returns (ok: bool, pending: seq<Bytes>)
      modifies this`allAudioData, this`audioQueue
      ensures ok <==> chunkSize != 0
      ensures ok ==>
        var cpb := ChunksPerBuffer(framesPerBuffer, chunkSize).value;
        Recording(pending, allAudioData, audioQueue)
          == Record(Recording([], old(allAudioData), old(audioQueue)), captured, cpb)
      ensures ok ==> (audioQueue == old(audioQueue) + Enqueued(framesPerBuffer, chunkSize, captured)
        && allAudioData == old(allAudioData) + captured
        && pending == Leftover(captured, Width(ChunksPerBuffer(framesPerBuffer, chunkSize).value)))
      ensures !ok ==> pending == [] && allAudioData == old(allAudioData) && audioQueue == old(audioQueue)
    {
      var cpbOpt := ChunksPerBuffer(framesPerBuffer, chunkSize);
      if cpbOpt.None? {
        return false, [];
      }
      var cpb := cpbOpt.value;
      ghost var start := Recording([], allAudioData, audioQueue);
      var frames: seq<Bytes> := [];
      var i := 0;
      while i < |captured|
        invariant 0 <= i <= |captured|
        invariant Recording(frames, allAudioData, audioQueue) == Record(start, captured[..i], cpb)
      {
        var data := captured[i];
        frames := frames + [data];
        allAudioData := allAudioData + [data];
        if |frames| >= cpb {
          audioQueue := audioQueue + [Join(frames)];
          frames := [];
        }
        assert captured[..i + 1][..i] == captured[..i];
        i := i + 1;
      }
      assert captured[..i] == captured;
      RecordIsChunking(start.allAudio, start.queued, captured, cpb);
      return true, frames;
    }

    /** The body of the transcription loop for one reply: a non-empty
        stripped text is put on `text_queue`. */
    method TakeText(reply: WhisperReply)
      modifies this`textQueue
      ensures textQueue == old(textQueue) + TextOf(reply)
    {
      if reply.Transcript? {
        var text := Strip(reply.text);
        if text != "" {
          textQueue := textQueue + [text];
        }
      }
    }

    /** `transcribe_thread`: every queued chunk is sent to Whisper (`whisper`
        gives the reply for a chunk) and its stripped, non-empty text is put on
        the text queue. `finished` tells whether the loop exits once the queue
        is empty (the stop flag is set) or keeps waiting for more audio. */
    method TranscribeThread(whisper: Bytes -> WhisperReply) returns (finished: bool)
      modifies this`audioQueue, this`textQueue
      ensures audioQueue == []
      ensures textQueue == old(textQueue) + Transcripts(old(audioQueue), whisper)
      ensures finished == stopRecording
    {
      ghost var chunks, texts := audioQueue, textQueue;
      ghost var k := 0;
      while audioQueue != []
        invariant 0 <= k <= |chunks| && audioQueue == chunks[k..]
        invariant textQueue == texts + Transcripts(chunks[..k], whisper)
        decreases |audioQueue|
      {
        var audio := audioQueue[0];
        assert audio == chunks[k];
        audioQueue := audioQueue[1..];
        TranscriptsStep(chunks, k, whisper);
        ConcatAssoc(texts, Transcripts(chunks[..k], whisper), TextOf(whisper(audio)));
        TakeText(whisper(audio));
        k := k + 1;
      }
      assert chunks[..k] == chunks;
      return stopRecording;
    }

    /** `save_transcription_thread`: the file is opened for writing (so it
        starts empty) and each queued text is written on a line of its own. */
    method SaveTranscriptionThread() returns (finished: bool)
      modifies this`textQueue, this`output
      ensures output == PlainLines(old(textQueue))
      ensures textQueue == []
      ensures finished == stopRecording
    {
      ghost var texts := textQueue;
      output := "";
      var k := 0;
      while textQueue != []
        invariant 0 <= k <= |texts| && textQueue == texts[k..]
        invariant output == PlainLines(texts[..k])
        decreases |textQueue|
      {
        var text := textQueue[0];
        textQueue := textQueue[1..];
        output := output + text + "\n";
        assert texts[..k + 1][..k] == texts[..k];
        k := k + 1;
      }
      assert texts[..k] == texts;
      return stopRecording;
    }

    /** `stop`: sets the stop flag. */
    method Stop()
      modifies this`stopRecording
      ensures stopRecording
    {
      stopRecording := true;
    }

    /** The end of `start`: the recording is saved when `saveAudio` is set and
        some audio was captured; the bytes written are all captured frames. */
    method AudioToSave(saveAudio: bool) returns (audio: Option<Bytes>)
      ensures audio.Some? <==> saveAudio && allAudioData != []
      ensures audio.Some? ==> audio.value == Join(allAudioData)
    {
      if saveAudio && allAudioData != [] {
        audio := Some(Join(allAudioData));
      } else {
        audio := None;
      }
    }

    /** `start` followed through to its end: the frames `captured` are
        recorded, the transcriber is stopped and the threads drain their
        queues; every text reaches the file in the order its chunk was
        recorded. */
    method Start(captured: seq<Bytes>, whisper: Bytes -> WhisperReply, saveAudio: bool)
      returns (savedAudio: Option<Bytes>)
      modifies this
      ensures stopRecording && audioQueue == [] && textQueue == []
      ensures output == PlainLines(old(textQueue)
        + Transcripts(old(audioQueue) + Enqueued(framesPerBuffer, chunkSize, captured), whisper))
      ensures allAudioData == old(allAudioData) + (if chunkSize == 0 then [] else captured)
      ensures savedAudio.Some? <==> saveAudio && allAudioData != []
      ensures savedAudio.Some? ==> savedAudio.value == Join(allAudioData)
    {
      ghost var chunks := audioQueue + Enqueued(framesPerBuffer, chunkSize, captured);
      var _, _ := RecordAudioThread(captured);
      assert audioQueue == chunks;
      Stop();
      var _ := TranscribeThread(whisper);
      var _ := SaveTranscriptionThread();
      savedAudio := AudioToSave(saveAudio);
    }
  }
}
