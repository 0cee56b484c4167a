/** web_adapter.py: `WebTranscriber` wraps a `WhisperTranscriber` and
    replaces its transcription loop by one that also records every text,
    with the time it arrived, in the module-level list `transcriptions`,
    and keeps the module-level flag `is_recording`. */
module WebAdapter {
  import opened Text
  import opened Capture
  import RecordAndTranscript

  /** One entry of `transcriptions`: `{"text": ..., "timestamp": ...}`. */
  datatype Segment = Segment(text: string, timestamp: string)

  /** The module's globals `transcriptions` and `is_recording` (the lock that
      guards the list is not modelled). */
  class TranscriptStore {
    var transcriptions: seq<Segment>
    var isRecording: bool

    constructor ()
      ensures transcriptions == [] && !isRecording
    {
      transcriptions := [];
      isRecording := false;
    }
  }

  /** What `_process_audio_chunk` appends to `transcriptions` for a reply
      that came back at `timestamp`. */
  function SegmentOf(reply: WhisperReply, timestamp: string): seq<Segment> {
    match reply
    case Transcript(t) => if Strip(t) != "" then [Segment(Strip(t), timestamp)] else []
    case ProviderError => []
  }

  /** The segments the patched loop records for `chunks`: `clock(k)` is the
      formatted time at which the reply for chunk `k` came back. */
  function Segments(chunks: seq<Bytes>, whisper: Bytes -> WhisperReply, clock: nat -> string): seq<Segment> {
    if chunks == [] then []
    else
      Segments(chunks[..|chunks| - 1], whisper, clock) + SegmentOf(whisper(Last(chunks)), clock(|chunks| - 1))
  }

  /** The `text` fields of `segments`, in order. */
  function Texts(segments: seq<Segment>): (r: seq<string>)
    ensures |r| == |segments|
  {
    if segments == [] then [] else Texts(segments[..|segments| - 1]) + [Last(segments).text]
  }

  lemma {:induction false} TextsAppend(a: seq<Segment>, b: seq<Segment>)
    ensures Texts(a + b) == Texts(a) + Texts(b)
  {
    if b != [] {
      TextsAppend(a, b[..|b| - 1]);
      assert (a + b)[..|a + b| - 1] == a + b[..|b| - 1];
    } else {
      assert a + b == a;
    }
  }

  /** The web list holds exactly the texts the original transcription loop
      would have queued, in the same order. */
  lemma {:induction false} SegmentTextsAreTranscripts(chunks: seq<Bytes>, whisper: Bytes -> WhisperReply, clock: nat -> string)
    ensures Texts(Segments(chunks, whisper, clock)) == Transcripts(chunks, whisper)
  {
    if chunks != [] {
      var init := chunks[..|chunks| - 1];
      SegmentTextsAreTranscripts(init, whisper, clock);
      var b := SegmentOf(whisper(Last(chunks)), clock(|chunks| - 1));
      TextsAppend(Segments(init, whisper, clock), b);
      assert Texts(b) == TextOf(whisper(Last(chunks))) by {
        if b != [] {
          assert b[..0] == [];
        }
      }
    }
  }

  lemma SegmentsStep(chunks: seq<Bytes>, k: nat, whisper: Bytes -> WhisperReply, clock: nat -> string)
    requires k < |chunks|
    ensures Segments(chunks[..k + 1], whisper, clock)
      == Segments(chunks[..k], whisper, clock) + SegmentOf(whisper(chunks[k]), clock(k))
    ensures Transcripts(chunks[..k + 1], whisper) == Transcripts(chunks[..k], whisper) + TextOf(whisper(chunks[k]))
  {
    assert chunks[..k + 1][..k] == chunks[..k];
  }

  class WebTranscriber {
    const transcriber: RecordAndTranscript.WhisperTranscriber
    const store: TranscriptStore

    /** `WebTranscriber(device_name, record_seconds)`: a `WhisperTranscriber`
        with its default sample rate (16000) and chunk size (1024). */
    constructor (store: TranscriptStore, deviceName: string, recordSeconds: int, deviceNames: seq<string>)
      ensures this.store == store && fresh(transcriber)
      ensures transcriber.deviceName == deviceName && transcriber.recordSeconds == recordSeconds
      ensures transcriber.sampleRate == 16000 && transcriber.chunkSize == 1024
      ensures transcriber.audioQueue == [] && transcriber.textQueue == [] && !transcriber.stopRecording
      ensures transcriber.allAudioData == [] && transcriber.output == ""
      ensures transcriber.framesPerBuffer == 16000 * recordSeconds
      ensures transcriber.deviceIndex.Some? ==>
        transcriber.deviceIndex.value < |deviceNames| && Contains(deviceNames[transcriber.deviceIndex.value], deviceName)
        && forall j :: 0 <= j < transcriber.deviceIndex.value ==> !Contains(deviceNames[j], deviceName)
      ensures transcriber.deviceIndex.None? <==> forall j :: 0 <= j < |deviceNames| ==> !Contains(deviceNames[j], deviceName)
    {
      this.store := store;
      transcriber := new RecordAndTranscript.WhisperTranscriber(deviceName, 16000, 1024, recordSeconds, deviceNames);
    }

    /** `_process_audio_chunk` for a chunk whose Whisper reply is `reply` and
        that came back at `timestamp`: a non-empty stripped text is appended
        to the web list and to the text queue and returned; otherwise
        nothing changes and the result is `None`. */
    method ProcessAudioChunk(reply: WhisperReply, timestamp: string) returns (result: Option<string>)
      modifies store`transcriptions, transcriber`textQueue
      ensures result.Some? <==> reply.Transcript? && Strip(reply.text) != ""
      ensures result.Some? ==> result.value == Strip(reply.text)
      ensures store.transcriptions == old(store.transcriptions) + SegmentOf(reply, timestamp)
      ensures transcriber.textQueue == old(transcriber.textQueue) + TextOf(reply)
    {
      if reply.Transcript? {
        var text := Strip(reply.text);
        if text != "" {
          store.transcriptions := store.transcriptions + [Segment(text, timestamp)];
          transcriber.textQueue := transcriber.textQueue + [text];
          return Some(text);
        }
      }
      return None;
    }

    /** The patched `transcribe_thread`: every queued chunk goes through
        `ProcessAudioChunk`. */
    method PatchedTranscribeThread(whisper: Bytes -> WhisperReply, clock: nat -> string) returns (finished: bool)
      modifies store`transcriptions, transcriber`textQueue, transcriber`audioQueue
      ensures transcriber.audioQueue == []
      ensures store.transcriptions == old(store.transcriptions) + Segments(old(transcriber.audioQueue), whisper, clock)
      ensures transcriber.textQueue == old(transcriber.textQueue) + Transcripts(old(transcriber.audioQueue), whisper)
      ensures finished == transcriber.stopRecording
    {
      ghost var chunks, segments0, texts0 := transcriber.audioQueue, store.transcriptions, transcriber.textQueue;
      var k := 0;
      while transcriber.audioQueue != []
        invariant 0 <= k <= |chunks| && transcriber.audioQueue == chunks[k..]
        invariant store.transcriptions == segments0 + Segments(chunks[..k], whisper, clock)
        invariant transcriber.textQueue == texts0 + Transcripts(chunks[..k], whisper)
        decreases |transcriber.audioQueue|
      {
        var audio := transcriber.audioQueue[0];
        assert audio == chunks[k];
        transcriber.audioQueue := transcriber.audioQueue[1..];
        assert transcriber.audioQueue == chunks[k + 1..];
        ghost var segments, texts := Segments(chunks[..k], whisper, clock), Transcripts(chunks[..k], whisper);
        SegmentsStep(chunks, k, whisper, clock);
        ConcatAssoc(segments0, segments, SegmentOf(whisper(audio), clock(k)));
        ConcatAssoc(texts0, texts, TextOf(whisper(audio)));
        var _ := ProcessAudioChunk(whisper(audio), clock(k));
        k := k + 1;
      }
      assert chunks[..k] == chunks;
      return transcriber.stopRecording;
    }

    /** `start`: sets `is_recording`; the recording itself runs in the
        background (see `BackgroundRecording`). */
    method Start()
      modifies store`isRecording
      ensures store.isRecording
    {
      store.isRecording := true;
    }

    /** The first steps of the background run: the transcriber records
        `captured` and is then stopped. */
    method RecordThenStop(captured: seq<Bytes>)
      modifies transcriber`audioQueue, transcriber`stopRecording, transcriber`allAudioData
      ensures transcriber.stopRecording
      ensures transcriber.audioQueue == old(transcriber.audioQueue)
        + Enqueued(transcriber.framesPerBuffer, transcriber.chunkSize, captured)
      ensures transcriber.allAudioData == old(transcriber.allAudioData)
        + (if transcriber.chunkSize == 0 then [] else captured)
    {
      var _, _ := transcriber.RecordAudioThread(captured);
      transcriber.Stop();
    }

    /** The patched loop and then the saving loop drain their queues: the
        web list gains the segments of the queued chunks, and the file holds
        the queued texts followed by the chunks' texts. */
    method DrainThenSave(whisper: Bytes -> WhisperReply, clock: nat -> string)
      modifies store`transcriptions, transcriber`audioQueue, transcriber`textQueue, transcriber`output
      ensures transcriber.audioQueue == [] && transcriber.textQueue == []
      ensures store.transcriptions == old(store.transcriptions) + Segments(old(transcriber.audioQueue), whisper, clock)
      ensures transcriber.output
        == PlainLines(old(transcriber.textQueue) + Transcripts(old(transcriber.audioQueue), whisper))
    {
      var _ := PatchedTranscribeThread(whisper, clock);
      var _ := transcriber.SaveTranscriptionThread();
    }

    /** The background thread of `start`, followed through to its end: the
        transcriber records `captured` and is stopped, the patched loop and the
        saving loop drain their queues, the audio is saved when `saveAudio`
        is set, and the `finally` clause clears `is_recording`. */
    method BackgroundRecording(captured: seq<Bytes>, whisper: Bytes -> WhisperReply, clock: nat -> string,
                               saveAudio: bool)
      returns (savedAudio: Option<Bytes>)
      modifies store`transcriptions, store`isRecording
      modifies transcriber`audioQueue, transcriber`textQueue, transcriber`stopRecording
      modifies transcriber`allAudioData, transcriber`output
      ensures !store.isRecording && transcriber.stopRecording
      ensures transcriber.audioQueue == [] && transcriber.textQueue == []
      ensures var chunks := old(transcriber.audioQueue)
          + Enqueued(transcriber.framesPerBuffer, transcriber.chunkSize, captured);
        store.transcriptions == old(store.transcriptions) + Segments(chunks, whisper, clock)
        && transcriber.output == PlainLines(old(transcriber.textQueue) + Transcripts(chunks, whisper))
      ensures transcriber.allAudioData == old(transcriber.allAudioData)
        + (if transcriber.chunkSize == 0 then [] else captured)
      ensures savedAudio.Some? <==> saveAudio && transcriber.allAudioData != []
      ensures savedAudio.Some? ==> savedAudio.value == Join(transcriber.allAudioData)
    {
      RecordThenStop(captured);
      DrainThenSave(whisper, clock);
      savedAudio := transcriber.AudioToSave(saveAudio);
      store.isRecording := false;
    }

    /** `stop`: sets the transcriber's stop flag and clears `is_recording`. */
    method Stop()
      modifies store`isRecording, transcriber`stopRecording
      ensures !store.isRecording && transcriber.stopRecording
    {
      transcriber.Stop();
      store.isRecording := false;
    }
  }
}
