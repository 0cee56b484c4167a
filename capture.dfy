/** The audio pipeline shared by `WhisperTranscriber` (record_and_transcript.py)
    and `MicrophoneTranscriber` (mic_record.py): the recording loop that packs
    fixed-size frames into chunks, the transcription loop that turns chunks
    into text, and the lines the saving loop writes. Each loop is specified
    here by a function over the sequence of values it consumes; the two
    classes prove their loops against these functions. */
module Capture {
  import opened Text

  type Byte = b: int | 0 <= b < 256
  type Bytes = seq<Byte>

  /** `b''.join(frames)`. */
  function Join(frames: seq<Bytes>): Bytes {
    if frames == [] then [] else Join(frames[..|frames| - 1]) + Last(frames)
  }

  lemma {:induction false} JoinAppend(a: seq<Bytes>, b: seq<Bytes>)
    ensures Join(a + b) == Join(a) + Join(b)
  {
    if b == [] {
      assert a + b == a;
    } else {
      JoinAppend(a, b[..|b| - 1]);
      assert (a + b)[..|a + b| - 1] == a + b[..|b| - 1];
    }
  }

  // ---------------------------------------------------------------------
  // Chunk sizing

  function Abs(x: int): nat { if x < 0 then -x else x }

  /** Python's `int(a / b)`: true division truncated toward zero (the
      rounding of very large quotients by floating point is not modelled). */
  function TruncDiv(a: int, b: int): int
    requires b != 0
  {
    var q := Abs(a) / Abs(b);
    if (a < 0) != (b < 0) then -q else q
  }

  /** `chunks_per_buffer = int(frames_per_buffer / chunk_size)`, where
      `frames_per_buffer = int(sample_rate * record_seconds)`; `None` is the
      `ZeroDivisionError` a zero `chunk_size` raises. */
  function ChunksPerBuffer(framesPerBuffer: int, chunkSize: int): (r: Option<int>)
    ensures r.None? <==> chunkSize == 0
    ensures r.Some? && framesPerBuffer >= 0 && chunkSize > 0 ==>
      0 <= r.value && r.value * chunkSize <= framesPerBuffer < r.value * chunkSize + chunkSize
  {
    if chunkSize == 0 then None else Some(TruncDiv(framesPerBuffer, chunkSize))
  }

  /** The number of frames that actually go into one chunk: the test
      `len(frames) >= chunks_per_buffer` holds for every frame when
      `chunks_per_buffer <= 0`, so each frame is then a chunk on its own. */
  function Width(chunksPerBuffer: int): (w: nat)
    ensures w >= 1
  {
    if chunksPerBuffer <= 0 then 1 else chunksPerBuffer
  }

  // ---------------------------------------------------------------------
  // The recording loop

  /** The recording thread's state: its local `frames` buffer, the
      transcriber's `all_audio_data` and the contents of `audio_queue`. */
  datatype Recording = Recording(frames: seq<Bytes>, allAudio: seq<Bytes>, queued: seq<Bytes>)

  /** One iteration of `record_audio_thread`'s loop after reading `data`. */
  function RecordStep(r: Recording, data: Bytes, chunksPerBuffer: int): Recording {
    var frames := r.frames + [data];
    if |frames| >= chunksPerBuffer then
      Recording([], r.allAudio + [data], r.queued + [Join(frames)])
    else
      Recording(frames, r.allAudio + [data], r.queued)
  }

  /** The loop run over the frames `captured`, in the order the stream returned them. */
  function Record(r: Recording, captured: seq<Bytes>, chunksPerBuffer: int): Recording {
    if captured == [] then r
    else RecordStep(Record(r, captured[..|captured| - 1], chunksPerBuffer), Last(captured), chunksPerBuffer)
  }

  /** Reference definition: consecutive runs of `width` frames, joined. */
  function Chunks(captured: seq<Bytes>, width: nat): seq<Bytes>
    requires width >= 1
    decreases |captured|
  {
    if |captured| < width then [] else [Join(captured[..width])] + Chunks(captured[width..], width)
  }

  /** Reference definition: the frames after the last complete run. */
  function Leftover(captured: seq<Bytes>, width: nat): seq<Bytes>
    requires width >= 1
    decreases |captured|
  {
    if |captured| < width then captured else Leftover(captured[width..], width)
  }

  lemma {:induction false} ChunksSnoc(captured: seq<Bytes>, d: Bytes, width: nat)
    requires width >= 1
    ensures |Leftover(captured, width)| < width
    ensures |Leftover(captured, width)| + 1 == width ==>
      Chunks(captured + [d], width) == Chunks(captured, width) + [Join(Leftover(captured, width) + [d])]
      && Leftover(captured + [d], width) == []
    ensures |Leftover(captured, width)| + 1 < width ==>
      Chunks(captured + [d], width) == Chunks(captured, width)
      && Leftover(captured + [d], width) == Leftover(captured, width) + [d]
    decreases |captured|
  {
    if |captured| < width {
      if |captured| + 1 == width {
        assert (captured + [d])[..width] == captured + [d];
        assert (captured + [d])[width..] == [];
      }
    } else {
      ChunksSnoc(captured[width..], d, width);
      assert (captured + [d])[..width] == captured[..width];
      assert (captured + [d])[width..] == captured[width..] + [d];
    }
  }

  /** The recording loop, started with an empty `frames` buffer, enqueues
      exactly the complete runs of `Width(chunks_per_buffer)` frames, keeps the
      rest pending, and appends every frame read to `all_audio_data`. */
  lemma {:induction false} RecordIsChunking(a: seq<Bytes>, q: seq<Bytes>, captured: seq<Bytes>, cpb: int)
    ensures Record(Recording([], a, q), captured, cpb)
      == Recording(Leftover(captured, Width(cpb)), a + captured, q + Chunks(captured, Width(cpb)))
  {
    if captured != [] {
      var init := captured[..|captured| - 1];
      var d := Last(captured);
      RecordIsChunking(a, q, init, cpb);
      ChunksSnoc(init, d, Width(cpb));
      assert init + [d] == captured;
      ConcatAssoc(a, init, [d]);
      ConcatAssoc(q, Chunks(init, Width(cpb)), [Join(Leftover(init, Width(cpb)) + [d])]);
    }
  }

  lemma MulNat(k: nat, w: nat)
    ensures 0 <= k * w
  {
  }

  lemma MulSucc(k: nat, w: nat)
    ensures (k + 1) * w == k * w + w
  {
  }

  lemma {:induction false} ChunksCount(captured: seq<Bytes>, width: nat)
    requires width >= 1
    ensures |Chunks(captured, width)| * width + |Leftover(captured, width)| == |captured|
    ensures |Leftover(captured, width)| < width
    ensures Leftover(captured, width) == captured[|Chunks(captured, width)| * width..]
    decreases |captured|
  {
    if |captured| >= width {
      var rest := captured[width..];
      ChunksCount(rest, width);
      var k := |Chunks(rest, width)|;
      assert |Chunks(captured, width)| == k + 1;
      MulSucc(k, width);
      assert rest[k * width..] == captured[k * width + width..];
    }
  }

  lemma {:induction false} ChunkContents(captured: seq<Bytes>, width: nat, j: nat)
    requires width >= 1 && j < |Chunks(captured, width)|
    ensures j * width + width <= |captured|
    ensures Chunks(captured, width)[j] == Join(captured[j * width..j * width + width])
    decreases |captured|
  {
    if j > 0 {
      var rest := captured[width..];
      ChunkContents(rest, width, j - 1);
      MulSucc(j - 1, width);
      assert rest[(j - 1) * width..(j - 1) * width + width] == captured[j * width..j * width + width];
    }
  }

  lemma {:induction false} ChunksConserveBytes(captured: seq<Bytes>, width: nat)
    requires width >= 1
    ensures Join(Chunks(captured, width)) + Join(Leftover(captured, width)) == Join(captured)
    decreases |captured|
  {
    if |captured| >= width {
      ChunksConserveBytes(captured[width..], width);
      JoinAppend([Join(captured[..width])], Chunks(captured[width..], width));
      JoinAppend(captured[..width], captured[width..]);
      assert captured[..width] + captured[width..] == captured;
      assert Join([Join(captured[..width])]) == Join(captured[..width]) by {
        assert [Join(captured[..width])][..0] == [];
      }
      ConcatAssoc(Join(captured[..width]), Join(Chunks(captured[width..], width)), Join(Leftover(captured[width..], width)));
    }
  }

  /** What the reference chunking promises: `k` complete runs of `w` frames
      where `k * w <= |captured| < k * w + w` (that is, `k` is
      `|captured| div w`); run `j` is the join of frames `j*w .. j*w + w - 1`;
      the leftover is the frames after them, fewer than `w`; and the runs'
      bytes followed by the leftover's are the bytes captured. */
  lemma ChunkingSpec(captured: seq<Bytes>, w: nat)
    requires w >= 1
    ensures var k := |Chunks(captured, w)|;
      k * w <= |captured| < k * w + w
      && Leftover(captured, w) == captured[k * w..]
      && |Leftover(captured, w)| < w
    ensures forall j :: 0 <= j < |Chunks(captured, w)| ==>
      j * w + w <= |captured| && Chunks(captured, w)[j] == Join(captured[j * w..j * w + w])
    ensures Join(Chunks(captured, w)) + Join(Leftover(captured, w)) == Join(captured)
  {
    ChunksCount(captured, w);
    ChunksConserveBytes(captured, w);
    forall j | 0 <= j < |Chunks(captured, w)|
      ensures 0 <= j * w && j * w + w <= |captured| && Chunks(captured, w)[j] == Join(captured[j * w..j * w + w])
    {
      MulNat(j, w);
      ChunkContents(captured, w, j);
    }
  }

  /** With `chunks_per_buffer <= 0` every frame is enqueued on its own. */
  lemma {:induction false} EachFrameAlone(captured: seq<Bytes>)
    ensures Chunks(captured, 1) == captured && Leftover(captured, 1) == []
    decreases |captured|
  {
    if |captured| >= 1 {
      EachFrameAlone(captured[1..]);
      assert captured[..1] == [captured[0]];
      assert Join([captured[0]]) == captured[0] by {
        var one: seq<Bytes> := [captured[0]];
        assert one[..0] == [];
      }
    }
  }

  /** The chunks a recording thread with these settings enqueues for the
      frames `captured`, starting from an empty buffer (none when it raises). */
  function Enqueued(framesPerBuffer: int, chunkSize: int, captured: seq<Bytes>): seq<Bytes> {
    match ChunksPerBuffer(framesPerBuffer, chunkSize)
    case None => []
    case Some(cpb) => Chunks(captured, Width(cpb))
  }

  // ---------------------------------------------------------------------
  // The transcription loop

  /** What the Whisper call gives for one chunk: the transcript's text, or an
      exception (a missing text is an `AttributeError`, caught the same way). */
  datatype WhisperReply = Transcript(text: string) | ProviderError

  /** What one chunk contributes to `text_queue`: its stripped text, when that
      is not empty. */
  function TextOf(reply: WhisperReply): seq<string> {
    match reply
    case Transcript(t) => if Strip(t) != "" then [Strip(t)] else []
    case ProviderError => []
  }

  /** The texts the transcription loop puts on `text_queue` for `chunks`, in order. */
  function Transcripts(chunks: seq<Bytes>, whisper: Bytes -> WhisperReply): seq<string> {
    if chunks == [] then []
    else Transcripts(chunks[..|chunks| - 1], whisper) + TextOf(whisper(Last(chunks)))
  }

  lemma {:induction false} TranscriptsAppend(a: seq<Bytes>, b: seq<Bytes>, whisper: Bytes -> WhisperReply)
    ensures Transcripts(a + b, whisper) == Transcripts(a, whisper) + Transcripts(b, whisper)
  {
    if b != [] {
      TranscriptsAppend(a, b[..|b| - 1], whisper);
      assert (a + b)[..|a + b| - 1] == a + b[..|b| - 1];
    } else {
      assert a + b == a;
    }
  }

  lemma TranscriptsStep(chunks: seq<Bytes>, k: nat, whisper: Bytes -> WhisperReply)
    requires k < |chunks|
    ensures Transcripts(chunks[..k + 1], whisper) == Transcripts(chunks[..k], whisper) + TextOf(whisper(chunks[k]))
  {
    assert chunks[..k + 1][..k] == chunks[..k];
  }

  /** A chunk whose provider call fails is dropped and the chunks after it are
      still transcribed. */
  lemma FailedChunkIsDropped(a: seq<Bytes>, c: Bytes, b: seq<Bytes>, whisper: Bytes -> WhisperReply)
    requires whisper(c) == ProviderError
    ensures Transcripts(a + [c] + b, whisper) == Transcripts(a, whisper) + Transcripts(b, whisper)
  {
    var one: seq<Bytes> := [c];
    assert one[..0] == [];
    assert Transcripts(one, whisper) == Transcripts([], whisper) + TextOf(whisper(c));
    assert Transcripts(one, whisper) == [];
    TranscriptsAppend(a + one, b, whisper);
    TranscriptsAppend(a, one, whisper);
  }

  /** A text as `strip()` leaves it when it is not empty. */
  predicate StrippedText(t: string) {
    t != "" && !IsSpace(t[0]) && !IsSpace(t[|t| - 1])
  }

  /** Only non-empty, stripped text reaches `text_queue`, one entry at most per chunk. */
  lemma {:induction false} TranscriptsAreStripped(chunks: seq<Bytes>, whisper: Bytes -> WhisperReply)
    ensures |Transcripts(chunks, whisper)| <= |chunks|
    ensures forall k :: 0 <= k < |Transcripts(chunks, whisper)| ==> StrippedText(Transcripts(chunks, whisper)[k])
  {
    if chunks == [] {
      assert Transcripts(chunks, whisper) == [];
    } else {
      var init := chunks[..|chunks| - 1];
      TranscriptsAreStripped(init, whisper);
      var before, last := Transcripts(init, whisper), TextOf(whisper(Last(chunks)));
      assert Transcripts(chunks, whisper) == before + last;
      var reply := whisper(Last(chunks));
      if reply.Transcript? && Strip(reply.text) != "" {
        assert last == [Strip(reply.text)];
        assert StrippedText(last[0]);
      } else {
        assert last == [];
      }
      assert |before + last| <= |chunks|;
      forall k | 0 <= k < |before + last|
        ensures StrippedText((before + last)[k])
      {
        if k < |before| {
          assert (before + last)[k] == before[k];
        } else {
          assert (before + last)[k] == last[k - |before|];
        }
      }
    }
  }

  // ---------------------------------------------------------------------
  // The saving loop of record_and_transcript.py

  /** The file contents `save_transcription_thread` writes: each text followed by a newline. */
  function PlainLines(texts: seq<string>): string {
    if texts == [] then "" else PlainLines(texts[..|texts| - 1]) + Last(texts) + "\n"
  }

  lemma {:induction false} PlainLinesAppend(a: seq<string>, b: seq<string>)
    ensures PlainLines(a + b) == PlainLines(a) + PlainLines(b)
  {
    if b != [] {
      PlainLinesAppend(a, b[..|b| - 1]);
      assert (a + b)[..|a + b| - 1] == a + b[..|b| - 1];
    } else {
      assert a + b == a;
    }
  }
}
