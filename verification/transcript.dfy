/** The WebVTT transcripts the versions write: a `WEBVTT` line, a blank
    line, then one block per cue made of a timing line, the cue text and a
    blank line. Which cues are written depends on the version: one per
    recognised segment (`local.py`, `run.py`, `process.py`), one per chunk
    of the Hugging Face reply or a single ten-minute cue (`cloud.py`), or
    one karaoke cue per segment that has word timings (`main.py`). How a
    time is rendered (`format_timestamp`, `format_ts`) is a parameter `ts`
    here: its floating-point formatting is not modelled. */
module Transcript {
  import opened Wrappers
  import opened Text

  const Header := "WEBVTT"

  /** What separates the two times of a timing line. */
  const Arrow := " --> "

  /** One cue: its start and end in seconds and its text. */
  datatype Cue = Cue(start: real, end: real, text: string)

  /** What a reader takes from one cue block: the timing line and the
      text. */
  datatype CueText = CueText(timing: string, text: string)

  // -------------------------------------------------------------- writing

  function Timing(c: Cue, ts: real -> string): string
  {
    ts(c.start) + Arrow + ts(c.end)
  }

  /** One block as the versions write it: `f"{start} --> {end}\n{text}\n\n"`. */
  function Block(c: Cue, ts: real -> string): string
  {
    Timing(c, ts) + "\n" + c.text + "\n\n"
  }

  function Blocks(cues: seq<Cue>, ts: real -> string): string
    decreases |cues|
  {
    if cues == [] then "" else Block(cues[0], ts) + Blocks(cues[1..], ts)
  }

  /** The whole file: `"WEBVTT\n\n"` and the blocks. */
  function Write(cues: seq<Cue>, ts: real -> string): string
  {
    Header + "\n\n" + Blocks(cues, ts)
  }

  /** The lines of the blocks. */
  function CueLines(cues: seq<Cue>, ts: real -> string): (r: seq<string>)
    ensures |r| == 3 * |cues|
    decreases |cues|
  {
    if cues == [] then [] else [Timing(cues[0], ts), cues[0].text, ""] + CueLines(cues[1..], ts)
  }

  /** Every timing line and every cue text is one line. */
  predicate OneLine(cues: seq<Cue>, ts: real -> string)
  {
    forall i :: 0 <= i < |cues| ==>
      '\n' !in ts(cues[i].start) && '\n' !in ts(cues[i].end) && '\n' !in cues[i].text
  }

  // -------------------------------------------------------------- reading

  predicate ArrowAt(l: string, i: nat)
    requires i + |Arrow| <= |l|
  {
    l[i..i + |Arrow|] == Arrow
  }

  /** The timing line of a cue block contains the arrow. */
  predicate HasArrow(l: string)
  {
    exists i: nat :: i + |Arrow| <= |l| && ArrowAt(l, i)
  }

  /** The cue blocks, each a timing line, a text line and a blank line, and
      the empty piece after the last newline. */
  function ReadBlocks(lines: seq<string>): Option<seq<CueText>>
    decreases |lines|
  {
    if lines == [""] then Some([])
    else if |lines| > 3 && HasArrow(lines[0]) && lines[2] == "" then
      match ReadBlocks(lines[3..])
      case None => None
      case Some(rest) => Some([CueText(lines[0], lines[1])] + rest)
    else None
  }

  /** A transcript: the header line, a blank line, the blocks. */
  function ReadVtt(text: string): Option<seq<CueText>>
  {
    var lines := Split(text, '\n');
    if |lines| >= 2 && lines[0] == Header && lines[1] == "" then ReadBlocks(lines[2..]) else None
  }

  /** What a reader should find for each cue. */
  function Texts(cues: seq<Cue>, ts: real -> string): (r: seq<CueText>)
    ensures |r| == |cues|
    ensures forall i :: 0 <= i < |cues| ==> r[i] == CueText(Timing(cues[i], ts), cues[i].text)
  {
    seq(|cues|, i requires 0 <= i < |cues| => CueText(Timing(cues[i], ts), cues[i].text))
  }

  // ----------------------------------------------------------- round trip

  /** The written blocks are the cue lines joined with newlines. */
  lemma {:induction false} BlocksAreLines(cues: seq<Cue>, ts: real -> string)
    ensures Join(CueLines(cues, ts) + [""], '\n') == Blocks(cues, ts)
    decreases |cues|
  {
    if cues != [] {
      var l := CueLines(cues[1..], ts) + [""];
      BlocksAreLines(cues[1..], ts);
      var t, x := Timing(cues[0], ts), cues[0].text;
      BlockLines(t, x, l);
      assert CueLines(cues, ts) + [""] == [t, x, ""] + l;
      assert Block(cues[0], ts) == t + "\n" + x + "\n\n";
    }
  }

  /** A timing line, a text line and a blank line in front of lines that
      join to `Join(l)`. */
  lemma BlockLines(t: string, x: string, l: seq<string>)
    requires |l| > 0
    ensures Join([t, x, ""] + l, '\n') == t + "\n" + x + "\n\n" + Join(l, '\n')
  {
    ThreeLines(t, x, l);
    JoinCons("", l, '\n');
    JoinCons(x, [""] + l, '\n');
    JoinCons(t, [x] + ([""] + l), '\n');
    BlockText(t, x, Join(l, '\n'), Join([""] + l, '\n'), Join([x] + ([""] + l), '\n'),
              Join([t] + ([x] + ([""] + l)), '\n'));
  }

  lemma ThreeLines(t: string, x: string, l: seq<string>)
    ensures [t, x, ""] + l == [t] + ([x] + ([""] + l))
  {
  }

  /** The three joins of a block's lines, put together. */
  lemma BlockText(t: string, x: string, j: string, j1: string, j2: string, j3: string)
    requires j1 == "" + "\n" + j && j2 == x + "\n" + j1 && j3 == t + "\n" + j2
    ensures j3 == t + "\n" + x + "\n\n" + j
  {
    assert "\n\n" == "\n" + "\n";
  }

  /** The written file is its lines joined with newlines. */
  lemma WriteIsLines(cues: seq<Cue>, ts: real -> string)
    ensures Write(cues, ts) == Join([Header, ""] + CueLines(cues, ts) + [""], '\n')
  {
    BlocksAreLines(cues, ts);
    HeaderLines(Header, CueLines(cues, ts) + [""]);
    assert [Header, ""] + CueLines(cues, ts) + [""] == [Header, ""] + (CueLines(cues, ts) + [""]);
  }

  /** A header line and a blank line in front of lines that join to
      `Join(l)`. */
  lemma HeaderLines(h: string, l: seq<string>)
    requires |l| > 0
    ensures Join([h, ""] + l, '\n') == h + "\n\n" + Join(l, '\n')
  {
    TwoLines(h, l);
    JoinCons("", l, '\n');
    JoinCons(h, [""] + l, '\n');
    HeaderText(h, Join(l, '\n'), Join([""] + l, '\n'), Join([h] + ([""] + l), '\n'));
  }

  lemma HeaderText(h: string, j: string, j1: string, j2: string)
    requires j1 == "" + "\n" + j && j2 == h + "\n" + j1
    ensures j2 == h + "\n\n" + j
  {
    assert "\n\n" == "\n" + "\n";
  }

  lemma TwoLines(h: string, l: seq<string>)
    ensures [h, ""] + l == [h] + ([""] + l)
  {
  }

  lemma TimingHasArrow(c: Cue, ts: real -> string)
    ensures HasArrow(Timing(c, ts))
  {
    var l := Timing(c, ts);
    var i := |ts(c.start)|;
    assert ArrowAt(l, i);
  }

  lemma {:induction false} CueLinesOneLine(cues: seq<Cue>, ts: real -> string)
    requires OneLine(cues, ts)
    ensures forall i :: 0 <= i < |CueLines(cues, ts)| ==> '\n' !in CueLines(cues, ts)[i]
    decreases |cues|
  {
    if cues != [] {
      assert OneLine(cues[1..], ts) by {
        forall i | 0 <= i < |cues[1..]| ensures cues[1..][i] == cues[i + 1] { }
      }
      CueLinesOneLine(cues[1..], ts);
      var c := cues[0];
      assert '\n' !in Arrow;
      assert '\n' !in Timing(c, ts);
    }
  }

  /** The reader finds each cue block in turn. */
  lemma {:induction false} ReadBlocksOf(cues: seq<Cue>, ts: real -> string)
    ensures ReadBlocks(CueLines(cues, ts) + [""]) == Some(Texts(cues, ts))
    decreases |cues|
  {
    if cues != [] {
      var c := cues[0];
      var l := CueLines(cues[1..], ts) + [""];
      var ls := [Timing(c, ts), c.text, ""] + l;
      assert CueLines(cues, ts) + [""] == ls;
      assert ls[3..] == l;
      TimingHasArrow(c, ts);
      ReadBlocksOf(cues[1..], ts);
      TextsCons(cues, ts);
      ReadBlocksCons(ls, CueText(Timing(c, ts), c.text), Texts(cues[1..], ts));
    }
  }

  lemma TextsCons(cues: seq<Cue>, ts: real -> string)
    requires cues != []
    ensures Texts(cues, ts) == [CueText(Timing(cues[0], ts), cues[0].text)] + Texts(cues[1..], ts)
  {
  }

  /** A block the reader accepts, followed by blocks it reads. */
  lemma ReadBlocksCons(ls: seq<string>, first: CueText, rest: seq<CueText>)
    requires |ls| > 3 && HasArrow(ls[0]) && ls[2] == ""
    requires first == CueText(ls[0], ls[1])
    requires ReadBlocks(ls[3..]) == Some(rest)
    ensures ReadBlocks(ls) == Some([first] + rest)
  {
  }

  /** Reading a written transcript gives back, in order, one timing line and
      one text per cue, provided every line written is one line. */
  lemma ReadWritten(cues: seq<Cue>, ts: real -> string)
    requires OneLine(cues, ts)
    ensures ReadVtt(Write(cues, ts)) == Some(Texts(cues, ts))
  {
    var ls := [Header, ""] + CueLines(cues, ts) + [""];
    WriteIsLines(cues, ts);
    CueLinesOneLine(cues, ts);
    assert forall i :: 0 <= i < |ls| ==> '\n' !in ls[i] by {
      assert '\n' !in Header;
      forall i | 2 <= i < |ls| - 1 ensures ls[i] == CueLines(cues, ts)[i - 2] { }
    }
    SplitJoin(ls, '\n');
    assert ls[2..] == CueLines(cues, ts) + [""];
    ReadBlocksOf(cues, ts);
  }

  /** Stripping keeps text on one line. */
  lemma StripOneLine(s: string)
    requires '\n' !in s
    ensures '\n' !in Strip(s)
  {
    StripContents(s);
  }

  // ------------------------------------------------- one cue per segment

  /** A recognised word: its start time, when the recognizer gave one, and
      its text. */
  datatype Word = Word(start: Option<real>, word: string)

  /** A recognised segment: its times, its text and its words (empty when
      word timings were not asked for). */
  datatype Segment = Segment(start: real, end: real, text: string, words: seq<Word>)

  /** The cue of a segment: its times and its stripped text. */
  function SegmentCue(s: Segment): Cue
  {
    Cue(s.start, s.end, Strip(s.text))
  }

  /** The cues of `transcribe_audio` in `local.py` and `run.py` and of
      `generate_captions` in `process.py`. */
  function SegmentCues(segs: seq<Segment>): (r: seq<Cue>)
    ensures |r| == |segs|
    decreases |segs|
  {
    if segs == [] then [] else [SegmentCue(segs[0])] + SegmentCues(segs[1..])
  }

  function SegmentTranscript(segs: seq<Segment>, ts: real -> string): string
  {
    Write(SegmentCues(segs), ts)
  }

  lemma {:induction false} SegmentCuesAt(segs: seq<Segment>, i: nat)
    requires i < |segs|
    ensures SegmentCues(segs)[i] == SegmentCue(segs[i])
    decreases i
  {
    if i > 0 {
      SegmentCuesAt(segs[1..], i - 1);
    }
  }

  /** Each segment's text and times are one line. */
  predicate SegmentsOneLine(segs: seq<Segment>, ts: real -> string)
  {
    forall i :: 0 <= i < |segs| ==>
      '\n' !in ts(segs[i].start) && '\n' !in ts(segs[i].end) && '\n' !in segs[i].text
  }

  /** The transcript has exactly one cue per segment, in order, timed by the
      segment and holding its stripped text, whatever the words are. */
  lemma SegmentTranscriptRead(segs: seq<Segment>, ts: real -> string)
    requires SegmentsOneLine(segs, ts)
    ensures ReadVtt(SegmentTranscript(segs, ts)).Some?
    ensures var r := ReadVtt(SegmentTranscript(segs, ts)).value;
      |r| == |segs| &&
      forall i :: 0 <= i < |segs| ==>
        r[i] == CueText(ts(segs[i].start) + Arrow + ts(segs[i].end), Strip(segs[i].text))
  {
    var cues := SegmentCues(segs);
    forall i | 0 <= i < |segs| ensures cues[i] == SegmentCue(segs[i]) {
      SegmentCuesAt(segs, i);
    }
    forall i | 0 <= i < |segs| ensures '\n' !in cues[i].text {
      StripOneLine(segs[i].text);
    }
    ReadWritten(cues, ts);
  }

  /** No cue text starts or ends with whitespace. */
  lemma SegmentCueTrimmed(s: Segment)
    ensures var t := SegmentCue(s).text; t == [] || (!IsSpace(t[0]) && !IsSpace(t[|t| - 1]))
  {
    StripFramed(s.text);
  }

  // ------------------------------------------------ the Hugging Face reply

  /** One chunk of the reply: `timestamp[0]`, `timestamp[1]` and `text`,
      each `None` when it is missing or null. */
  datatype Chunk = Chunk(start: Option<real>, end: Option<real>, text: Option<string>)

  /** The `chunks` field of the reply body: absent, null, or a list. */
  datatype ChunksField = Absent | Null | Listed(cs: seq<Chunk>)

  /** A reply body that parsed as a JSON object: its `chunks` field and its
      `text` when that key is present. */
  datatype HfBody = HfBody(chunks: ChunksField, text: Option<string>)

  /** The reply of the inference API: its status, and its body when that
      parses as JSON. */
  datatype HfReply = HfReply(status: nat, body: Option<HfBody>)

  /** Why `transcribe_with_huggingface` raised: a status other than 200, a
      body that is not JSON, a null `chunks` (iterating `None`), or the
      chunk at `index` lacking a time (`format_timestamp(None)`) or its
      text. */
  datatype HfError = BadStatus(status: nat) | NotJson | NullChunks | BadChunk(index: nat)

  const HttpOk: nat := 200

  /** The times of the single cue written when there are no chunks: the
      literal `00:00:00.000 --> 00:10:00.000`. */
  const FallbackStart: real := 0.0
  const FallbackEnd: real := 600.0

  /** A chunk that can be written: both times and a text. */
  predicate Complete(c: Chunk)
  {
    c.start.Some? && c.end.Some? && c.text.Some?
  }

  /** The first chunk that cannot be written, if any: the loop over the
      chunks raises there. */
  function FirstIncomplete(cs: seq<Chunk>): (r: Option<nat>)
    ensures r.None? <==> forall i :: 0 <= i < |cs| ==> Complete(cs[i])
    ensures r.Some? ==> r.value < |cs| && !Complete(cs[r.value])
    ensures r.Some? ==> forall i :: 0 <= i < r.value ==> Complete(cs[i])
    decreases |cs|
  {
    if cs == [] then None
    else if !Complete(cs[0]) then Some(0)
    else match FirstIncomplete(cs[1..])
      case None => None
      case Some(k) => Some(k + 1)
  }

  function ChunkCues(cs: seq<Chunk>): (r: seq<Cue>)
    requires forall i :: 0 <= i < |cs| ==> Complete(cs[i])
    ensures |r| == |cs|
    decreases |cs|
  {
    if cs == [] then []
    else
      assert Complete(cs[0]);
      [Cue(cs[0].start.value, cs[0].end.value, Strip(cs[0].text.value))] + ChunkCues(cs[1..])
  }

  lemma {:induction false} ChunkCuesAt(cs: seq<Chunk>, i: nat)
    requires forall k :: 0 <= k < |cs| ==> Complete(cs[k])
    requires i < |cs|
    ensures ChunkCues(cs)[i] == Cue(cs[i].start.value, cs[i].end.value, Strip(cs[i].text.value))
    decreases i
  {
    if i > 0 {
      ChunkCuesAt(cs[1..], i - 1);
    }
  }

  /** The transcript, or why the function raised. With chunks, one cue per
      chunk with its text stripped; without, one ten-minute cue with `text`
      as it came (not stripped). */
  function HfTranscript(reply: HfReply, ts: real -> string): (r: Result<string, HfError>)
    ensures r.Success? <==>
      reply.status == HttpOk && reply.body.Some? && !reply.body.value.chunks.Null? &&
      (reply.body.value.chunks.Listed? ==>
         forall i :: 0 <= i < |reply.body.value.chunks.cs| ==> Complete(reply.body.value.chunks.cs[i]))
    ensures reply.status != HttpOk ==> r == Failure(BadStatus(reply.status))
    ensures reply.status == HttpOk && reply.body.None? ==> r == Failure(NotJson)
    ensures r.Failure? && r.error.BadChunk? ==>
      reply.body.Some? && reply.body.value.chunks.Listed? &&
      var cs := reply.body.value.chunks.cs;
      r.error.index < |cs| && !Complete(cs[r.error.index]) &&
      forall i :: 0 <= i < r.error.index ==> Complete(cs[i])
  {
    if reply.status != HttpOk then Failure(BadStatus(reply.status))
    else if reply.body.None? then Failure(NotJson)
    else match reply.body.value.chunks
      case Null => Failure(NullChunks)
      case Absent => Success(Write([Cue(FallbackStart, FallbackEnd, reply.body.value.text.GetOr(""))], ts))
      case Listed(cs) =>
        match FirstIncomplete(cs)
        case Some(i) => Failure(BadChunk(i))
        case None => Success(Write(ChunkCues(cs), ts))
  }

  /** A reply whose chunks are all complete gives one cue per chunk, in
      order, timed by the chunk and holding its stripped text. */
  lemma HfChunksRead(reply: HfReply, ts: real -> string)
    requires reply.status == HttpOk && reply.body.Some? && reply.body.value.chunks.Listed?
    requires forall i :: 0 <= i < |reply.body.value.chunks.cs| ==>
      var c := reply.body.value.chunks.cs[i];
      Complete(c) && '\n' !in ts(c.start.value) && '\n' !in ts(c.end.value) && '\n' !in c.text.value
    ensures HfTranscript(reply, ts).Success?
    ensures ReadVtt(HfTranscript(reply, ts).value).Some?
    ensures var cs := reply.body.value.chunks.cs;
      var r := ReadVtt(HfTranscript(reply, ts).value).value;
      |r| == |cs| &&
      forall i :: 0 <= i < |cs| ==>
        r[i] == CueText(ts(cs[i].start.value) + Arrow + ts(cs[i].end.value), Strip(cs[i].text.value))
  {
    var cs := reply.body.value.chunks.cs;
    var cues := ChunkCues(cs);
    forall i | 0 <= i < |cs|
      ensures cues[i] == Cue(cs[i].start.value, cs[i].end.value, Strip(cs[i].text.value))
    {
      ChunkCuesAt(cs, i);
    }
    forall i | 0 <= i < |cs| ensures '\n' !in cues[i].text {
      StripOneLine(cs[i].text.value);
    }
    ReadWritten(cues, ts);
  }

  /** A JSON reply without a `chunks` key gives the single cue from 0 to 600
      seconds holding the reply's `text`, or nothing when it has none. */
  lemma HfFallbackRead(reply: HfReply, ts: real -> string)
    requires reply.status == HttpOk && reply.body.Some? && reply.body.value.chunks.Absent?
    requires '\n' !in ts(FallbackStart) && '\n' !in ts(FallbackEnd)
    requires '\n' !in reply.body.value.text.GetOr("")
    ensures HfTranscript(reply, ts).Success?
    ensures ReadVtt(HfTranscript(reply, ts).value)
         == Some([CueText(ts(FallbackStart) + Arrow + ts(FallbackEnd), reply.body.value.text.GetOr(""))])
  {
    var cues := [Cue(FallbackStart, FallbackEnd, reply.body.value.text.GetOr(""))];
    assert OneLine(cues, ts);
    ReadWritten(cues, ts);
    assert Texts(cues, ts) == [CueText(Timing(cues[0], ts), cues[0].text)];
  }

  // ---------------------------------------------------- karaoke (main.py)

  /** One word of a karaoke line: `<start>` then the stripped word; a word
      without a start time takes the segment's. */
  function Tagged(w: Word, segStart: real, ts: real -> string): string
  {
    "<" + ts(w.start.GetOr(segStart)) + ">" + Strip(w.word)
  }

  /** The line `words_to_karaoke_vtt` builds before stripping it: each
      tagged word followed by a space. */
  function KaraokeLine(ws: seq<Word>, segStart: real, ts: real -> string): string
    decreases |ws|
  {
    if ws == [] then "" else Tagged(ws[0], segStart, ts) + " " + KaraokeLine(ws[1..], segStart, ts)
  }

  function KaraokeCue(s: Segment, ts: real -> string): Cue
  {
    Cue(s.start, s.end, Strip(KaraokeLine(s.words, s.start, ts)))
  }

  /** The cues of `generate_transcription`: segments without words are
      skipped. */
  function KaraokeCues(segs: seq<Segment>, ts: real -> string): (r: seq<Cue>)
    ensures |r| <= |segs|
    decreases |segs|
  {
    if segs == [] then []
    else (if segs[0].words != [] then [KaraokeCue(segs[0], ts)] else []) + KaraokeCues(segs[1..], ts)
  }

  /** Every karaoke cue is the cue of a segment that has words. */
  lemma {:induction false} KaraokeCueOrigin(segs: seq<Segment>, ts: real -> string, k: nat)
    requires k < |KaraokeCues(segs, ts)|
    ensures exists i :: 0 <= i < |segs| && segs[i].words != [] && KaraokeCues(segs, ts)[k] == KaraokeCue(segs[i], ts)
    decreases |segs|
  {
    var head := if segs[0].words != [] then [KaraokeCue(segs[0], ts)] else [];
    var rest := KaraokeCues(segs[1..], ts);
    KaraokeCuesCons(segs, ts);
    if k < |head| {
      assert (head + rest)[k] == KaraokeCue(segs[0], ts);
      assert segs[0].words != [] && KaraokeCues(segs, ts)[k] == KaraokeCue(segs[0], ts);
    } else {
      KaraokeCueOrigin(segs[1..], ts, k - |head|);
      var i :| 0 <= i < |segs[1..]| && segs[1..][i].words != []
        && rest[k - |head|] == KaraokeCue(segs[1..][i], ts);
      assert (head + rest)[k] == rest[k - |head|];
      assert segs[1..][i] == segs[i + 1];
      assert segs[i + 1].words != [] && KaraokeCues(segs, ts)[k] == KaraokeCue(segs[i + 1], ts);
    }
  }

  lemma KaraokeCuesCons(segs: seq<Segment>, ts: real -> string)
    requires segs != []
    ensures KaraokeCues(segs, ts)
         == (if segs[0].words != [] then [KaraokeCue(segs[0], ts)] else []) + KaraokeCues(segs[1..], ts)
  {
  }

  /** The tagged words of a segment, in order. */
  function TaggedWords(ws: seq<Word>, segStart: real, ts: real -> string): (r: seq<string>)
    ensures |r| == |ws|
  {
    seq(|ws|, i requires 0 <= i < |ws| => Tagged(ws[i], segStart, ts))
  }

  /** The line is the tagged words joined by spaces, and one more space. */
  lemma {:induction false} KaraokeLineIsJoin(ws: seq<Word>, segStart: real, ts: real -> string)
    requires ws != []
    ensures KaraokeLine(ws, segStart, ts) == Join(TaggedWords(ws, segStart, ts), ' ') + " "
    decreases |ws|
  {
    var tw := TaggedWords(ws, segStart, ts);
    if |ws| > 1 {
      KaraokeLineIsJoin(ws[1..], segStart, ts);
      assert tw[1..] == TaggedWords(ws[1..], segStart, ts);
    } else {
      assert tw == [Tagged(ws[0], segStart, ts)];
    }
  }

  lemma TaggedStart(w: Word, segStart: real, ts: real -> string)
    ensures var t := Tagged(w, segStart, ts); |t| > 0 && t[0] == '<'
  {
  }

  /** A tagged word ends with no whitespace. */
  lemma TaggedEnd(w: Word, segStart: real, ts: real -> string)
    ensures var t := Tagged(w, segStart, ts); |t| > 0 && !IsSpace(t[|t| - 1])
  {
    var st := Strip(w.word);
    var t := Tagged(w, segStart, ts);
    var h := "<" + ts(w.start.GetOr(segStart)) + ">";
    assert t == h + st;
    if st == [] {
      assert t[|t| - 1] == '>' && !IsSpace('>');
    } else {
      StripFramed(w.word);
      assert t[|t| - 1] == st[|st| - 1];
    }
  }

  /** The joined words start with `<` and end with no whitespace. */
  lemma JoinedTaggedEnds(ws: seq<Word>, segStart: real, ts: real -> string)
    requires ws != []
    ensures var j := Join(TaggedWords(ws, segStart, ts), ' ');
      |j| > 0 && j[0] == '<' && !IsSpace(j[|j| - 1])
  {
    var tw := TaggedWords(ws, segStart, ts);
    var j := Join(tw, ' ');
    var first, last := tw[0], tw[|tw| - 1];
    TaggedStart(ws[0], segStart, ts);
    TaggedEnd(ws[|ws| - 1], segStart, ts);
    JoinStartsWithFirst(tw, ' ');
    JoinEndsWithLast(tw, ' ');
    assert j[0] == j[..|first|][0] == first[0];
    assert j[|j| - 1] == j[|j| - |last|..][|last| - 1] == last[|last| - 1];
  }

  /** Stripping text that starts and ends with no whitespace, plus one
      space, removes just that space. */
  lemma StripTrailingSpace(j: string)
    requires |j| > 0 && !IsSpace(j[0]) && !IsSpace(j[|j| - 1])
    ensures Strip(j + " ") == j
  {
    var s := j + " ";
    assert s[0] == j[0];
    assert StripStart(s) == s;
    assert s[|s| - 1] == ' ' && IsSpace(' ');
    assert s[..|s| - 1] == j;
    assert StripEnd(j) == j;
    assert StripEnd(s) == StripEnd(j);
  }

  /** A karaoke cue's text is the segment's tagged words separated by
      single spaces, with nothing before the first or after the last. */
  lemma KaraokeText(s: Segment, ts: real -> string)
    requires s.words != []
    ensures KaraokeCue(s, ts).text == Join(TaggedWords(s.words, s.start, ts), ' ')
  {
    KaraokeLineIsJoin(s.words, s.start, ts);
    JoinedTaggedEnds(s.words, s.start, ts);
    StripTrailingSpace(Join(TaggedWords(s.words, s.start, ts), ' '));
  }

  /** Cues keep the order of their segments. */
  lemma {:induction false} KaraokeCuesConcat(a: seq<Segment>, b: seq<Segment>, ts: real -> string)
    ensures KaraokeCues(a + b, ts) == KaraokeCues(a, ts) + KaraokeCues(b, ts)
    decreases |a|
  {
    if a != [] {
      assert (a + b)[1..] == a[1..] + b;
      KaraokeCuesConcat(a[1..], b, ts);
    } else {
      assert a + b == b;
    }
  }

  /** When every segment has words, there is one cue per segment, in
      order. */
  lemma {:induction false} KaraokeAllSpoken(segs: seq<Segment>, ts: real -> string)
    requires forall i :: 0 <= i < |segs| ==> segs[i].words != []
    ensures |KaraokeCues(segs, ts)| == |segs|
    ensures forall i :: 0 <= i < |segs| ==> KaraokeCues(segs, ts)[i] == KaraokeCue(segs[i], ts)
    decreases |segs|
  {
    if segs != [] {
      KaraokeAllSpoken(segs[1..], ts);
    }
  }

  /** A segment without words adds no cue. */
  lemma KaraokeSkipsSilent(a: seq<Segment>, s: Segment, b: seq<Segment>, ts: real -> string)
    requires s.words == []
    ensures KaraokeCues(a + [s] + b, ts) == KaraokeCues(a + b, ts)
  {
    KaraokeCuesConcat(a + [s], b, ts);
    KaraokeCuesConcat(a, [s], ts);
    KaraokeCuesConcat(a, b, ts);
  }
}
