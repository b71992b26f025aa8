/**
 The Chat writer behind the stream that feeds it (Stream in internal/upstream/sse.go), which writes every
 comment line and every event as a frame of its own: no unread frame carries a finish marker there.
 */
module ChatStream {
  import opened Wrappers
  import opened Text
  import opened ChatContract
  import opened ChatGuarantees

  // ---- Comment lines ----

  /** One comment line and the blank line behind it. */
  predicate CommentLine(raw: string) {
    |raw| >= 3 && raw[0] == ':' && raw[|raw| - 2..] == "\n\n" && '\n' !in raw[..|raw| - 2]
  }

  lemma CommentPlaces(raw: string)
    requires CommentLine(raw)
    ensures var n := |raw| - 2; raw[n] == raw[n + 1] == '\n' && raw[n + 1..] == "\n" && forall i :: 0 <= i < n ==> raw[i] != '\n'
  {
    var n := |raw| - 2;
    assert raw[n] == raw[n..][0] && raw[n + 1] == raw[n..][1];
    assert forall i :: 0 <= i < n ==> raw[i] == raw[..n][i];
  }

  lemma {:induction false} TrimPrefix(line: string)
    ensures TrimCarriageReturns(line) <= line
  {
    if line != "" && line[|line| - 1] == '\r' {
      TrimPrefix(line[..|line| - 1]);
    }
  }

  lemma CommentUnmarked(env: Env, raw: string)
    requires CommentLine(raw)
    ensures !IsData(raw) && !RawMarks(env, raw)
  {
    var n := |raw| - 2;
    CommentPlaces(raw);
    NotData(raw);
    NoNewline(raw, 0, n);
    BlankLines(env);
    TrimPrefix(raw[..n]);
    var line := TrimCarriageReturns(raw[..n]);
    hide TrimCarriageReturns, LineEnd, CommentLine, IsData;
    assert line != "" ==> line[0] == raw[..n][0] == ':';
    assert DATA[0] == 'd';
    assert !(DATA <= line);
    assert !LineMarks(env, raw[..n]);
    hide LineMarks;
  }

  /** Single data frames and comment lines: nothing written before the check carries a finish reason or [DONE]. */
  lemma FramesHeldBack(env: Env, p: string)
    requires forall i :: 0 <= i < |Frames(p)| ==> Single(Frames(p)[i]) || CommentLine(Frames(p)[i])
    ensures Wellformed(Frames(p)) && Unmarked(env, Frames(p))
    ensures Clean(env, Write(env, FRESH, p).out)
  {
    hide Single, CommentLine, IsData, RawMarks, Frames, Write, Clean;
    var frames := Frames(p);
    forall i | 0 <= i < |frames|
      ensures (Single(frames[i]) || !IsData(frames[i])) && (!IsData(frames[i]) ==> !RawMarks(env, frames[i]))
    {
      if CommentLine(frames[i]) {
        CommentUnmarked(env, frames[i]);
      } else {
        SingleTrims(frames[i]);
      }
    }
    FinishHeldBack(env, p);
  }

  // ---- What the stream writes ----

  /** A comment as it came, or an event as one line of JSON or [DONE]. */
  datatype Line = Comment(text: string) | Event(payload: string)

  predicate Writable(line: Line) {
    match line
    case Comment(text) => text != "" && text[0] == ':' && '\n' !in text
    case Event(payload) => payload != "" && '\n' !in payload && !Space(payload[0]) && !Space(payload[|payload| - 1])
  }

  predicate AllWritable(lines: seq<Line>) {
    forall i :: 0 <= i < |lines| ==> Writable(lines[i])
  }

  function Encoded(line: Line): string {
    match line
    case Comment(text) => text + "\n\n"
    case Event(payload) => DATA + payload + "\n\n"
  }

  function Writes(lines: seq<Line>): (r: seq<string>)
    ensures |r| == |lines|
  {
    seq(|lines|, i requires 0 <= i < |lines| => Encoded(lines[i]))
  }

  /** Every write is one frame, of one data line or one comment line. */
  lemma OneWrite(line: Line)
    requires Writable(line)
    ensures Frames(Encoded(line)) == [Encoded(line)] && Rest(Encoded(line)) == ""
    ensures Single(Encoded(line)) || CommentLine(Encoded(line))
  {
    var raw := Encoded(line);
    var n := |raw| - 2;
    assert raw[n..] == "\n\n";
    hide Frames, Rest, Space;
    match line
    case Comment(text) =>
      assert raw[..n] == text && raw[0] == text[0];
      CommentPlaces(raw);
      NoBlank(raw, 0, n);
      WholeFrame(raw);
    case Event(payload) =>
      assert raw[..|DATA|] == DATA && raw[|DATA|..n] == payload;
      SingleFrame(raw);
  }

  /** The frames are the writes. */
  lemma {:induction false} StreamFrames(lines: seq<Line>)
    requires AllWritable(lines)
    ensures Frames(Concat(Writes(lines))) == Writes(lines) && Rest(Concat(Writes(lines))) == ""
  {
    hide Frames, Rest, Encoded, Writable;
    if lines == [] {
      assert Writes(lines) == [];
      FramesStep("", 0);
    } else {
      var n := |lines| - 1;
      var before := lines[..n];
      assert Writes(lines)[..n] == Writes(before) && Writes(lines) == Writes(before) + [Encoded(lines[n])];
      StreamFrames(before);
      OneWrite(lines[n]);
      FramesSplit(Concat(Writes(before)), Encoded(lines[n]));
      assert "" + Encoded(lines[n]) == Encoded(lines[n]);
    }
  }

  /** However the stream's bytes are cut: what the writer lets through before the check is clean. */
  lemma StreamHeldBack(env: Env, lines: seq<Line>, chunks: seq<string>)
    requires AllWritable(lines) && Concat(chunks) == Concat(Writes(lines))
    ensures Clean(env, WriteAll(env, chunks).out)
  {
    var p := Concat(chunks);
    StreamFrames(lines);
    EachWrite(lines);
    hide Clean, Write, Frames, Rest, Writes, Single, CommentLine, Concat;
    FramesHeldBack(env, p);
    if chunks == [] {
      CleanEmpty(env);
    } else {
      ChunkIndependence(env, chunks);
    }
  }

  lemma EachWrite(lines: seq<Line>)
    requires AllWritable(lines)
    ensures forall i :: 0 <= i < |lines| ==> Single(Writes(lines)[i]) || CommentLine(Writes(lines)[i])
  {
    hide Single, CommentLine, Encoded, Writable;
    forall i | 0 <= i < |lines|
      ensures Single(Writes(lines)[i]) || CommentLine(Writes(lines)[i])
    {
      OneWrite(lines[i]);
    }
  }

  /**
   So a finish reason reaches the client of a stream in two ways only: in the finish frame, after every
   choice was accepted, or inside the error frame that ends a failed stream.
   */
  lemma StreamFinishValidated(env: Env, lines: seq<Line>, chunks: seq<string>, k: nat)
    requires AllWritable(lines) && Concat(chunks) == Concat(Writes(lines)) && chunks != []
    requires var c := Complete(env, WriteAll(env, chunks)); k < |c.out| - 1 && Marks(env, c.out[k])
    ensures var s := WriteAll(env, chunks);
            var c := Complete(env, s);
            if c.err.None? then
              && env.aggregate(s.raw).Ok? && AllAccepted(env, env.aggregate(s.raw).value)
              && FinishFrame(env.aggregate(s.raw).value, c.out[k])
            else
              k == |s.out| && s.errorFrame.Some? && c.out[k] == Passed(s.errorFrame.value)
  {
    hide *;
    StreamHeldBack(env, lines, chunks);
    ChunkIndependence(env, chunks);
    CleanFinish(env, Concat(chunks), k);
  }

  // ---- Readers that end lines at a carriage return too, section 9.2.6 of the WHATWG HTML Living Standard ----

  /** The lines such a reader sees: every carriage return ends one. */
  function Unreturned(raw: string): (r: string)
    ensures |r| == |raw|
  {
    seq(|raw|, i requires 0 <= i < |raw| => if raw[i] == '\r' then '\n' else raw[i])
  }

  predicate StandardMarks(env: Env, piece: Piece) {
    if piece.Passed? then RawMarks(env, Unreturned(piece.raw)) else Marks(env, piece)
  }

  ghost predicate StandardClean(env: Env, pieces: seq<Piece>) {
    forall k :: 0 <= k < |pieces| ==> !StandardMarks(env, pieces[k])
  }

  /** JSON writes a carriage return as an escape. */
  predicate Escaped(line: Line) {
    line.Event? ==> '\r' !in line.payload
  }

  lemma StandardConcat(env: Env, a: seq<Piece>, b: seq<Piece>)
    ensures StandardClean(env, a + b) <==> StandardClean(env, a) && StandardClean(env, b)
  {
    hide StandardMarks;
    assert forall k :: 0 <= k < |a| ==> (a + b)[k] == a[k];
    assert forall k :: 0 <= k < |b| ==> (a + b)[|a| + k] == b[k];
  }

  /** Without carriage returns both kinds of readers see the same. */
  lemma NoReturns(raw: string)
    requires '\r' !in raw
    ensures Unreturned(raw) == raw
  {
  }

  /** What one write lets through: an event nothing marked, a comment itself. */
  lemma OneStandard(env: Env, line: Line)
    requires Writable(line) && Escaped(line)
    ensures StandardClean(env, Emitted(env, Encoded(line))) <==> (line.Comment? ==> !RawMarks(env, Unreturned(Encoded(line))))
  {
    var raw := Encoded(line);
    WriteKind(line);
    hide *;
    if CommentLine(raw) {
      CommentStandard(env, raw);
    } else {
      EventStandard(env, raw);
    }
  }

  lemma WriteKind(line: Line)
    requires Writable(line) && Escaped(line)
    ensures var raw := Encoded(line); if line.Comment? then CommentLine(raw) else Single(raw) && !CommentLine(raw) && '\r' !in raw
  {
    var raw := Encoded(line);
    OneWrite(line);
    assert raw[0] == if line.Comment? then ':' else DATA[0];
    hide Space;
  }

  lemma CommentStandard(env: Env, raw: string)
    requires CommentLine(raw)
    ensures StandardClean(env, Emitted(env, raw)) <==> !RawMarks(env, Unreturned(raw))
  {
    CommentUnmarked(env, raw);
    UnreadEmitted(env, raw);
    hide Emitted, RawMarks, Unreturned, CommentLine, IsData;
    assert StandardClean(env, [Passed(raw)]) <==> !StandardMarks(env, [Passed(raw)][0]);
  }

  lemma EventStandard(env: Env, raw: string)
    requires Single(raw) && '\r' !in raw
    ensures StandardClean(env, Emitted(env, raw))
  {
    SingleTrims(raw);
    EmittedMarks(env, raw);
    NoReturns(raw);
    EmittedRaw(env, raw);
    hide Emitted, RawMarks, Unreturned, Single, Finishing, IsData;
  }

  lemma EmittedRaw(env: Env, raw: string)
    ensures forall k :: 0 <= k < |Emitted(env, raw)| && Emitted(env, raw)[k].Passed? ==> Emitted(env, raw)[k].raw == raw
  {
    hide TrimSpace, Strip, HasDelta;
  }

  lemma {:induction false} AllStandard(env: Env, lines: seq<Line>)
    requires forall i :: 0 <= i < |lines| ==> Writable(lines[i]) && Escaped(lines[i])
    ensures StandardClean(env, AllEmitted(env, Writes(lines))) <==>
            forall i :: 0 <= i < |lines| && lines[i].Comment? ==> !RawMarks(env, Unreturned(Encoded(lines[i])))
  {
    hide Writable, Escaped, Encoded, Emitted, RawMarks, Unreturned, StandardMarks;
    if lines != [] {
      assert Writes(lines)[1..] == Writes(lines[1..]) && Writes(lines)[0] == Encoded(lines[0]);
      OneStandard(env, lines[0]);
      AllStandard(env, lines[1..]);
      StandardConcat(env, Emitted(env, Encoded(lines[0])), AllEmitted(env, Writes(lines[1..])));
      hide StandardClean, AllEmitted, Writes;
      assert forall i :: 1 <= i < |lines| ==> lines[i] == lines[1..][i - 1];
    }
  }

  /** Such a reader sees a marker before the check exactly if a comment holds one behind a carriage return. */
  lemma StandardHeldBack(env: Env, lines: seq<Line>)
    requires AllWritable(lines) && forall i :: 0 <= i < |lines| ==> Escaped(lines[i])
    ensures StandardClean(env, Write(env, FRESH, Concat(Writes(lines))).out) <==>
            forall i :: 0 <= i < |lines| && lines[i].Comment? ==> !RawMarks(env, Unreturned(Encoded(lines[i])))
  {
    hide Write, StandardClean, Writable, Escaped, Writes, Encoded, Concat, Frames, AllEmitted, RawMarks, Unreturned;
    StreamFrames(lines);
    WriteEmits(env, Concat(Writes(lines)));
    AllStandard(env, lines);
  }

  /** For example. */
  lemma ReturnMarks(env: Env)
    ensures var line := Comment(":\rdata: [DONE]");
            && AllWritable([line])
            && !StandardClean(env, Write(env, FRESH, Concat(Writes([line]))).out)
  {
    var line := Comment(":\rdata: [DONE]");
    ReturnedDone();
    DoneMarks(env);
    hide RawMarks, Unreturned, Write, StandardClean, Concat, Encoded;
    assert Writable(line) && Escaped(line);
    StandardHeldBack(env, [line]);
    assert [line][0] == line;
  }

  lemma ReturnedDone()
    ensures Unreturned(Encoded(Comment(":\rdata: [DONE]"))) == ":\ndata: [DONE]\n\n"
  {
    assert Encoded(Comment(":\rdata: [DONE]")) == ":\rdata: [DONE]\n\n";
  }
}
