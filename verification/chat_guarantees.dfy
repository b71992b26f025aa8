/** What a Chat client can rely on: no finish marker before the check, deltas in order, one tail. */
module ChatGuarantees {
  import opened Wrappers
  import opened ToolPolicy
  import opened Text
  import Verdicts
  import opened ChatContract

  // ---- One frame after the other ----

  function InspectAll(env: Env, s: Held, frames: seq<string>): Held
    decreases |frames|
  {
    if frames == [] then s else InspectAll(env, Inspect(env, s, frames[0]), frames[1..])
  }

  lemma {:induction false} DrainInspects(env: Env, s: Held, b: string)
    ensures Drain(env, s, b) == InspectAll(env, s, Frames(b)).(buffer := Rest(b))
    decreases |b|
  {
    hide Inspect;
    var i := FrameEnd(b, 0);
    if i < |b| {
      DrainInspects(env, Inspect(env, s, b[..i + 2]), b[i + 2..]);
      assert Frames(b)[1..] == Frames(b[i + 2..]);
    }
  }

  lemma {:induction false} InspectAllSplit(env: Env, s: Held, frames: seq<string>, more: seq<string>)
    ensures InspectAll(env, s, frames + more) == InspectAll(env, InspectAll(env, s, frames), more)
    decreases |frames|
  {
    hide Inspect;
    if frames == [] {
      assert frames + more == more;
    } else {
      assert (frames + more)[1..] == frames[1..] + more;
      InspectAllSplit(env, Inspect(env, s, frames[0]), frames[1..], more);
    }
  }

  // ---- One frame ----

  predicate Changes(env: Env, f: Frame) {
    Strip(env, f) != f
  }

  /** What one upstream frame lets through before the check. */
  function Emitted(env: Env, raw: string): seq<Piece> {
    if !IsData(raw) then [Passed(raw)]
    else
      var payload := TrimSpace(raw)[|DATA|..];
      if payload == "[DONE]" || env.parse(payload).None? then []
      else
        var f := env.parse(payload).value;
        if f.failed || !HasDelta(f.choices) then []
        else [if Changes(env, f) then Data(Strip(env, f)) else Passed(raw)]
  }

  function AllEmitted(env: Env, frames: seq<string>): seq<Piece>
    decreases |frames|
  {
    if frames == [] then [] else Emitted(env, frames[0]) + AllEmitted(env, frames[1..])
  }

  lemma InspectEmits(env: Env, s: Held, raw: string)
    ensures var s' := Inspect(env, s, raw);
            && s'.out == s.out + Emitted(env, raw)
            && s'.raw == s.raw && s'.streaming == s.streaming && s'.checked == s.checked
            && (s.errorFrame.None? && s'.errorFrame.Some? ==> s'.errorFrame.value == raw)
  {
    hide TrimSpace, Strip, HasDelta;
  }

  lemma {:induction false} InspectAllEmits(env: Env, s: Held, frames: seq<string>)
    ensures var s' := InspectAll(env, s, frames);
            && s'.out == s.out + AllEmitted(env, frames)
            && s'.raw == s.raw && s'.streaming == s.streaming && s'.checked == s.checked
    decreases |frames|
  {
    hide Inspect, Emitted;
    if frames != [] {
      InspectEmits(env, s, frames[0]);
      InspectAllEmits(env, Inspect(env, s, frames[0]), frames[1..]);
    }
  }

  lemma WriteEmits(env: Env, p: string)
    ensures var s := Write(env, FRESH, p);
            s.out == AllEmitted(env, Frames(p)) && s.raw == p && s.streaming && !s.checked
  {
    hide Drain, Inspect, Emitted;
    var s0 := FRESH.(streaming := true, raw := FRESH.raw + p);
    assert FRESH.buffer + p == p;
    DrainInspects(env, s0, p);
    InspectAllEmits(env, s0, Frames(p));
  }

  // ---- Chunking ----

  lemma {:induction false} InspectRaw(env: Env, s: Held, raw: string, streaming: bool, frames: seq<string>)
    ensures InspectAll(env, s.(raw := raw, streaming := streaming), frames) == InspectAll(env, s, frames).(raw := raw, streaming := streaming)
    decreases |frames|
  {
    if frames != [] {
      InspectRawOne(env, s, raw, streaming, frames[0]);
      hide Inspect;
      InspectRaw(env, Inspect(env, s, frames[0]), raw, streaming, frames[1..]);
    }
  }

  lemma InspectRawOne(env: Env, s: Held, raw: string, streaming: bool, frame: string)
    ensures Inspect(env, s.(raw := raw, streaming := streaming), frame) == Inspect(env, s, frame).(raw := raw, streaming := streaming)
  {
    hide TrimSpace, Strip, HasDelta;
  }

  /** Cutting bytes into two writes changes nothing. */
  lemma WriteSplit(env: Env, s: Held, p: string, q: string)
    ensures Write(env, Write(env, s, p), q) == Write(env, s, p + q)
  {
    hide Drain, Inspect, Frames, Rest, FrameEnd, InspectAll, AllEmitted;
    var b := s.buffer + p;
    var raw := s.raw + p + q;
    var s0 := s.(streaming := true, raw := s.raw + p);
    var s1 := Write(env, s, p);
    DrainInspects(env, s0, b);
    var s2 := s1.(streaming := true, raw := s1.raw + q);
    DrainInspects(env, s2, Rest(b) + q);
    DrainInspects(env, s.(streaming := true, raw := s.raw + (p + q)), b + q);
    assert s.raw + (p + q) == raw && s.buffer + (p + q) == b + q;
    FramesSplit(b, q);
    InspectAllSplit(env, s.(streaming := true, raw := raw), Frames(b), Frames(Rest(b) + q));
    InspectRaw(env, s0, raw, true, Frames(b));
    InspectAllEmits(env, s0, Frames(b));
    var mid := InspectAll(env, s0, Frames(b)).(raw := raw);
    assert s2 == mid.(buffer := Rest(b));
    InspectBuffer(env, mid, Rest(b), Frames(Rest(b) + q));
  }

  lemma {:induction false} InspectBuffer(env: Env, s: Held, buffer: string, frames: seq<string>)
    ensures InspectAll(env, s.(buffer := buffer), frames) == InspectAll(env, s, frames).(buffer := buffer)
    decreases |frames|
  {
    hide Inspect;
    if frames != [] {
      BufferUnread(env, s, frames[0], buffer);
      InspectBuffer(env, Inspect(env, s, frames[0]), buffer, frames[1..]);
    }
  }

  function WriteAll(env: Env, chunks: seq<string>): Held {
    if chunks == [] then FRESH else Write(env, WriteAll(env, chunks[..|chunks| - 1]), chunks[|chunks| - 1])
  }

  /** However the upstream bytes are cut into writes, the state is that of a single write. */
  lemma {:induction false} ChunkIndependence(env: Env, chunks: seq<string>)
    requires chunks != []
    ensures WriteAll(env, chunks) == Write(env, FRESH, Concat(chunks))
  {
    hide Write;
    var n := |chunks| - 1;
    if n == 0 {
      assert chunks[..0] == [] && "" + chunks[0] == chunks[0];
    } else {
      ChunkIndependence(env, chunks[..n]);
      WriteSplit(env, FRESH, Concat(chunks[..n]), chunks[n]);
    }
  }

  // ---- The finish marker is held back ----

  predicate Finishing(f: Frame) {
    exists i :: 0 <= i < |f.choices| && f.choices[i].finish != ""
  }

  /** A client that reads the line sees the end of the stream or a finish reason. */
  predicate LineMarks(env: Env, raw: string) {
    var line := TrimCarriageReturns(raw);
    && DATA <= line
    && (var payload := line[|DATA|..];
        payload == "[DONE]" || (env.parse(payload).Some? && Finishing(env.parse(payload).value)))
  }

  predicate RawMarks(env: Env, raw: string)
    decreases |raw|
  {
    var end := LineEnd(raw, 0);
    LineMarks(env, raw[..end]) || (end < |raw| && RawMarks(env, raw[end + 1..]))
  }

  predicate Marks(env: Env, piece: Piece) {
    match piece
    case Passed(raw) => RawMarks(env, raw)
    case Data(f) => Finishing(f)
    case Failure(_) => false
    case Done => true
  }

  /** A frame of one data line, as upstream encoders write it. */
  predicate Single(raw: string) {
    && |raw| > |DATA| + 2
    && raw[..|DATA|] == DATA && raw[|raw| - 2..] == "\n\n"
    && (var payload := raw[|DATA|..|raw| - 2]; '\n' !in payload && !Space(payload[0]) && !Space(payload[|payload| - 1]))
  }

  lemma SingleTrims(raw: string)
    requires Single(raw)
    ensures TrimSpace(raw) == raw[..|raw| - 2] && IsData(raw)
  {
    var n := |raw|;
    assert raw[n - 1] == raw[n - 2..][1] && raw[n - 2] == raw[n - 2..][0] && raw[0] == DATA[0];
    assert TrimLeft(raw) == raw;
    assert raw[..n - 1][..n - 2] == raw[..n - 2];
    assert raw[n - 3] == raw[|DATA|..n - 2][n - 3 - |DATA|];
    assert TrimRight(raw[..n - 2]) == raw[..n - 2];
    assert TrimRight(raw[..n - 1]) == TrimRight(raw[..n - 2]);
  }

  lemma {:induction false} NoNewline(s: string, from: nat, to: nat)
    requires from <= to <= |s| && (forall i :: from <= i < to ==> s[i] != '\n') && (to < |s| ==> s[to] == '\n')
    ensures LineEnd(s, from) == to
    decreases |s| - from
  {
    if from < to {
      NoNewline(s, from + 1, to);
    }
  }

  lemma BlankLines(env: Env)
    ensures !RawMarks(env, "\n")
  {
    assert !LineMarks(env, "");
    NoNewline("\n", 0, 0);
    assert "\n"[1..] == "";
    assert !RawMarks(env, "");
  }

  predicate PayloadMarks(env: Env, payload: string) {
    payload == "[DONE]" || (env.parse(payload).Some? && Finishing(env.parse(payload).value))
  }

  /** A single data frame marks exactly when its payload does. */
  lemma SingleMarks(env: Env, raw: string)
    requires Single(raw)
    ensures RawMarks(env, raw) <==> PayloadMarks(env, raw[|DATA|..|raw| - 2])
  {
    var n, payload := |raw| - 2, raw[|DATA|..|raw| - 2];
    hide *;
    SinglePlaces(raw);
    SingleLine(raw);
    NoNewline(raw, 0, n);
    BlankLines(env);
    DataLineMarks(env, payload);
    TwoLines(env, raw, n);
  }

  lemma SingleLine(raw: string)
    requires Single(raw)
    ensures var n := |raw| - 2;
            n >= |DATA| && raw[..n] == DATA + raw[|DATA|..n] && TrimCarriageReturns(raw[..n]) == raw[..n] && raw[n + 1..] == "\n"
  {
    var n := |raw| - 2;
    assert raw[n + 1..] == raw[n..][1..];
    assert raw[..n] == raw[..|DATA|] + raw[|DATA|..n];
    assert raw[..n][n - 1] == raw[|DATA|..n][n - 1 - |DATA|];
  }

  lemma DataLineMarks(env: Env, payload: string)
    requires TrimCarriageReturns(DATA + payload) == DATA + payload
    ensures LineMarks(env, DATA + payload) <==> PayloadMarks(env, payload)
  {
    assert (DATA + payload)[|DATA|..] == payload;
    hide TrimCarriageReturns, Finishing;
  }

  lemma TwoLines(env: Env, raw: string, n: nat)
    requires n + 1 <= |raw| && LineEnd(raw, 0) == n && raw[n + 1..] == "\n" && !RawMarks(env, "\n")
    ensures RawMarks(env, raw) <==> LineMarks(env, raw[..n])
  {
    hide LineMarks, LineEnd;
  }

  lemma StripFinish(env: Env, f: Frame)
    ensures !Finishing(Strip(env, f))
    ensures Strip(env, f) == f ==> !Finishing(f)
  {
    assert forall i :: 0 <= i < |f.choices| ==> Strip(env, f).choices[i].finish == "";
  }

  lemma EmittedMarks(env: Env, raw: string)
    requires Single(raw) || !IsData(raw)
    ensures forall k :: 0 <= k < |Emitted(env, raw)| ==> (Marks(env, Emitted(env, raw)[k]) <==> !IsData(raw) && RawMarks(env, raw))
  {
    if IsData(raw) {
      SingleMarks(env, raw);
      SingleTrims(raw);
      var payload := TrimSpace(raw)[|DATA|..];
      assert payload == raw[|DATA|..|raw| - 2];
      if payload != "[DONE]" && env.parse(payload).Some? {
        StripFinish(env, env.parse(payload).value);
      }
      hide RawMarks, LineMarks, TrimSpace, Strip, HasDelta, Finishing;
    }
  }

  predicate Clean(env: Env, pieces: seq<Piece>) {
    forall k :: 0 <= k < |pieces| ==> !Marks(env, pieces[k])
  }

  predicate Wellformed(frames: seq<string>) {
    forall i :: 0 <= i < |frames| ==> Single(frames[i]) || !IsData(frames[i])
  }

  /** No frame that is passed on unread carries a finish marker. */
  predicate Unmarked(env: Env, frames: seq<string>) {
    forall i :: 0 <= i < |frames| && !IsData(frames[i]) ==> !RawMarks(env, frames[i])
  }

  lemma EmittedClean(env: Env, raw: string)
    requires Single(raw) || !IsData(raw)
    ensures Clean(env, Emitted(env, raw)) <==> (!IsData(raw) ==> !RawMarks(env, raw))
  {
    EmittedMarks(env, raw);
    UnreadEmitted(env, raw);
    hide IsData, Single, Marks, RawMarks, Emitted;
    assert !IsData(raw) && Clean(env, Emitted(env, raw)) ==> !Marks(env, Emitted(env, raw)[0]);
  }

  lemma {:induction false} AllEmittedClean(env: Env, frames: seq<string>)
    requires Wellformed(frames)
    ensures Clean(env, AllEmitted(env, frames)) <==> Unmarked(env, frames)
    decreases |frames|
  {
    hide IsData, Single, Marks, RawMarks, Emitted, Clean;
    if frames == [] {
      CleanEmpty(env);
    } else {
      var first, rest := Emitted(env, frames[0]), frames[1..];
      EmittedClean(env, frames[0]);
      AllEmittedClean(env, rest);
      CleanConcat(env, first, AllEmitted(env, rest));
      assert forall i :: 1 <= i < |frames| ==> frames[i] == rest[i - 1];
      assert Unmarked(env, frames) <==> (!IsData(frames[0]) ==> !RawMarks(env, frames[0])) && Unmarked(env, rest);
    }
  }

  lemma CleanEmpty(env: Env)
    ensures Clean(env, [])
  {
  }

  lemma UnreadEmitted(env: Env, raw: string)
    ensures !IsData(raw) ==> Emitted(env, raw) == [Passed(raw)]
  {
  }

  lemma CleanConcat(env: Env, a: seq<Piece>, b: seq<Piece>)
    ensures Clean(env, a + b) <==> Clean(env, a) && Clean(env, b)
  {
    hide Marks;
    assert forall k :: 0 <= k < |a| ==> (a + b)[k] == a[k];
    assert forall k :: 0 <= k < |b| ==> (a + b)[|a| + k] == b[k];
  }

  /**
   For upstream bytes made of single data frames and frames without data: nothing written before
   the check carries a finish reason or [DONE] exactly when no frame that is passed on unread does.
   */
  lemma FinishHeldBack(env: Env, p: string)
    requires Wellformed(Frames(p))
    ensures Clean(env, Write(env, FRESH, p).out) <==> Unmarked(env, Frames(p))
  {
    hide Write, Clean, AllEmitted, Unmarked, Wellformed;
    WriteEmits(env, p);
    AllEmittedClean(env, Frames(p));
  }

  // ---- Deltas ----

  function PartDeltas(choices: seq<Part>): seq<(string, string)> {
    if choices == [] then []
    else
      var last := choices[|choices| - 1];
      PartDeltas(choices[..|choices| - 1]) + if last.delta.Some? then [(last.index, last.delta.value)] else []
  }

  function PieceDeltas(env: Env, piece: Piece): seq<(string, string)> {
    match piece
    case Passed(raw) => if IsData(raw) && env.parse(TrimSpace(raw)[|DATA|..]).Some? then PartDeltas(env.parse(TrimSpace(raw)[|DATA|..]).value.choices) else []
    case Data(f) => PartDeltas(f.choices)
    case Failure(_) => []
    case Done => []
  }

  function AllDeltas(env: Env, pieces: seq<Piece>): seq<(string, string)>
    decreases |pieces|
  {
    if pieces == [] then [] else PieceDeltas(env, pieces[0]) + AllDeltas(env, pieces[1..])
  }

  /** The deltas a frame brings, with declared tool names. */
  function FrameDeltas(env: Env, raw: string): seq<(string, string)> {
    if !IsData(raw) || TrimSpace(raw)[|DATA|..] == "[DONE]" then []
    else
      match env.parse(TrimSpace(raw)[|DATA|..])
      case None => []
      case Some(f) => if f.failed then [] else Restored(env, PartDeltas(f.choices))
  }

  /** The deltas with the tools' declared names. */
  function Restored(env: Env, deltas: seq<(string, string)>): (r: seq<(string, string)>)
    ensures |r| == |deltas|
  {
    seq(|deltas|, i requires 0 <= i < |deltas| => (deltas[i].0, env.restore(deltas[i].1)))
  }

  lemma {:induction false} StripDeltas(env: Env, choices: seq<Part>)
    ensures PartDeltas(StripParts(env, choices)) == Restored(env, PartDeltas(choices))
  {
    if choices != [] {
      var n := |choices| - 1;
      StripDeltas(env, choices[..n]);
      assert StripParts(env, choices)[..n] == StripParts(env, choices[..n]);
      assert StripParts(env, choices)[n] == StripPart(env, choices[n]);
    }
  }

  function UpstreamDeltas(env: Env, frames: seq<string>): seq<(string, string)>
    decreases |frames|
  {
    if frames == [] then [] else FrameDeltas(env, frames[0]) + UpstreamDeltas(env, frames[1..])
  }

  lemma {:induction false} NoDeltas(choices: seq<Part>)
    requires !HasDelta(choices)
    ensures PartDeltas(choices) == []
  {
    if choices != [] {
      assert !HasDelta(choices[..|choices| - 1]);
      NoDeltas(choices[..|choices| - 1]);
    }
  }

  lemma EmittedDeltas(env: Env, raw: string)
    ensures AllDeltas(env, Emitted(env, raw)) == FrameDeltas(env, raw)
  {
    if IsData(raw) {
      var payload := TrimSpace(raw)[|DATA|..];
      if payload != "[DONE]" && env.parse(payload).Some? {
        var f := env.parse(payload).value;
        if !f.failed {
          StripDeltas(env, f.choices);
          if HasDelta(f.choices) {
            var piece := Emitted(env, raw)[0];
            assert Emitted(env, raw) == [piece] && [piece][1..] == [];
            assert AllDeltas(env, [piece]) == PieceDeltas(env, piece) + AllDeltas(env, []);
          } else {
            assert forall i :: 0 <= i < |f.choices| ==> f.choices[i].delta.None?;
            assert !HasDelta(StripParts(env, f.choices));
            NoDeltas(StripParts(env, f.choices));
          }
        }
      }
    } else {
      assert Emitted(env, raw) == [Passed(raw)] && [Passed(raw)][1..] == [];
      assert AllDeltas(env, [Passed(raw)]) == PieceDeltas(env, Passed(raw)) + AllDeltas(env, []);
    }
  }

  lemma {:induction false} AllDeltasConcat(env: Env, a: seq<Piece>, b: seq<Piece>)
    ensures AllDeltas(env, a + b) == AllDeltas(env, a) + AllDeltas(env, b)
    decreases |a|
  {
    hide PieceDeltas;
    if a == [] {
      assert a + b == b;
    } else {
      assert (a + b)[1..] == a[1..] + b;
      AllDeltasConcat(env, a[1..], b);
    }
  }

  lemma {:induction false} AllEmittedDeltas(env: Env, frames: seq<string>)
    ensures AllDeltas(env, AllEmitted(env, frames)) == UpstreamDeltas(env, frames)
    decreases |frames|
  {
    hide Emitted, FrameDeltas, PieceDeltas;
    if frames != [] {
      EmittedDeltas(env, frames[0]);
      AllEmittedDeltas(env, frames[1..]);
      AllDeltasConcat(env, Emitted(env, frames[0]), AllEmitted(env, frames[1..]));
    }
  }

  /** Every nonempty delta reaches the client, in order, with declared tool names; nothing else does. */
  lemma DeltasPassInOrder(env: Env, p: string)
    ensures AllDeltas(env, Write(env, FRESH, p).out) == UpstreamDeltas(env, Frames(p))
  {
    hide Write, AllDeltas, AllEmitted;
    WriteEmits(env, p);
    AllEmittedDeltas(env, Frames(p));
  }

  // ---- What else is let through, and what is held back ----

  /** A frame as the client decodes it. */
  function ClientFrame(env: Env, piece: Piece): Option<Frame> {
    match piece
    case Passed(raw) => if IsData(raw) then env.parse(TrimSpace(raw)[|DATA|..]) else None
    case Data(f) => Some(f)
    case Failure(_) => None
    case Done => None
  }

  /** The upstream's chunk behind a data frame, if it is one. */
  function UpstreamFrame(env: Env, raw: string): Option<Frame> {
    if IsData(raw) && TrimSpace(raw)[|DATA|..] != "[DONE]" then env.parse(TrimSpace(raw)[|DATA|..]) else None
  }

  /** The same chunk without usage and finish reasons, and with declared tool names. */
  ghost predicate LetThrough(env: Env, f: Frame, g: Frame) {
    && !g.failed && g.usage.None? && g.rest == f.rest && |g.choices| == |f.choices|
    && forall i :: 0 <= i < |f.choices| ==>
         && g.choices[i].index == f.choices[i].index && g.choices[i].finish == ""
         && g.choices[i].delta == if f.choices[i].delta.Some? then Some(env.restore(f.choices[i].delta.value)) else None
  }

  /** Exactly a chunk with a delta is let through before the check, as one frame. */
  lemma ChunkLetThrough(env: Env, raw: string)
    requires IsData(raw)
    ensures var f := UpstreamFrame(env, raw);
            if f.Some? && !f.value.failed && exists i :: 0 <= i < |f.value.choices| && f.value.choices[i].delta.Some? then
              && |Emitted(env, raw)| == 1 && ClientFrame(env, Emitted(env, raw)[0]).Some?
              && LetThrough(env, f.value, ClientFrame(env, Emitted(env, raw)[0]).value)
            else
              Emitted(env, raw) == []
  {
    hide TrimSpace;
    if UpstreamFrame(env, raw).Some? {
      var f := UpstreamFrame(env, raw).value;
      assert forall i :: 0 <= i < |f.choices| ==> Strip(env, f).choices[i] == StripPart(env, f.choices[i]);
    }
  }

  /** The usage that the upstream told, in order, each without choices. */
  function ToldUsage(env: Env, frames: seq<string>): seq<Frame>
    decreases |frames|
  {
    if frames == [] then []
    else
      var f := UpstreamFrame(env, frames[0]);
      (if f.Some? && !f.value.failed && f.value.usage.Some? then [Frame(false, f.value.usage, [], f.value.rest)] else []) + ToldUsage(env, frames[1..])
  }

  /** The upstream's last error frame, as it came. */
  function ToldError(env: Env, frames: seq<string>): Option<string>
    decreases |frames|
  {
    if frames == [] then None
    else
      var later, f := ToldError(env, frames[1..]), UpstreamFrame(env, frames[0]);
      if later.Some? then later else if f.Some? && f.value.failed then Some(frames[0]) else None
  }

  /** Some data frame is neither [DONE] nor a chunk. */
  ghost predicate Unreadable(env: Env, frames: seq<string>) {
    exists i :: 0 <= i < |frames| && IsData(frames[i]) && TrimSpace(frames[i])[|DATA|..] != "[DONE]" && env.parse(TrimSpace(frames[i])[|DATA|..]).None?
  }

  lemma InspectHolds(env: Env, s: Held, raw: string)
    ensures var s', f := Inspect(env, s, raw), UpstreamFrame(env, raw);
            && s'.usageFrames == s.usageFrames + (if f.Some? && !f.value.failed && f.value.usage.Some? then [Frame(false, f.value.usage, [], f.value.rest)] else [])
            && s'.errorFrame == (if f.Some? && f.value.failed then Some(raw) else s.errorFrame)
            && (s'.err.Some? <==> s.err.Some? || (IsData(raw) && TrimSpace(raw)[|DATA|..] != "[DONE]" && f.None?))
  {
    hide TrimSpace, Strip, HasDelta;
  }

  lemma {:induction false} InspectAllHolds(env: Env, s: Held, frames: seq<string>)
    ensures var s' := InspectAll(env, s, frames);
            && s'.usageFrames == s.usageFrames + ToldUsage(env, frames)
            && s'.errorFrame == (if ToldError(env, frames).Some? then ToldError(env, frames) else s.errorFrame)
            && (s'.err.Some? <==> s.err.Some? || Unreadable(env, frames))
    decreases |frames|
  {
    hide Inspect, TrimSpace, UpstreamFrame;
    if frames != [] {
      var s1 := Inspect(env, s, frames[0]);
      InspectHolds(env, s, frames[0]);
      InspectAllHolds(env, s1, frames[1..]);
      UnreadableNext(env, frames);
    }
  }

  lemma UnreadableNext(env: Env, frames: seq<string>)
    requires frames != []
    ensures Unreadable(env, frames) <==>
              (IsData(frames[0]) && TrimSpace(frames[0])[|DATA|..] != "[DONE]" && UpstreamFrame(env, frames[0]).None?) || Unreadable(env, frames[1..])
  {
    hide TrimSpace;
    assert forall i :: 1 <= i < |frames| ==> frames[i] == frames[1..][i - 1];
    if Unreadable(env, frames[1..]) {
      var i :| 0 <= i < |frames[1..]| && IsData(frames[1..][i]) && TrimSpace(frames[1..][i])[|DATA|..] != "[DONE]" && env.parse(TrimSpace(frames[1..][i])[|DATA|..]).None?;
      assert frames[i + 1] == frames[1..][i];
    }
  }

  /** What the writer holds back for the check: the upstream's usage, its last error frame, and whether all frames could be read. */
  lemma WriteHolds(env: Env, p: string)
    ensures var s := Write(env, FRESH, p);
            && s.usageFrames == ToldUsage(env, Frames(p)) && s.errorFrame == ToldError(env, Frames(p))
            && (s.err.Some? <==> Unreadable(env, Frames(p)))
  {
    hide Drain, InspectAll, Unreadable, ToldUsage, ToldError, Frames, Rest;
    assert FRESH.buffer + p == p;
    var s0 := FRESH.(streaming := true, raw := FRESH.raw + p);
    DrainInspects(env, s0, p);
    InspectAllHolds(env, s0, Frames(p));
    assert [] + ToldUsage(env, Frames(p)) == ToldUsage(env, Frames(p));
  }

  // ---- The tail ----

  /** Every choice of the aggregated completion passes the JSON path's checks. */
  predicate AllAccepted(env: Env, chat: Chat) {
    forall i :: 0 <= i < |chat.choices| ==> Verdicts.ValidateJson(env.contract, chat.choices[i].finish, chat.choices[i].message).None?
  }

  lemma {:induction false} FirstFailureMeaning(contract: Contract, choices: seq<ChatChoice>)
    ensures FirstFailure(contract, choices).None? <==>
            forall i :: 0 <= i < |choices| ==> Verdicts.ValidateJson(contract, choices[i].finish, choices[i].message).None?
    decreases |choices|
  {
    if choices != [] {
      FirstFailureMeaning(contract, choices[1..]);
      hide Verdicts.ValidateJson;
      assert forall i :: 1 <= i < |choices| ==> choices[i] == choices[1..][i - 1];
    }
  }

  predicate Accepts(env: Env, s: Held) {
    && s.err.None?
    && env.aggregate(s.raw).Ok?
    && env.aggregate(s.raw).value.choices != []
    && AllAccepted(env, env.aggregate(s.raw).value)
  }

  /** The usage frames and the finish frame carry what they should and nothing more. */
  lemma UsageUnmarked(env: Env, frames: seq<string>, s: Held)
    requires forall i :: 0 <= i < |s.usageFrames| ==> s.usageFrames[i].choices == []
    ensures forall i :: 0 <= i < |InspectAll(env, s, frames).usageFrames| ==> InspectAll(env, s, frames).usageFrames[i].choices == []
    decreases |frames|
  {
    if frames != [] {
      var s' := Inspect(env, s, frames[0]);
      assert forall i :: 0 <= i < |s'.usageFrames| ==> s'.usageFrames[i].choices == [];
      hide Inspect;
      UsageUnmarked(env, frames[1..], s');
    }
  }

  lemma FinishTold(env: Env, chat: Chat)
    ensures FinishFrame(chat, Data(TerminalFrame(chat)))
    ensures Marks(env, Data(TerminalFrame(chat))) <==> exists i :: 0 <= i < |chat.choices| && chat.choices[i].finish != ""
  {
    var f := TerminalFrame(chat);
    assert forall i :: 0 <= i < |chat.choices| ==> f.choices[i].finish == chat.choices[i].finish;
    if i :| 0 <= i < |chat.choices| && chat.choices[i].finish != "" {
      assert f.choices[i].finish != "";
    }
  }

  /**
   The tail in terms of the upstream's bytes. If every frame could be read and the whole aggregates to
   choices that all are acceptable: one frame with every choice's index and finish reason, then the
   upstream's usage in order, then one [DONE]. Otherwise the upstream's last error frame, or else the error
   found, then one [DONE].
   */
  lemma CompletionTail(env: Env, p: string)
    ensures var s := Write(env, FRESH, p);
            var c, n, told := Complete(env, s), |s.out|, ToldUsage(env, Frames(p));
            var ok := !Unreadable(env, Frames(p)) && env.aggregate(p).Ok? && env.aggregate(p).value.choices != [] && AllAccepted(env, env.aggregate(p).value);
            && s.out <= c.out
            && (if ok then
                  && c.err.None? && |c.out| == n + |told| + 2
                  && FinishFrame(env.aggregate(p).value, c.out[n])
                  && (Marks(env, c.out[n]) <==> exists i :: 0 <= i < |env.aggregate(p).value.choices| && env.aggregate(p).value.choices[i].finish != "")
                  && (forall k :: 0 <= k < |told| ==> c.out[n + 1 + k] == Data(told[k]))
                  && c.out[n + |told| + 1] == Done
                else
                  && c.err.Some? && |c.out| == n + 2 && c.out[n + 1] == Done
                  && c.out[n] == (if ToldError(env, Frames(p)).Some? then Passed(ToldError(env, Frames(p)).value) else Failure(c.err.value)))
  {
    var s := Write(env, FRESH, p);
    WriteEmits(env, p);
    WriteHolds(env, p);
    TailIs(env, p);
    AcceptsTold(env, p);
    hide *;
    if Accepts(env, s) {
      AcceptedTail(env, s);
    } else {
      FailsWith(env, s);
    }
  }

  lemma AcceptsTold(env: Env, p: string)
    ensures var s := Write(env, FRESH, p);
            Accepts(env, s) <==> !Unreadable(env, Frames(p)) && env.aggregate(p).Ok? && env.aggregate(p).value.choices != [] && AllAccepted(env, env.aggregate(p).value)
  {
    WriteEmits(env, p);
    WriteHolds(env, p);
    hide Write, AllAccepted, Unreadable, AllEmitted, Frames, ToldUsage, ToldError;
  }

  lemma AcceptedTail(env: Env, s: Held)
    requires s.streaming && !s.checked && env.aggregate(s.raw).Ok?
    requires Complete(env, s).err.None?
    ensures var c, n, told, chat := Complete(env, s), |s.out|, s.usageFrames, env.aggregate(s.raw).value;
            && s.out <= c.out && |c.out| == n + |told| + 2
            && FinishFrame(chat, c.out[n])
            && (Marks(env, c.out[n]) <==> exists i :: 0 <= i < |chat.choices| && chat.choices[i].finish != "")
            && (forall k :: 0 <= k < |told| ==> c.out[n + 1 + k] == Data(told[k]))
            && c.out[n + |told| + 1] == Done
  {
    FinishTold(env, env.aggregate(s.raw).value);
    hide Validate, TerminalFrame, FinishFrame, Marks;
    assert Complete(env, s).out == s.out + [Data(TerminalFrame(env.aggregate(s.raw).value))] + Usages(s.usageFrames) + [Done];
  }

  lemma FailsWith(env: Env, s: Held)
    requires s.streaming && !s.checked
    ensures var c := Complete(env, s); c.err.Some? ==> c.out == s.out + [if s.errorFrame.Some? then Passed(s.errorFrame.value) else Failure(c.err.value), Done]
    ensures var c := Complete(env, s); c.err.Some? ==> s.out <= c.out && |c.out| == |s.out| + 2 && c.out[|s.out| + 1] == Done
    ensures var c := Complete(env, s); c.err.Some? ==> c.out[|s.out|] == if s.errorFrame.Some? then Passed(s.errorFrame.value) else Failure(c.err.value)
  {
    hide Validate, TerminalFrame, Usages;
  }

  /**
   The tail in the writer's own terms: on success the finish frame, the usage frames and one [DONE]; on
   failure one error frame and one [DONE].
   */
  lemma TailIs(env: Env, p: string)
    ensures var s := Write(env, FRESH, p);
            var c := Complete(env, s);
            && c.checked
            && (c.err.None? <==> Accepts(env, s))
            && (c.err.None? ==>
                  && env.aggregate(p).Ok?
                  && c.out == s.out + [Data(TerminalFrame(env.aggregate(p).value))] + Usages(s.usageFrames) + [Done]
                  && (forall i :: 0 <= i < |s.usageFrames| ==> !Marks(env, Usages(s.usageFrames)[i])))
            && (c.err.Some? ==>
                  && |c.out| == |s.out| + 2 && c.out[..|s.out|] == s.out && c.out[|s.out| + 1] == Done
                  && (Marks(env, c.out[|s.out|]) <==> s.errorFrame.Some? && RawMarks(env, s.errorFrame.value)))
  {
    var s := Write(env, FRESH, p);
    WriteEmits(env, p);
    if env.aggregate(s.raw).Ok? {
      FirstFailureMeaning(env.contract, env.aggregate(s.raw).value.choices);
    }
    UsageFramesEmpty(env, p);
    hide Write, RawMarks, FirstFailure, Verdicts.ValidateJson, AllEmitted, Frames;
  }

  lemma UsageFramesEmpty(env: Env, p: string)
    ensures var s := Write(env, FRESH, p); forall i :: 0 <= i < |s.usageFrames| ==> s.usageFrames[i].choices == []
  {
    hide Drain, InspectAll;
    assert FRESH.buffer + p == p;
    var s0 := FRESH.(streaming := true, raw := FRESH.raw + p);
    DrainInspects(env, s0, p);
    UsageUnmarked(env, Frames(p), s0);
  }

  /** After a clean stream, a finish reason stands in the finish frame or in the upstream's error frame. */
  lemma CleanFinish(env: Env, p: string, k: nat)
    requires Clean(env, Write(env, FRESH, p).out)
    requires var c := Complete(env, Write(env, FRESH, p)); k < |c.out| - 1 && Marks(env, c.out[k])
    ensures var s := Write(env, FRESH, p);
            var c := Complete(env, s);
            if c.err.None? then
              && env.aggregate(s.raw).Ok? && AllAccepted(env, env.aggregate(s.raw).value)
              && FinishFrame(env.aggregate(s.raw).value, c.out[k])
            else
              k == |s.out| && s.errorFrame.Some? && c.out[k] == Passed(s.errorFrame.value)
  {
    TailIs(env, p);
    WriteEmits(env, p);
    var s := Write(env, FRESH, p);
    var c := Complete(env, s);
    assert c.err.Some? ==> c.out == s.out + FailureTail(s, c.err.value);
    if env.aggregate(p).Ok? {
      FinishTold(env, env.aggregate(p).value);
    }
    hide FinishFrame, Write, Complete, RawMarks, AllAccepted, AllEmitted, Frames, TerminalFrame, Usages, Marks;
    assert forall i :: 0 <= i < |s.out| ==> c.out[i] == s.out[i];
  }

  /** A finish reason reaches the client only when every choice was validated. */
  lemma FinishMeansValidated(env: Env, p: string, k: nat)
    requires Wellformed(Frames(p)) && Unmarked(env, Frames(p))
    requires var c := Complete(env, Write(env, FRESH, p));
             && k < |c.out| - 1 && Marks(env, c.out[k])
             && (Write(env, FRESH, p).errorFrame.Some? ==> !RawMarks(env, Write(env, FRESH, p).errorFrame.value))
    ensures env.aggregate(p).Ok?
    ensures FinishFrame(env.aggregate(p).value, Complete(env, Write(env, FRESH, p)).out[k])
    ensures AllAccepted(env, env.aggregate(p).value)
  {
    FinishHeldBack(env, p);
    CleanFinish(env, p, k);
    WriteEmits(env, p);
    hide Write, RawMarks, Complete, AllAccepted, Frames, Wellformed, Unmarked, Clean, AllEmitted;
  }

  /** Checking again writes nothing more. */
  lemma CompleteTwice(env: Env, s: Held)
    ensures Complete(env, Complete(env, s)) == Complete(env, s)
  {
    hide Judgement, TerminalFrame;
  }

  // ---- What is passed on unread ----

  lemma SinglePlaces(raw: string)
    requires Single(raw)
    ensures var n := |raw| - 2; raw[n] == raw[n + 1] == '\n' && raw[0] == 'd' && forall i :: 0 <= i < n ==> raw[i] != '\n'
  {
    var n := |raw| - 2;
    assert raw[n] == raw[n..][0] && raw[n + 1] == raw[n..][1];
    assert forall i :: |DATA| <= i < n ==> raw[i] == raw[|DATA|..n][i - |DATA|];
    assert forall i :: 0 <= i < |DATA| ==> raw[i] == raw[..|DATA|][i] == DATA[i];
  }

  /** Bytes whose only blank line is at the end are one frame. */
  lemma WholeFrame(p: string)
    requires |p| >= 2 && FrameEnd(p, 0) == |p| - 2
    ensures Frames(p) == [p] && Rest(p) == ""
  {
    FramesStep(p, |p| - 2);
    assert p[..|p|] == p && p[|p|..] == "";
    FramesStep("", 0);
  }

  lemma SingleFrame(raw: string)
    requires Single(raw)
    ensures Frames(raw) == [raw] && Rest(raw) == ""
  {
    SinglePlaces(raw);
    hide Single, Frames, Rest;
    NoBlank(raw, 0, |raw| - 2);
    WholeFrame(raw);
  }

  lemma OneFrame(env: Env, p: string)
    requires Frames(p) == [p]
    ensures Write(env, FRESH, p) == Inspect(env, FRESH.(streaming := true, raw := p), p).(buffer := Rest(p))
  {
    hide Drain, Inspect, Frames, Rest, InspectAll;
    assert FRESH.buffer + p == p && FRESH.raw + p == p;
    var s0 := FRESH.(streaming := true, raw := FRESH.raw + p);
    DrainInspects(env, s0, p);
    OneInspect(env, s0, p);
  }

  /**
   An upstream error frame reaches the client as it came: if it is the whole stream and the stream cannot
   be aggregated, the client sees that frame and [DONE], and a finish reason exactly if the frame has one.
   */
  lemma ErrorFrameCanFinish(env: Env, p: string, f: Frame)
    requires Single(p) && env.parse(p[|DATA|..|p| - 2]) == Some(f) && f.failed && p[|DATA|..|p| - 2] != "[DONE]"
    requires env.aggregate(p).Err?
    ensures var c := Complete(env, Write(env, FRESH, p));
            && Wellformed(Frames(p)) && Unmarked(env, Frames(p))
            && c.err == Some(env.aggregate(p).message)
            && c.out == [Passed(p), Done]
            && (Marks(env, c.out[0]) <==> Finishing(f))
  {
    SingleFrame(p);
    OneWellformed(env, p);
    ErrorHeld(env, p, f);
    ErrorMarks(env, p, f);
    hide *;
    var s := FRESH.(streaming := true, raw := p, errorFrame := Some(p), buffer := Rest(p));
    ErrorTail(env, s);
    assert [] + [Passed(p), Done] == [Passed(p), Done];
  }

  lemma OneWellformed(env: Env, p: string)
    requires Single(p)
    ensures Wellformed([p]) && Unmarked(env, [p])
  {
    SingleTrims(p);
    hide Single, IsData, RawMarks;
  }

  lemma ErrorMarks(env: Env, p: string, f: Frame)
    requires Single(p) && env.parse(p[|DATA|..|p| - 2]) == Some(f) && p[|DATA|..|p| - 2] != "[DONE]"
    ensures Marks(env, Passed(p)) <==> Finishing(f)
  {
    SingleMarks(env, p);
    hide Single, RawMarks, Finishing;
  }

  lemma ErrorTail(env: Env, s: Held)
    requires s.streaming && !s.checked && s.err.None? && s.errorFrame.Some? && env.aggregate(s.raw).Err?
    ensures var c := Complete(env, s);
            c.err == Some(env.aggregate(s.raw).message) && c.out == s.out + [Passed(s.errorFrame.value), Done]
  {
    assert Judgement(env, s) == Some(env.aggregate(s.raw).message);
    hide Judgement, TerminalFrame, Usages;
  }

  lemma ErrorHeld(env: Env, p: string, f: Frame)
    requires Single(p) && env.parse(p[|DATA|..|p| - 2]) == Some(f) && f.failed && p[|DATA|..|p| - 2] != "[DONE]"
    ensures Write(env, FRESH, p) == FRESH.(streaming := true, raw := p, errorFrame := Some(p), buffer := Rest(p))
  {
    SingleFrame(p);
    SingleTrims(p);
    OneFrame(env, p);
    assert p[..|p| - 2][|DATA|..] == p[|DATA|..|p| - 2];
    hide Write, Frames, Rest, TrimSpace, Single;
  }

  /** A comment line in front of a data frame. */
  function Commented(frame: string): string {
    ":\n" + frame
  }

  lemma FrameEndAt(s: string, n: nat)
    requires n + 1 < |s| && s[n] == s[n + 1] == '\n'
    ensures FrameEnd(s, n) == n
  {
  }

  lemma FrameEndNext(s: string, i: nat)
    requires i + 1 < |s| && !(s[i] == s[i + 1] == '\n')
    ensures FrameEnd(s, i) == FrameEnd(s, i + 1)
  {
  }

  lemma NotData(p: string)
    requires p != "" && p[0] == ':'
    ensures !IsData(p)
  {
    assert !Space(':');
    assert TrimLeft(p) == p;
    KeepsHead(p);
    hide TrimLeft, TrimRight, Space;
  }

  lemma CommentedPlaces(frame: string)
    requires Single(frame)
    ensures var p, n := Commented(frame), |frame|;
            && |p| == n + 2 && p[0] == ':' && p[2] == 'd' && p[n] == p[n + 1] == '\n'
            && forall i :: 2 <= i < n ==> p[i] != '\n'
  {
    var p, n := Commented(frame), |frame|;
    SinglePlaces(frame);
    hide Single;
    assert p[n] == frame[n - 2] && p[n + 1] == frame[n - 1] && p[2] == frame[0];
    forall i | 2 <= i < n
      ensures p[i] != '\n'
    {
      assert p[i] == frame[i - 2];
    }
  }

  lemma CommentedFrame(frame: string)
    requires Single(frame)
    ensures var p := Commented(frame); Frames(p) == [p] && Rest(p) == "" && !IsData(p)
  {
    hide *;
    var p, n := Commented(frame), |frame|;
    CommentedPlaces(frame);
    FrameEndAt(p, n);
    NoBlank(p, 2, n);
    FrameEndNext(p, 1);
    FrameEndNext(p, 0);
    WholeFrame(p);
    NotData(p);
  }

  lemma CommentedMarks(env: Env, frame: string)
    requires Single(frame)
    ensures RawMarks(env, Commented(frame)) <==> PayloadMarks(env, frame[|DATA|..|frame| - 2])
  {
    var p := Commented(frame);
    SingleMarks(env, frame);
    hide Single, PayloadMarks, Finishing;
    NoNewline(p, 0, 1);
    assert p[..1] == ":" && p[2..] == frame;
    assert TrimCarriageReturns(":") == ":";
    assert !LineMarks(env, ":");
    hide TrimCarriageReturns, LineMarks, LineEnd;
  }

  /**
   A frame that does not begin with a data line is passed on unread before the check; a client that skips
   the comment sees the finish reason or [DONE] of the line behind it, if it carries one.
   */
  lemma UnreadFrameCanFinish(env: Env, frame: string)
    requires Single(frame)
    ensures var p := Commented(frame);
            && Wellformed(Frames(p))
            && Write(env, FRESH, p).out == [Passed(p)]
            && (Clean(env, Write(env, FRESH, p).out) <==> !PayloadMarks(env, frame[|DATA|..|frame| - 2]))
  {
    hide *;
    var p := Commented(frame);
    CommentedFrame(frame);
    CommentedMarks(env, frame);
    OneFrame(env, p);
    PassedUnread(env, p);
    OneMark(env, p);
  }

  lemma PassedUnread(env: Env, p: string)
    requires !IsData(p) && Frames(p) == [p] && Rest(p) == ""
    ensures Inspect(env, FRESH.(streaming := true, raw := p), p).(buffer := Rest(p)).out == [Passed(p)]
    ensures Wellformed(Frames(p))
  {
    hide Frames, Rest, IsData;
  }

  lemma OneMark(env: Env, p: string)
    ensures Clean(env, [Passed(p)]) <==> !RawMarks(env, p)
  {
    hide RawMarks;
    assert Marks(env, [Passed(p)][0]) <==> RawMarks(env, p);
  }

  /** For example: behind a comment, the end of the stream is announced before any check. */
  lemma UnreadDone(env: Env)
    ensures Write(env, FRESH, ":\ndata: [DONE]\n\n").out == [Passed(":\ndata: [DONE]\n\n")]
    ensures !Clean(env, Write(env, FRESH, ":\ndata: [DONE]\n\n").out)
  {
    DoneMarks(env);
    UnreadFrameCanFinish(env, "data: [DONE]\n\n");
    hide Write, Clean, Single;
  }

  lemma DoneMarks(env: Env)
    ensures Single("data: [DONE]\n\n") && Commented("data: [DONE]\n\n") == ":\ndata: [DONE]\n\n"
    ensures RawMarks(env, ":\ndata: [DONE]\n\n") && "data: [DONE]\n\n"[|DATA|..|"data: [DONE]\n\n"| - 2] == "[DONE]"
  {
    var frame := "data: [DONE]\n\n";
    assert frame[..6] == DATA && frame[6..12] == "[DONE]" && frame[12..] == "\n\n";
    assert '\n' !in "[DONE]";
    assert Commented(frame) == ":\ndata: [DONE]\n\n";
    CommentedMarks(env, frame);
    hide RawMarks;
  }

  lemma OneInspect(env: Env, s: Held, raw: string)
    ensures InspectAll(env, s, [raw]) == Inspect(env, s, raw)
  {
    hide Inspect;
    assert [raw][1..] == [];
    assert InspectAll(env, Inspect(env, s, raw), []) == Inspect(env, s, raw);
  }

  lemma {:induction false} NoBlank(s: string, from: nat, to: nat)
    requires from <= to <= |s| && (forall i :: from <= i < to ==> s[i] != '\n') && FrameEnd(s, to) == to
    ensures FrameEnd(s, from) == to
    decreases |s| - from
  {
    if from < to {
      NoBlank(s, from + 1, to);
    }
  }
}
