/** White space and the framing of event streams, as every component of the server reads them. */
module Text {

  /** Unicode white space, which trimming removes. */
  predicate Space(c: char) {
    var n := c as int;
    9 <= n <= 13 || n in {0x20, 0x85, 0xA0, 0x1680, 0x2028, 0x2029, 0x202F, 0x205F, 0x3000} || 0x2000 <= n <= 0x200A
  }

  function TrimLeft(s: string): string {
    if s != "" && Space(s[0]) then TrimLeft(s[1..]) else s
  }

  function TrimRight(s: string): string {
    if s != "" && Space(s[|s| - 1]) then TrimRight(s[..|s| - 1]) else s
  }

  function TrimSpace(s: string): string {
    TrimRight(TrimLeft(s))
  }

  predicate Blank(s: string) {
    forall i :: 0 <= i < |s| ==> Space(s[i])
  }

  /** Blank text is what trimming leaves nothing of. */
  lemma {:induction false} BlankTrims(s: string)
    ensures Blank(s) <==> TrimSpace(s) == ""
  {
    hide Space;
    if s != "" {
      if Space(s[0]) {
        BlankTrims(s[1..]);
        assert forall i :: 1 <= i < |s| ==> s[i] == s[1..][i - 1];
      } else {
        KeepsHead(s);
      }
    }
  }

  lemma {:induction false} KeepsHead(s: string)
    requires s != "" && !Space(s[0])
    ensures TrimRight(s) != "" && TrimRight(s)[0] == s[0]
  {
    if Space(s[|s| - 1]) {
      KeepsHead(s[..|s| - 1]);
    }
  }

  // ---- Frames and lines, sections 9.2.5 and 9.2.6 of the WHATWG HTML Living Standard ----

  const DATA := "data: "

  /** Position of the first blank line in b at or after from, or the end. */
  function FrameEnd(b: string, from: nat): (i: nat)
    requires from <= |b|
    ensures from <= i <= |b|
    ensures i < |b| ==> i + 2 <= |b| && b[i] == b[i + 1] == '\n'
    ensures forall j :: from <= j < i && j + 1 < |b| ==> !(b[j] == b[j + 1] == '\n')
    decreases |b| - from
  {
    if from + 1 >= |b| then |b|
    else if b[from] == b[from + 1] == '\n' then from
    else FrameEnd(b, from + 1)
  }

  /** Position of the first newline at or after from, or the end. */
  function LineEnd(s: string, from: nat): (i: nat)
    requires from <= |s|
    ensures from <= i <= |s| && (i < |s| ==> s[i] == '\n')
    ensures forall j :: from <= j < i ==> s[j] != '\n'
    decreases |s| - from
  {
    if from == |s| || s[from] == '\n' then from else LineEnd(s, from + 1)
  }

  function TrimCarriageReturns(line: string): (r: string)
    ensures r <= line && (r == "" || r[|r| - 1] != '\r')
    ensures forall i :: |r| <= i < |line| ==> line[i] == '\r'
  {
    if line != "" && line[|line| - 1] == '\r' then TrimCarriageReturns(line[..|line| - 1]) else line
  }

  /** More bytes do not move the end of a complete first frame. */
  lemma {:induction false} FirstFrame(b: string, q: string, from: nat)
    requires from <= |b| && FrameEnd(b, from) < |b|
    ensures FrameEnd(b + q, from) == FrameEnd(b, from)
    decreases |b| - from
  {
    if from + 1 < |b| && !(b[from] == b[from + 1] == '\n') {
      FirstFrame(b, q, from + 1);
    }
  }

  /** The complete frames of a byte string, each with its blank line. */
  function Frames(b: string): seq<string>
    decreases |b|
  {
    var i := FrameEnd(b, 0);
    if i == |b| then [] else [b[..i + 2]] + Frames(b[i + 2..])
  }

  function Rest(b: string): string
    decreases |b|
  {
    var i := FrameEnd(b, 0);
    if i == |b| then b else Rest(b[i + 2..])
  }

  lemma FramesStep(b: string, i: nat)
    requires i == FrameEnd(b, 0)
    ensures i < |b| ==> Frames(b) == [b[..i + 2]] + Frames(b[i + 2..]) && Rest(b) == Rest(b[i + 2..])
    ensures i == |b| ==> Frames(b) == [] && Rest(b) == b
  {
    hide FrameEnd;
  }

  lemma {:induction false} FramesSplit(p: string, q: string)
    ensures Frames(p + q) == Frames(p) + Frames(Rest(p) + q) && Rest(p + q) == Rest(Rest(p) + q)
    decreases |p|
  {
    hide *;
    var i := FrameEnd(p, 0);
    FramesStep(p, i);
    if i < |p| {
      var tail := p[i + 2..];
      FirstFrame(p, q, 0);
      FramesStep(p + q, i);
      assert (p + q)[..i + 2] == p[..i + 2];
      assert (p + q)[i + 2..] == tail + q;
      FramesSplit(tail, q);
      assert [p[..i + 2]] + (Frames(tail) + Frames(Rest(tail) + q)) == [p[..i + 2]] + Frames(tail) + Frames(Rest(tail) + q);
    } else {
      assert [] + Frames(p + q) == Frames(p + q);
    }
  }

  function Concat(chunks: seq<string>): string {
    if chunks == [] then "" else Concat(chunks[..|chunks| - 1]) + chunks[|chunks| - 1]
  }
}
