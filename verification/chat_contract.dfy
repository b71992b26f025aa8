/**
 chatContractWriter (internal/server/chat_output_contract.go): text streams on at once, but the
 finish marker of a Chat stream is held back until the whole completion has been validated.

 JSON enters through parse; aggregating the raw stream (the upstream package) through aggregate.
 */
module ChatContract {
  import opened Wrappers
  import opened ToolPolicy
  import opened Text
  import Verdicts

  // ---- Frames ----

  /** One choice of a chunk. delta None stands for a missing or empty delta object. */
  datatype Part = Part(index: string, finish: string, delta: Option<string>)

  datatype Frame = Frame(failed: bool, usage: Option<string>, choices: seq<Part>, rest: string)

  datatype ChatChoice = ChatChoice(index: string, finish: string, message: Verdicts.Message)

  datatype Chat = Chat(choices: seq<ChatChoice>, rest: string)

  /** restore maps the public alias of a tool inside a delta back to its declared name. */
  datatype Env = Env(
    parse: string -> Option<Frame>,
    restore: string -> string,
    aggregate: string -> Result<Chat>,
    contract: Contract)

  /** What the client receives in one write. */
  datatype Piece = Passed(raw: string) | Data(frame: Frame) | Failure(error: string) | Done

  predicate IsData(raw: string) {
    DATA <= TrimSpace(raw)
  }

  // ---- State ----

  datatype Held = Held(out: seq<Piece>, raw: string, buffer: string, usageFrames: seq<Frame>, errorFrame: Option<string>,
                       streaming: bool, checked: bool, err: Option<string>)

  const FRESH := Held([], "", "", [], None, false, false, None)

  function Send(s: Held, piece: Piece): Held {
    s.(out := s.out + [piece])
  }

  predicate HasDelta(choices: seq<Part>) {
    exists i :: 0 <= i < |choices| && choices[i].delta.Some?
  }

  function StripPart(env: Env, part: Part): Part {
    part.(finish := "", delta := if part.delta.Some? then Some(env.restore(part.delta.value)) else None)
  }

  function StripParts(env: Env, choices: seq<Part>): (r: seq<Part>)
    ensures |r| == |choices|
  {
    seq(|choices|, i requires 0 <= i < |choices| => StripPart(env, choices[i]))
  }

  /** The chunk without usage and finish reasons, with declared tool names. */
  function Strip(env: Env, f: Frame): Frame {
    f.(usage := None, choices := StripParts(env, f.choices))
  }

  function Inspect(env: Env, s: Held, raw: string): Held {
    if !IsData(raw) then Send(s, Passed(raw))
    else
      var payload := TrimSpace(raw)[|DATA|..];
      if payload == "[DONE]" then s
      else
        match env.parse(payload)
        case None => s.(err := Some("invalid upstream event"))
        case Some(f) =>
          if f.failed then s.(errorFrame := Some(raw))
          else
            var s1 := if f.usage.Some? then s.(usageFrames := s.usageFrames + [f.(choices := [])]) else s;
            if !HasDelta(f.choices) then s1
            else if Strip(env, f) != f then Send(s1, Data(Strip(env, f)))
            else Send(s1, Passed(raw))
  }

  function Drain(env: Env, s: Held, b: string): Held
    decreases |b|
  {
    var i := FrameEnd(b, 0);
    if i == |b| then s.(buffer := b) else Drain(env, Inspect(env, s, b[..i + 2]), b[i + 2..])
  }

  function Write(env: Env, s: Held, p: string): Held {
    Drain(env, s.(streaming := true, raw := s.raw + p), s.buffer + p)
  }

  // ---- The completion check ----

  /** ValidateCompletion: every choice on its own; the first failure counts. */
  function FirstFailure(contract: Contract, choices: seq<ChatChoice>): Option<string> {
    if choices == [] then None
    else
      var e := Verdicts.ValidateJson(contract, choices[0].finish, choices[0].message);
      if e.Some? then e else FirstFailure(contract, choices[1..])
  }

  function Validate(contract: Contract, chat: Chat): Option<string> {
    if chat.choices == [] then Some("upstream response contains no choices") else FirstFailure(contract, chat.choices)
  }

  function Judgement(env: Env, s: Held): Option<string> {
    if s.err.Some? then s.err
    else
      match env.aggregate(s.raw)
      case Err(e) => Some(e)
      case Ok(chat) => Validate(env.contract, chat)
  }

  function TerminalFrame(chat: Chat): Frame {
    Frame(false, None, seq(|chat.choices|, i requires 0 <= i < |chat.choices| => Part(chat.choices[i].index, chat.choices[i].finish, None)), chat.rest)
  }

  /** The finish frame of a completion: a frame with index and finish reason of every choice, and no more. */
  ghost predicate FinishFrame(chat: Chat, piece: Piece) {
    && piece.Data? && !piece.frame.failed && piece.frame.usage.None? && piece.frame.rest == chat.rest
    && |piece.frame.choices| == |chat.choices|
    && forall i :: 0 <= i < |chat.choices| ==>
         piece.frame.choices[i].index == chat.choices[i].index && piece.frame.choices[i].finish == chat.choices[i].finish && piece.frame.choices[i].delta.None?
  }

  lemma FinishIs(chat: Chat)
    ensures FinishFrame(chat, Data(TerminalFrame(chat)))
  {
  }

  function Usages(frames: seq<Frame>): (r: seq<Piece>)
    ensures |r| == |frames|
  {
    seq(|frames|, i requires 0 <= i < |frames| => Data(frames[i]))
  }

  function FailureTail(s: Held, error: string): seq<Piece> {
    [if s.errorFrame.Some? then Passed(s.errorFrame.value) else Failure(error), Done]
  }

  function Complete(env: Env, s: Held): Held {
    if s.checked || !s.streaming then s
    else
      match Judgement(env, s)
      case Some(error) => s.(checked := true, err := Some(error), out := s.out + FailureTail(s, error))
      case None => s.(checked := true, out := s.out + [Data(TerminalFrame(env.aggregate(s.raw).value))] + Usages(s.usageFrames) + [Done])
  }

  // ---- The object ----

  class ChatContractWriter {
    const env: Env
    var inner: seq<Piece>
    var raw: string
    var buffer: string
    var usageFrames: seq<Frame>
    var errorFrame: Option<string>
    var streaming: bool
    var checked: bool
    var err: Option<string>

    ghost function View(): Held
      reads this
    {
      Held(inner, raw, buffer, usageFrames, errorFrame, streaming, checked, err)
    }

    constructor (env: Env)
      ensures View() == FRESH && this.env == env
    {
      this.env := env;
      inner, raw, buffer, usageFrames, errorFrame := [], "", "", [], None;
      streaming, checked, err := false, false, None;
    }

    method WriteBytes(p: string, eventStream: bool)
      modifies this
      ensures View() == if eventStream then Write(env, old(View()), p) else Send(old(View()), Passed(p))
    {
      if !eventStream {
        inner := inner + [Passed(p)];
        return;
      }
      streaming := true;
      raw := raw + p;
      buffer := buffer + p;
      DrainFrames();
      DrainBuffer(env, old(View()).(streaming := true, raw := old(raw) + p), old(buffer) + p, old(buffer) + p);
    }

    /** Handles every frame that a blank line ends. */
    method DrainFrames()
      modifies this
      ensures View() == Drain(env, old(View()), old(buffer))
    {
      hide Inspect, Drain;
      while true
        invariant Drain(env, View(), buffer) == Drain(env, old(View()), old(buffer))
        decreases |buffer|
      {
        var index := FrameEnd(buffer, 0);
        DrainStep(env, View(), buffer);
        if index == |buffer| {
          return;
        }
        var frame := buffer[..index + 2];
        buffer := buffer[index + 2..];
        HandleFrame(frame);
      }
    }

    method HandleFrame(raw: string)
      modifies this
      ensures View() == Inspect(env, old(View()), raw) && buffer == old(buffer)
    {
      if !IsData(raw) {
        inner := inner + [Passed(raw)];
        return;
      }
      var payload := TrimSpace(raw)[|DATA|..];
      if payload == "[DONE]" {
        return;
      }
      var parsed := env.parse(payload);
      if parsed.None? {
        err := Some("invalid upstream event");
        return;
      }
      var frame := parsed.value;
      if frame.failed {
        errorFrame := Some(raw);
        return;
      }
      if frame.usage.Some? {
        usageFrames := usageFrames + [frame.(choices := [])];
        frame := frame.(usage := None);
      }
      var hasDelta, k := false, 0;
      while k < |frame.choices|
        invariant k <= |frame.choices| == |parsed.value.choices|
        invariant frame == parsed.value.(usage := None, choices := frame.choices)
        invariant forall j :: 0 <= j < k ==> frame.choices[j] == StripPart(env, parsed.value.choices[j])
        invariant forall j :: k <= j < |frame.choices| ==> frame.choices[j] == parsed.value.choices[j]
        invariant hasDelta <==> exists j :: 0 <= j < k && parsed.value.choices[j].delta.Some?
      {
        var part := frame.choices[k].(finish := "");
        if part.delta.Some? {
          hasDelta := true;
          part := part.(delta := Some(env.restore(part.delta.value)));
        }
        frame := frame.(choices := frame.choices[k := part]);
        k := k + 1;
      }
      assert frame == Strip(env, parsed.value);
      if !hasDelta {
        return;
      }
      inner := inner + [if frame != parsed.value then Data(frame) else Passed(raw)];
    }

    method ValidateCompletion(chat: Chat) returns (failure: Option<string>)
      ensures failure == Validate(env.contract, chat)
    {
      if |chat.choices| == 0 {
        return Some("upstream response contains no choices");
      }
      var k := 0;
      while k < |chat.choices|
        invariant k <= |chat.choices|
        invariant FirstFailure(env.contract, chat.choices[k..]) == FirstFailure(env.contract, chat.choices)
      {
        assert chat.choices[k..][1..] == chat.choices[k + 1..];
        failure := Verdicts.ValidateJson(env.contract, chat.choices[k].finish, chat.choices[k].message);
        if failure.Some? {
          return;
        }
        k := k + 1;
      }
      failure := None;
    }

    /** The first half of the check: the stream could be read and aggregated, and every choice is accepted. */
    method Decide()
      modifies this`err
      ensures err == Judgement(env, old(View()))
    {
      var chat := env.aggregate(raw);
      if err.None? {
        if chat.Ok? {
          err := ValidateCompletion(chat.value);
        } else {
          err := Some(chat.message);
        }
      }
    }

    method SendUsages()
      modifies this`inner
      ensures inner == old(inner) + Usages(usageFrames)
    {
      var k := 0;
      while k < |usageFrames|
        invariant k <= |usageFrames| && inner == old(inner) + Usages(usageFrames[..k])
      {
        UsagesNext(usageFrames, k);
        inner := inner + [Data(usageFrames[k])];
        k := k + 1;
      }
      assert usageFrames[..|usageFrames|] == usageFrames;
    }

    method CompletionError() returns (failure: Option<string>)
      modifies this
      ensures View() == Complete(env, old(View())) && failure == err
      ensures old(checked) || !old(streaming) ==> View() == old(View())
      ensures !old(checked) && old(streaming) && failure.None? ==>
                && env.aggregate(raw).Ok? && |inner| == |old(inner)| + |usageFrames| + 2 && inner[..|old(inner)|] == old(inner)
                && FinishFrame(env.aggregate(raw).value, inner[|old(inner)|]) && inner[|inner| - 1] == Done
    {
      if checked || !streaming {
        return err;
      }
      checked := true;
      Decide();
      if err.Some? {
        inner := inner + [if errorFrame.Some? then Passed(errorFrame.value) else Failure(err.value)];
      } else {
        var chat := env.aggregate(raw).value;
        FinishIs(chat);
        inner := inner + [Data(TerminalFrame(chat))];
        SendUsages();
      }
      inner := inner + [Done];
      failure := err;
      hide Validate, TerminalFrame, FinishFrame, Usages;
    }
  }

  lemma UsagesNext(frames: seq<Frame>, k: nat)
    requires k < |frames|
    ensures Usages(frames[..k + 1]) == Usages(frames[..k]) + [Data(frames[k])]
  {
  }

  // ---- The buffer is only read between frames ----

  lemma BufferUnread(env: Env, s: Held, raw: string, buffer: string)
    ensures Inspect(env, s.(buffer := buffer), raw) == Inspect(env, s, raw).(buffer := buffer)
  {
  }

  lemma {:induction false} DrainBuffer(env: Env, s: Held, buffer: string, b: string)
    ensures Drain(env, s.(buffer := buffer), b) == Drain(env, s, b)
    decreases |b|
  {
    hide Inspect;
    var i := FrameEnd(b, 0);
    if i < |b| {
      BufferUnread(env, s, b[..i + 2], buffer);
      DrainBuffer(env, Inspect(env, s, b[..i + 2]), buffer, b[i + 2..]);
    }
  }

  lemma DrainStep(env: Env, s: Held, b: string)
    ensures var i := FrameEnd(b, 0);
            if i == |b| then Drain(env, s, b) == s.(buffer := b)
            else Drain(env, s, b) == Drain(env, Inspect(env, s.(buffer := b[i + 2..]), b[..i + 2]), b[i + 2..])
  {
    var i := FrameEnd(b, 0);
    hide Inspect;
    if i < |b| {
      BufferUnread(env, s, b[..i + 2], b[i + 2..]);
      DrainBuffer(env, Inspect(env, s, b[..i + 2]), b[i + 2..], b[i + 2..]);
    }
  }
}
