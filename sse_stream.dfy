/** The server-sent-event framing done by `generate()` inside the RAG query
    handler: every token the chain streams becomes one `data: {"token": …}`
    frame; a stream that ends normally is closed by one `data: [DONE]` frame,
    and a stream that raises is closed by one `data: {"error": …}` frame. */
module SseStream {
  import opened Wrappers

  /** How an external step ended: normally, or by raising an exception whose
      `str()` is `description`. */
  datatype Outcome = Completed | Raised(description: string)

  /** What `chain.astream(question)` produced: the tokens it yielded, in
      order, and how it ended after the last of them. */
  datatype StreamRun = StreamRun(tokens: seq<string>, outcome: Outcome)

  /** One wire frame. */
  datatype Frame = TokenFrame(token: string) | DoneFrame | ErrorFrame(error: string)

  /** The states of one response stream. */
  datatype Phase = Init | Streaming | Done | Errored

  /** One token frame per token, in the same order. */
  function TokenFrames(tokens: seq<string>): (r: seq<Frame>)
    ensures |r| == |tokens|
    ensures forall i :: 0 <= i < |tokens| ==> r[i] == TokenFrame(tokens[i])
  {
    if tokens == [] then [] else [TokenFrame(tokens[0])] + TokenFrames(tokens[1..])
  }

  /** The frame that closes a stream with the given outcome. */
  function Closing(o: Outcome): Frame
  {
    match o
    case Completed => DoneFrame
    case Raised(d) => ErrorFrame(d)
  }

  /** The phase a stream with the given outcome ends in. */
  function FinalPhase(o: Outcome): Phase
  {
    if o.Completed? then Done else Errored
  }

  /** The frames `generate()` yields for one run of the chain. */
  function Frames(run: StreamRun): seq<Frame>
  {
    TokenFrames(run.tokens) + [Closing(run.outcome)]
  }

  /** `generate()` itself: the `async for` over the chain's tokens, then the
      sentinel, or the error frame if the stream raised. */
  method Generate(run: StreamRun) returns (frames: seq<Frame>)
    ensures frames == Frames(run)
  {
    frames := [];
    var i := 0;
    while i < |run.tokens|
      invariant 0 <= i <= |run.tokens|
      invariant |frames| == i
      invariant forall k :: 0 <= k < i ==> frames[k] == TokenFrame(run.tokens[k])
    {
      frames := frames + [TokenFrame(run.tokens[i])];
      i := i + 1;
    }
    match run.outcome {
      case Completed =>
        frames := frames + [DoneFrame];
      case Raised(d) =>
        frames := frames + [ErrorFrame(d)];
    }
  }

  /** The shape of a response: every frame but the last carries a token, the
      tokens are the run's tokens in order, and the last frame is `[DONE]`
      exactly when the run completed and an error frame carrying the
      exception's text exactly when it raised. */
  lemma FramesShape(run: StreamRun)
    ensures |Frames(run)| == |run.tokens| + 1
    ensures forall i :: 0 <= i < |run.tokens| ==> Frames(run)[i] == TokenFrame(run.tokens[i])
    ensures Frames(run)[|run.tokens|] == DoneFrame <==> run.outcome.Completed?
    ensures run.outcome.Raised? ==> Frames(run)[|run.tokens|] == ErrorFrame(run.outcome.description)
  {
  }

  /** `[DONE]` and an error frame never appear in the same response: `[DONE]`
      appears exactly when the run completed, an error frame exactly when it
      raised. */
  lemma DoneAndErrorExclusive(run: StreamRun)
    ensures DoneFrame in Frames(run) <==> run.outcome.Completed?
    ensures (exists i :: 0 <= i < |Frames(run)| && Frames(run)[i].ErrorFrame?) <==> run.outcome.Raised?
  {
    var r := Frames(run);
    var n := |run.tokens|;
    if run.outcome.Raised? {
      assert r[n].ErrorFrame?;
    } else {
      assert r[n] == DoneFrame;
      forall i | 0 <= i < |r| ensures !r[i].ErrorFrame? {
        if i < n { assert r[i] == TokenFrame(run.tokens[i]); }
      }
    }
    if run.outcome.Raised? {
      forall i | 0 <= i < |r| ensures r[i] != DoneFrame {
        if i < n { assert r[i] == TokenFrame(run.tokens[i]); }
      }
    }
  }

  /** How many closing frames (`[DONE]` or error) a frame sequence holds. */
  function CountClosing(frames: seq<Frame>): nat
  {
    if frames == [] then 0
    else (if frames[0].TokenFrame? then 0 else 1) + CountClosing(frames[1..])
  }

  lemma {:induction false} CountClosingTokens(tokens: seq<string>)
    ensures CountClosing(TokenFrames(tokens)) == 0
  {
    if tokens != [] {
      CountClosingTokens(tokens[1..]);
      assert TokenFrames(tokens)[1..] == TokenFrames(tokens[1..]);
    }
  }

  lemma {:induction false} CountClosingAppend(a: seq<Frame>, b: seq<Frame>)
    ensures CountClosing(a + b) == CountClosing(a) + CountClosing(b)
  {
    if a != [] {
      CountClosingAppend(a[1..], b);
      assert (a + b)[1..] == a[1..] + b;
    } else {
      assert a + b == b;
    }
  }

  /** Exactly one closing frame, whatever the tokens and the outcome. */
  lemma ExactlyOneClosing(run: StreamRun)
    ensures CountClosing(Frames(run)) == 1
  {
    CountClosingAppend(TokenFrames(run.tokens), [Closing(run.outcome)]);
    CountClosingTokens(run.tokens);
    assert CountClosing([Closing(run.outcome)]) == 1 by {
      assert [Closing(run.outcome)][1..] == [];
    }
  }

  /** The client's reading of a response: token frames up to a closing frame
      that must be the last one. `None` for a response that closes without a
      sentinel or has frames after it. */
  function Decode(frames: seq<Frame>): Option<StreamRun>
  {
    if frames == [] then None
    else match frames[0]
      case DoneFrame => if |frames| == 1 then Some(StreamRun([], Completed)) else None
      case ErrorFrame(d) => if |frames| == 1 then Some(StreamRun([], Raised(d))) else None
      case TokenFrame(t) =>
        match Decode(frames[1..])
        case None => None
        case Some(rest) => Some(StreamRun([t] + rest.tokens, rest.outcome))
  }

  /** Reading back a response recovers exactly the tokens and the outcome of
      the run that produced it. */
  lemma {:induction false} DecodeFrames(run: StreamRun)
    ensures Decode(Frames(run)) == Some(run)
    decreases |run.tokens|
  {
    var r := Frames(run);
    if run.tokens == [] {
      assert r == [Closing(run.outcome)];
    } else {
      var tail := StreamRun(run.tokens[1..], run.outcome);
      DecodeFrames(tail);
      assert r[0] == TokenFrame(run.tokens[0]);
      assert r[1..] == Frames(tail);
      assert [run.tokens[0]] + run.tokens[1..] == run.tokens;
    }
  }

  /** Conversely, every response a client accepts is the framing of the run
      it reads back: no other frame sequence decodes. */
  lemma {:induction false} DecodeOnlyFrames(frames: seq<Frame>, run: StreamRun)
    requires Decode(frames) == Some(run)
    ensures frames == Frames(run)
  {
    match frames[0]
    case DoneFrame =>
      assert frames == [DoneFrame];
    case ErrorFrame(d) =>
      assert frames == [ErrorFrame(d)];
    case TokenFrame(t) =>
      var rest := Decode(frames[1..]).value;
      DecodeOnlyFrames(frames[1..], rest);
      assert run.tokens == [t] + rest.tokens;
      assert run.tokens[1..] == rest.tokens;
      assert frames == [frames[0]] + frames[1..];
  }

  /** The state machine `INIT -> STREAMING -> DONE | ERRORED`: the phase after
      one more frame, or `None` when a frame follows a closing one. */
  function Next(p: Phase, f: Frame): Option<Phase>
  {
    if p == Done || p == Errored then None
    else match f
      case TokenFrame(_) => Some(Streaming)
      case DoneFrame => Some(Done)
      case ErrorFrame(_) => Some(Errored)
  }

  /** The machine run over a frame sequence from `Init`. */
  function Replay(frames: seq<Frame>): Option<Phase>
  {
    if frames == [] then Some(Init)
    else match Replay(frames[..|frames| - 1])
      case None => None
      case Some(p) => Next(p, frames[|frames| - 1])
  }

  /** Every prefix of a response is a legal run of the machine: nothing has
      been sent before the first frame, the stream is STREAMING while tokens
      arrive, and only the full response reaches DONE (normal end) or
      ERRORED (exception). */
  lemma {:induction false} ReplayPrefixes(run: StreamRun, k: nat)
    requires k <= |Frames(run)|
    ensures Replay(Frames(run)[..k]) ==
              Some(if k == 0 then Init
                   else if k <= |run.tokens| then Streaming
                   else FinalPhase(run.outcome))
  {
    var r := Frames(run);
    if k > 0 {
      ReplayPrefixes(run, k - 1);
      assert r[..k][..k - 1] == r[..k - 1];
      assert r[..k][k - 1] == r[k - 1];
    }
  }

  /** The response as a whole ends in the phase of the run's outcome. */
  lemma ReplayFrames(run: StreamRun)
    ensures Replay(Frames(run)) == Some(FinalPhase(run.outcome))
  {
    ReplayPrefixes(run, |Frames(run)|);
    assert Frames(run)[..|Frames(run)|] == Frames(run);
  }

  /** The JSON objects `json.dumps` is asked to encode. */
  datatype JsonObject = TokenObject(token: string) | ErrorObject(error: string)

  /** The text of one frame on the wire, given an encoder for the JSON
      objects (`json.dumps`, whose escaping is not modelled). */
  function Wire(f: Frame, dumps: JsonObject -> string): string
  {
    match f
    case TokenFrame(t) => "data: " + dumps(TokenObject(t)) + "\n\n"
    case DoneFrame => "data: [DONE]\n\n"
    case ErrorFrame(e) => "data: " + dumps(ErrorObject(e)) + "\n\n"
  }

  /** Since `json.dumps` of a dict always starts with `{`, no token or error
      frame can be mistaken for the `[DONE]` sentinel on the wire. */
  lemma SentinelUnambiguous(f: Frame, dumps: JsonObject -> string)
    requires forall o :: |dumps(o)| > 0 && dumps(o)[0] == '{'
    requires f != DoneFrame
    ensures Wire(f, dumps) != Wire(DoneFrame, dumps)
  {
    match f
    case TokenFrame(t) =>
      assert Wire(f, dumps)[6] == dumps(TokenObject(t))[0];
    case ErrorFrame(e) =>
      assert Wire(f, dumps)[6] == dumps(ErrorObject(e))[0];
  }
}
