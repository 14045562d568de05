/** The streaming code itself, with its awaits, its catch blocks and what may come
    between, proved to take exactly the steps of module A2aStream. */
module A2aStreaming {
  import opened A2aStream
  import A2aScript
  import opened Basics

  ghost predicate Legit(inputs: seq<Input>, s: Stream) {
    forall x {:trigger Unfold(x)} :: Unfold(x) && x == s ==> After(FRESH, inputs) == s
  }

  lemma LegitNext(inputs: seq<Input>, s: Stream, i: Input)
    requires Legit(inputs, s)
    ensures Legit(inputs + [i], Next(s, i))
  {
    assert Unfold(s);
    assert (inputs + [i])[..|inputs|] == inputs;
  }

  class A2aStreamingService {
    var emitted: seq<Event>
    var stopped: bool
    var listening: bool
    var active: bool
    var chunkSeq: nat
    // The stream that a call of `StreamMessage` is, and what it has been given so far
    ghost var stream: Stream
    ghost var inputs: seq<Input>

    constructor ()
      ensures Tracks() && stream == FRESH && inputs == []
    {
      emitted, stopped, listening, active, chunkSeq := [], false, false, false, 0;
      stream, inputs := FRESH, [];
    }

    ghost predicate Tracks()
      reads this
    {
      && Legit(inputs, stream)
      && emitted == stream.emitted && stopped == stream.stopped
      && listening == stream.listening && active == stream.active && chunkSeq == |stream.chunks|
    }

    /** `subject.next`. */
    method Push(e: Event)
      modifies this`emitted
      ensures emitted == if stopped then old(emitted) else old(emitted) + [e]
    {
      if !stopped {
        emitted := emitted + [e];
      }
    }

    ghost method Given(i: Input)
      requires Legit(inputs, stream)
      modifies this`stream, this`inputs
      ensures stream == Next(old(stream), i) && Legit(inputs, stream)
    {
      LegitNext(inputs, stream, i);
      stream, inputs := Next(stream, i), inputs + [i];
    }

    method OnAgentOutput(mine: bool, text: string)
      requires Tracks()
      modifies this
      ensures Tracks() && stream == Next(old(stream), Chunk(mine, text))
    {
      Given(Chunk(mine, text));
      if !listening || !mine { return; }
      chunkSeq := chunkSeq + 1;
      Push(ArtifactUpdate(text, chunkSeq > 1, false));
    }

    /** False if the stream is not active: not found, or over. */
    method CancelTask() returns (canceled: bool)
      requires Tracks()
      modifies this
      ensures Tracks() && stream == Next(old(stream), Cancel) && canceled == old(active)
    {
      Given(Cancel);
      canceled := active;
      if !active { return; }
      listening := false;
      Push(StatusUpdate(Canceled, true));
      stopped, active := true, false;
    }

    /** Until an await is answered, chunks and cancels may come. */
    method Meanwhile()
      requires Tracks()
      modifies this
      ensures Tracks() && stream.pc == old(stream).pc
    {
      var times: int := *;
      while times > 0
        invariant Tracks() && stream.pc == old(stream).pc
      {
        var cancels: bool, mine: bool, text: string := *, *, *;
        if cancels {
          var _ := CancelTask();
        } else {
          OnAgentOutput(mine, text);
        }
        times := times - 1;
      }
    }

    /** Find the bot, create the trace, and connect; `ready` if the agent may be called.
        A throw is left to the catch of `StreamMessage`, with the answer that caused it. */
    method Open() returns (ready: bool, threw: bool, ghost cause: Input)
      requires Tracks() && stream == FRESH
      modifies this
      ensures Tracks()
      ensures ready ==> stream.pc.Running? && !threw
      ensures threw ==> Next(stream, cause) == Reject(stream)
      ensures !ready && !threw ==> stream.pc.Over?
    {
      ready, threw, cause := false, true, Found(false);
      Meanwhile();
      var found: bool := *;
      if !found { return; }
      Given(Found(true));
      Meanwhile();
      var created: bool := *;
      if !created {
        cause := Created(false);
        return;
      }
      Given(Created(true));
      Push(StatusUpdate(Working, false));
      ready, threw, cause := Connect();
    }

    method Connect() returns (ready: bool, threw: bool, ghost cause: Input)
      requires Tracks() && stream.pc.Connecting?
      modifies this
      ensures Tracks()
      ensures ready ==> stream.pc.Running? && !threw
      ensures threw ==> Next(stream, cause) == Reject(stream)
      ensures !ready && !threw ==> stream.pc.Over?
    {
      cause := TraceWritten(false);
      threw := false;
      Meanwhile();
      ready := *;
      Given(Connected(ready));
      if ready {
        listening, active := true, true;
      } else {
        threw := GiveUp();
      }
    }

    /** Without a gateway: note it in the trace, then say so. */
    method GiveUp() returns (threw: bool)
      requires Tracks() && stream.pc.FailingUnavailable?
      modifies this
      ensures Tracks() && if threw then stream.pc.FailingUnavailable? else stream.pc.Over?
    {
      Meanwhile();
      threw := *;
      if !threw {
        Given(TraceWritten(true));
        Push(StatusUpdate(Failed, true));
        stopped := true;
      }
    }

    /** The agent call with its try and catch, up to `subject.complete`. */
    method RunAgent() returns (threw: bool, ghost cause: Input)
      requires Tracks() && stream.pc.Running?
      modifies this
      ensures Tracks()
      ensures if threw then stream.pc.ClosingFailed? && cause == TraceWritten(false) else stream.pc.Over?
    {
      cause := TraceWritten(false);
      Meanwhile();
      var answer: Answer := *;
      Given(Answered(answer));
      listening, active := false, false;
      var caught := answer.Threw?;
      if !caught {
        if answer.Output? && answer.text != "" {
          Push(ArtifactUpdate(answer.text, false, true));
          Push(StatusUpdate(Completed, true));
        } else {
          Push(StatusUpdate(Failed, true));
        }
        caught := Write();
      } else {
        Push(StatusUpdate(Failed, true));
      }
      threw := false;
      if caught {
        threw := WriteFailure();
      }
    }

    method WriteFailure() returns (threw: bool)
      requires Tracks() && stream.pc.ClosingFailed?
      modifies this
      ensures Tracks() && if threw then stream.pc.ClosingFailed? else stream.pc.Over?
    {
      Meanwhile();
      threw := *;
      if !threw {
        Given(TraceWritten(true));
        stopped := true;
      }
    }

    /** The trace is written; if that throws, the catch block says "failed" once more. */
    method Write() returns (threw: bool)
      requires Tracks() && stream.pc.Closing?
      modifies this
      ensures Tracks() && if threw then stream.pc.ClosingFailed? else stream.pc.Over?
    {
      Meanwhile();
      threw := *;
      Given(TraceWritten(!threw));
      if threw {
        Push(StatusUpdate(Failed, true));
      } else {
        stopped := true;
      }
    }

    /** A whole stream, to its end: what it has emitted is what the machine emits for the
        inputs it was given. */
    method StreamMessage()
      requires Tracks() && stream == FRESH && inputs == []
      modifies this
      ensures After(FRESH, inputs) == stream && stream.pc.Over?
      ensures emitted == stream.emitted && stopped && EndsFinal(emitted)
      ensures TraceWritten(false) !in inputs ==> Finals(emitted) == 1
      ensures emitted == A2aScript.FromFinding(inputs)
    {
      var ready, threw;
      ghost var cause;
      ready, threw, cause := Open();
      if ready {
        threw, cause := RunAgent();
      }
      if threw {
        // catch
        Given(cause);
        Push(StatusUpdate(Failed, true));
        stopped := true;
      }
      assert Unfold(stream);
      OneFinalEvent(inputs);
      A2aScript.EmitsScript(inputs);
      if TraceWritten(false) !in inputs { OneFinalIfTracesWritten(inputs); }
    }
  }
}
