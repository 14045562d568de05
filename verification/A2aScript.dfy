/** What a stream emits, read off its inputs from the first one on: the counterpart, in one
    pass, of the step machine of module A2aStream. */
module A2aScript {
  import opened Options
  import opened A2aStream

  /** Inputs that a stream does not wait for are passed over. */
  function FromFinding(inputs: seq<Input>): seq<Event> {
    if inputs == [] then []
    else match inputs[0]
      case Found(ok) => if ok then FromCreating(inputs[1..]) else [StatusUpdate(Failed, true)]
      case _ => FromFinding(inputs[1..])
  }

  function FromCreating(inputs: seq<Input>): seq<Event> {
    if inputs == [] then []
    else match inputs[0]
      case Created(ok) =>
        if ok then [StatusUpdate(Working, false)] + FromConnecting(inputs[1..]) else [StatusUpdate(Failed, true)]
      case _ => FromCreating(inputs[1..])
  }

  function FromConnecting(inputs: seq<Input>): seq<Event> {
    if inputs == [] then []
    else match inputs[0]
      case Connected(ok) => if ok then FromRunning(inputs[1..], true) else FromUnavailable(inputs[1..])
      case _ => FromConnecting(inputs[1..])
  }

  /** Whether or not the write of the trace throws. */
  function FromUnavailable(inputs: seq<Input>): seq<Event> {
    if inputs == [] then []
    else match inputs[0]
      case TraceWritten(_) => [StatusUpdate(Failed, true)]
      case _ => FromUnavailable(inputs[1..])
  }

  /** Chunks of this request, all but the first appended, until a cancel or the answer. */
  function FromRunning(inputs: seq<Input>, first: bool): seq<Event> {
    if inputs == [] then []
    else match inputs[0]
      case Chunk(mine, text) =>
        if mine then [ArtifactUpdate(text, !first, false)] + FromRunning(inputs[1..], false)
        else FromRunning(inputs[1..], first)
      case Cancel => [StatusUpdate(Canceled, true)]
      case Answered(answer) => Conclusion(answer) + FromClosing(inputs[1..], if answer.Threw? then 1 else 2)
      case _ => FromRunning(inputs[1..], first)
  }

  /** An output is delivered whole, and completes the task; anything else fails it. */
  function Conclusion(answer: Answer): seq<Event> {
    if answer.Output? && answer.text != ""
    then [ArtifactUpdate(answer.text, false, true), StatusUpdate(Completed, true)]
    else [StatusUpdate(Failed, true)]
  }

  /** One more failure for each write of the trace that throws, the second of which ends the
      stream. */
  function FromClosing(inputs: seq<Input>, left: nat): seq<Event> {
    if inputs == [] || left == 0 then []
    else match inputs[0]
      case TraceWritten(ok) => if ok then [] else [StatusUpdate(Failed, true)] + FromClosing(inputs[1..], left - 1)
      case _ => FromClosing(inputs[1..], left)
  }

  // ---- The machine emits the script ---------------------------------------------------------

  lemma {:induction false} AfterFirst(s: Stream, inputs: seq<Input>)
    requires inputs != []
    ensures After(s, inputs) == After(Next(s, inputs[0]), inputs[1..])
  {
    var init := inputs[..|inputs| - 1];
    if init == [] {
      assert After(s, init) == s;
    } else {
      AfterFirst(s, init);
      assert inputs[1..][..|inputs| - 2] == init[1..];
    }
  }

  ghost predicate Emits(s: Stream, inputs: seq<Input>, events: seq<Event>) {
    After(s, inputs).emitted == s.emitted + events
  }

  /** One input that adds these events to those that follow. */
  lemma EmitsMore(s: Stream, inputs: seq<Input>, now: seq<Event>, later: seq<Event>)
    requires inputs != [] && Next(s, inputs[0]).emitted == s.emitted + now
    requires Emits(Next(s, inputs[0]), inputs[1..], later)
    ensures Emits(s, inputs, now + later)
  {
    AfterFirst(s, inputs);
    assert s.emitted + now + later == s.emitted + (now + later);
  }

  lemma EmitsAfter(s: Stream, inputs: seq<Input>, later: seq<Event>)
    requires inputs != [] && Next(s, inputs[0]).emitted == s.emitted
    requires Emits(Next(s, inputs[0]), inputs[1..], later)
    ensures Emits(s, inputs, later)
  {
    AfterFirst(s, inputs);
  }

  lemma EmitsLast(s: Stream, inputs: seq<Input>, now: seq<Event>)
    requires inputs != [] && Next(s, inputs[0]).emitted == s.emitted + now && Next(s, inputs[0]).stopped
    ensures Emits(s, inputs, now)
  {
    AfterFirst(s, inputs);
    StoppedStays(Next(s, inputs[0]), inputs[1..]);
  }

  lemma {:induction false} ClosingEmits(s: Stream, inputs: seq<Input>, left: nat)
    requires !s.stopped && !s.listening && !s.active
    requires (left == 2 && s.pc.Closing?) || (left == 1 && s.pc.ClosingFailed?)
    ensures Emits(s, inputs, FromClosing(inputs, left))
    decreases |inputs|
  {
    if inputs != [] {
      if inputs[0] == TraceWritten(true) {
        EmitsLast(s, inputs, []);
      } else if inputs[0] == TraceWritten(false) {
        if left == 1 {
          EmitsLast(s, inputs, [StatusUpdate(Failed, true)]);
          assert FromClosing(inputs, 1) == [StatusUpdate(Failed, true)] + FromClosing(inputs[1..], 0);
        } else {
          ClosingEmits(Next(s, inputs[0]), inputs[1..], 1);
          EmitsMore(s, inputs, [StatusUpdate(Failed, true)], FromClosing(inputs[1..], 1));
        }
      } else {
        ClosingEmits(Next(s, inputs[0]), inputs[1..], left);
        EmitsAfter(s, inputs, FromClosing(inputs[1..], left));
      }
    }
  }

  lemma AnswerEmits(s: Stream, answer: Answer)
    requires s.pc.Running? && !s.stopped
    ensures var t := Next(s, Answered(answer));
            && t.emitted == s.emitted + Conclusion(answer)
            && !t.stopped && !t.listening && !t.active
            && (if answer.Threw? then t.pc.ClosingFailed? else t.pc.Closing?)
  {
  }

  lemma {:induction false} RunningEmits(s: Stream, inputs: seq<Input>)
    requires s.pc.Running? && !s.stopped && s.listening && s.active
    ensures Emits(s, inputs, FromRunning(inputs, s.chunks == []))
    decreases |inputs|
  {
    if inputs != [] {
      var t, rest := Next(s, inputs[0]), inputs[1..];
      match inputs[0]
      case Chunk(mine, text) =>
        RunningEmits(t, rest);
        if mine {
          EmitsMore(s, inputs, [ArtifactUpdate(text, s.chunks != [], false)], FromRunning(rest, false));
        } else {
          EmitsAfter(s, inputs, FromRunning(rest, s.chunks == []));
        }
      case Cancel =>
        EmitsLast(s, inputs, [StatusUpdate(Canceled, true)]);
      case Answered(answer) =>
        AnswerEmits(s, answer);
        ClosingEmits(t, rest, if answer.Threw? then 1 else 2);
        EmitsMore(s, inputs, Conclusion(answer), FromClosing(rest, if answer.Threw? then 1 else 2));
      case _ =>
        RunningEmits(t, rest);
        EmitsAfter(s, inputs, FromRunning(rest, s.chunks == []));
    }
  }

  predicate Quiet(s: Stream) {
    !s.stopped && !s.listening && !s.active && s.chunks == []
  }

  lemma {:induction false} UnavailableEmits(s: Stream, inputs: seq<Input>)
    requires s.pc.FailingUnavailable? && Quiet(s)
    ensures Emits(s, inputs, FromUnavailable(inputs))
    decreases |inputs|
  {
    if inputs != [] {
      if inputs[0].TraceWritten? {
        EmitsLast(s, inputs, [StatusUpdate(Failed, true)]);
      } else {
        UnavailableEmits(Next(s, inputs[0]), inputs[1..]);
        EmitsAfter(s, inputs, FromUnavailable(inputs[1..]));
      }
    }
  }

  lemma {:induction false} ConnectingEmits(s: Stream, inputs: seq<Input>)
    requires s.pc.Connecting? && Quiet(s)
    ensures Emits(s, inputs, FromConnecting(inputs))
    decreases |inputs|
  {
    if inputs != [] {
      var t, rest := Next(s, inputs[0]), inputs[1..];
      if inputs[0] == Connected(true) {
        RunningEmits(t, rest);
        EmitsAfter(s, inputs, FromRunning(rest, true));
      } else if inputs[0] == Connected(false) {
        UnavailableEmits(t, rest);
        EmitsAfter(s, inputs, FromUnavailable(rest));
      } else {
        ConnectingEmits(t, rest);
        EmitsAfter(s, inputs, FromConnecting(rest));
      }
    }
  }

  lemma {:induction false} CreatingEmits(s: Stream, inputs: seq<Input>)
    requires s.pc.Creating? && Quiet(s)
    ensures Emits(s, inputs, FromCreating(inputs))
    decreases |inputs|
  {
    if inputs != [] {
      var t, rest := Next(s, inputs[0]), inputs[1..];
      if inputs[0] == Created(true) {
        ConnectingEmits(t, rest);
        EmitsMore(s, inputs, [StatusUpdate(Working, false)], FromConnecting(rest));
      } else if inputs[0] == Created(false) {
        EmitsLast(s, inputs, [StatusUpdate(Failed, true)]);
      } else {
        CreatingEmits(t, rest);
        EmitsAfter(s, inputs, FromCreating(rest));
      }
    }
  }

  lemma {:induction false} FindingEmits(s: Stream, inputs: seq<Input>)
    requires s.pc.Finding? && Quiet(s)
    ensures Emits(s, inputs, FromFinding(inputs))
    decreases |inputs|
  {
    if inputs != [] {
      var t, rest := Next(s, inputs[0]), inputs[1..];
      if inputs[0] == Found(true) {
        CreatingEmits(t, rest);
        EmitsAfter(s, inputs, FromCreating(rest));
      } else if inputs[0] == Found(false) {
        EmitsLast(s, inputs, [StatusUpdate(Failed, true)]);
      } else {
        FindingEmits(t, rest);
        EmitsAfter(s, inputs, FromFinding(rest));
      }
    }
  }

  /** Every stream, over or not, has emitted exactly what its inputs say. */
  lemma {:induction false} EmitsScript(inputs: seq<Input>)
    ensures After(FRESH, inputs).emitted == FromFinding(inputs)
  {
    FindingEmits(FRESH, inputs);
    assert FRESH.emitted + FromFinding(inputs) == FromFinding(inputs);
  }

  // ---- What a stream comes to -----------------------------------------------------------------

  /** The answer of the agent: the first after the bot was found, the trace created and the
      gateway connected, in this order. */
  function TheAnswer(inputs: seq<Input>, phase: nat): Option<Answer> {
    if inputs == [] then None
    else
      var i, rest := inputs[0], inputs[1..];
      if phase == 0 && i.Found? then if i.ok then TheAnswer(rest, 1) else None
      else if phase == 1 && i.Created? then if i.ok then TheAnswer(rest, 2) else None
      else if phase == 2 && i.Connected? then if i.ok then TheAnswer(rest, 3) else None
      else if phase == 3 && i.Answered? then Some(i.answer)
      else TheAnswer(rest, phase)
  }

  predicate Delivers(answer: Option<Answer>) {
    answer.Some? && answer.value.Output? && answer.value.text != ""
  }

  /** A non-empty output comes whole before the final "completed"; without one the final
      event is "failed". */
  predicate Comes(events: seq<Event>, answer: Option<Answer>) {
    var n := |events|;
    if Delivers(answer)
    then n >= 2 && events[n - 2] == ArtifactUpdate(answer.value.text, false, true)
         && events[n - 1] == StatusUpdate(Completed, true)
    else EndsFinal(events) ==> events[n - 1] == StatusUpdate(Failed, true)
  }

  /** Neither canceled nor with a write of the trace that throws. */
  predicate Smooth(inputs: seq<Input>) {
    Cancel !in inputs && TraceWritten(false) !in inputs
  }

  lemma SmoothRest(inputs: seq<Input>)
    requires inputs != [] && Smooth(inputs)
    ensures Smooth(inputs[1..]) && inputs[0] != Cancel && inputs[0] != TraceWritten(false)
  {
    assert inputs[0] in inputs;
  }

  lemma ComesAfter(now: Event, later: seq<Event>, answer: Option<Answer>)
    requires Comes(later, answer) && !Final(now)
    ensures Comes([now] + later, answer)
  {
  }

  lemma {:induction false} ClosingSilent(inputs: seq<Input>, left: nat)
    requires Smooth(inputs)
    ensures FromClosing(inputs, left) == []
  {
    if inputs != [] {
      SmoothRest(inputs);
      ClosingSilent(inputs[1..], left);
    }
  }

  lemma {:induction false} RunningComes(inputs: seq<Input>, first: bool)
    requires Smooth(inputs)
    ensures Comes(FromRunning(inputs, first), TheAnswer(inputs, 3))
  {
    if inputs != [] {
      SmoothRest(inputs);
      var i, rest := inputs[0], inputs[1..];
      if i.Answered? {
        ClosingSilent(rest, if i.answer.Threw? then 1 else 2);
        assert FromRunning(inputs, first) == Conclusion(i.answer);
      } else if i.Chunk? && i.mine {
        RunningComes(rest, false);
        ComesAfter(ArtifactUpdate(i.text, !first, false), FromRunning(rest, false), TheAnswer(rest, 3));
      } else {
        RunningComes(rest, first);
      }
    }
  }

  lemma {:induction false} UnavailableComes(inputs: seq<Input>)
    ensures Comes(FromUnavailable(inputs), None)
  {
    if inputs != [] {
      UnavailableComes(inputs[1..]);
    }
  }

  lemma {:induction false} ConnectingComes(inputs: seq<Input>)
    requires Smooth(inputs)
    ensures Comes(FromConnecting(inputs), TheAnswer(inputs, 2))
  {
    if inputs != [] {
      SmoothRest(inputs);
      if inputs[0] == Connected(true) {
        RunningComes(inputs[1..], true);
      } else if inputs[0] == Connected(false) {
        UnavailableComes(inputs[1..]);
      } else {
        ConnectingComes(inputs[1..]);
      }
    }
  }

  lemma {:induction false} CreatingComes(inputs: seq<Input>)
    requires Smooth(inputs)
    ensures Comes(FromCreating(inputs), TheAnswer(inputs, 1))
  {
    if inputs != [] {
      SmoothRest(inputs);
      if inputs[0] == Created(true) {
        ConnectingComes(inputs[1..]);
        ComesAfter(StatusUpdate(Working, false), FromConnecting(inputs[1..]), TheAnswer(inputs[1..], 2));
      } else if !inputs[0].Created? {
        CreatingComes(inputs[1..]);
      }
    }
  }

  lemma {:induction false} FindingComes(inputs: seq<Input>)
    requires Smooth(inputs)
    ensures Comes(FromFinding(inputs), TheAnswer(inputs, 0))
  {
    if inputs != [] {
      SmoothRest(inputs);
      if inputs[0] == Found(true) {
        CreatingComes(inputs[1..]);
      } else if !inputs[0].Found? {
        FindingComes(inputs[1..]);
      }
    }
  }

  /** A stream that is over, was not canceled and had all writes of its trace: it ends with
      "completed" if and only if the agent answered with an output that is not empty, which
      has come whole in the event before; otherwise it ends with "failed". */
  lemma {:induction false} CompletedExactly(inputs: seq<Input>)
    requires After(FRESH, inputs).pc.Over? && Smooth(inputs)
    ensures var es, answer := After(FRESH, inputs).emitted, TheAnswer(inputs, 0);
            var n := |es|;
            && n > 0
            && (es[n - 1] == StatusUpdate(Completed, true)
                <==> answer.Some? && answer.value.Output? && answer.value.text != "")
            && (es[n - 1] == StatusUpdate(Completed, true) ==>
                  n >= 2 && es[n - 2] == ArtifactUpdate(answer.value.text, false, true))
            && (es[n - 1] != StatusUpdate(Completed, true) ==> es[n - 1] == StatusUpdate(Failed, true))
  {
    OneFinalEvent(inputs);
    EmitsScript(inputs);
    FindingComes(inputs);
  }
}
