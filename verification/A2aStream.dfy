/** One A2A message stream: `streamMessage`, `startStream` and `cancelTask` of
    apps/api/src/a2a/a2a-streaming.service.ts. */
module A2aStream {
  import opened Basics

  datatype TaskState = Working | Completed | Failed | Canceled

  /** The events of A2A Protocol v0.2, sections 7.2.2 and 7.2.3. */
  datatype Event =
    | StatusUpdate(state: TaskState, final: bool)
    | ArtifactUpdate(text: string, append: bool, lastChunk: bool)

  /** What the agent call ends with. */
  datatype Answer = Output(text: string) | NoOutput | Threw

  /** Where `startStream` waits. */
  datatype Pc = Finding | Creating | Connecting | FailingUnavailable | Running | Closing | ClosingFailed | Over

  /** `emitted` is what the subject has passed on; `stopped` means it is complete and
      passes nothing more.  `listening` and `active` say whether chunks are taken and
      whether it can be canceled; `chunks` are those taken. */
  datatype Stream = Stream(pc: Pc, emitted: seq<Event>, stopped: bool, listening: bool, active: bool,
                           chunks: seq<string>, answer: Answer)

  const FRESH := Stream(Finding, [], false, false, false, [], NoOutput)

  /** Answers to awaits, chunks of this request or another, and cancels. */
  datatype Input =
    | Found(ok: bool) | Created(ok: bool) | Connected(ok: bool) | TraceWritten(ok: bool)
    | Answered(answer: Answer)
    | Chunk(mine: bool, text: string)
    | Cancel

  function Emit(s: Stream, e: Event): Stream {
    if s.stopped then s else s.(emitted := s.emitted + [e])
  }

  /** The catch of `streamMessage`. */
  function Reject(s: Stream): Stream {
    Emit(s, StatusUpdate(Failed, true)).(stopped := true, pc := Over)
  }

  function Complete(s: Stream): Stream {
    s.(stopped := true, pc := Over)
  }

  /** The agent has answered: the full output again and "completed", or "failed". */
  function Close(s: Stream, answer: Answer): Stream {
    var t := s.(listening := false, active := false, answer := answer);
    match answer
    case Output(text) =>
      if text != "" then
        Emit(Emit(t, ArtifactUpdate(text, false, true)), StatusUpdate(Completed, true)).(pc := Closing)
      else Emit(t, StatusUpdate(Failed, true)).(pc := Closing)
    case NoOutput => Emit(t, StatusUpdate(Failed, true)).(pc := Closing)
    case Threw => Emit(t, StatusUpdate(Failed, true)).(pc := ClosingFailed)
  }

  function Next(s: Stream, i: Input): Stream {
    match i
    case Found(ok) =>
      if !s.pc.Finding? then s else if ok then s.(pc := Creating) else Reject(s)
    case Created(ok) =>
      if !s.pc.Creating? then s
      else if ok then Emit(s, StatusUpdate(Working, false)).(pc := Connecting) else Reject(s)
    case Connected(ok) =>
      if !s.pc.Connecting? then s
      else if ok then s.(pc := Running, listening := true, active := true) else s.(pc := FailingUnavailable)
    case TraceWritten(ok) =>
      (match s.pc
       case FailingUnavailable => if ok then Complete(Emit(s, StatusUpdate(Failed, true))) else Reject(s)
       case Closing =>
         if ok then Complete(s)
         else Emit(s, StatusUpdate(Failed, true)).(pc := ClosingFailed)
       case ClosingFailed => if ok then Complete(s) else Reject(s)
       case _ => s)
    case Answered(answer) => if s.pc.Running? then Close(s, answer) else s
    case Chunk(mine, text) =>
      if !s.listening || !mine then s
      else Emit(s.(chunks := s.chunks + [text]), ArtifactUpdate(text, |s.chunks| > 0, false))
    case Cancel =>
      if !s.active then s
      else Emit(s.(listening := false), StatusUpdate(Canceled, true)).(stopped := true, active := false)
  }

  function After(s: Stream, inputs: seq<Input>): Stream {
    if inputs == [] then s else Next(After(s, inputs[..|inputs| - 1]), inputs[|inputs| - 1])
  }

  // ---- What a consumer sees -----------------------------------------------------------------

  predicate Final(e: Event) {
    e.StatusUpdate? && e.final
  }

  function Finals(events: seq<Event>): nat {
    if events == [] then 0
    else Finals(events[..|events| - 1]) + if Final(events[|events| - 1]) then 1 else 0
  }

  predicate EndsFinal(events: seq<Event>) {
    events != [] && Final(events[|events| - 1])
  }

  /** A consumer folding the artifact: append to it or start it over. */
  function Fold(held: string, e: Event): string {
    if e.StatusUpdate? then held else if e.append then held + e.text else e.text
  }

  function Text(events: seq<Event>): string {
    if events == [] then "" else Fold(Text(events[..|events| - 1]), events[|events| - 1])
  }

  function Concat(chunks: seq<string>): string {
    if chunks == [] then "" else Concat(chunks[..|chunks| - 1]) + chunks[|chunks| - 1]
  }

  lemma ConcatSnoc(chunks: seq<string>, text: string)
    ensures Concat(chunks + [text]) == Concat(chunks) + text
  {
    assert (chunks + [text])[..|chunks|] == chunks;
  }

  // ---- Invariant ---------------------------------------------------------------------------------

  predicate IsStatus(e: Event, state: TaskState) {
    e.StatusUpdate? && e.state == state
  }

  predicate Says(events: seq<Event>, state: TaskState) {
    events != [] && (IsStatus(events[|events| - 1], state) || Says(events[..|events| - 1], state))
  }

  /** A write of the trace throws after a final event has gone out. */
  predicate LateThrow(s: Stream, i: Input) {
    (s.pc.Closing? || s.pc.ClosingFailed?) && !s.stopped && i == TraceWritten(false)
  }

  function LateThrows(inputs: seq<Input>): nat {
    if inputs == [] then 0
    else
      var init := inputs[..|inputs| - 1];
      LateThrows(init) + if LateThrow(After(FRESH, init), inputs[|inputs| - 1]) then 1 else 0
  }

  /** What a consumer has seen: its final events, whether the last one is final, the text
      it holds and whether it was told "completed". */
  datatype Seen = Seen(finals: nat, endsFinal: bool, text: string, completed: bool)

  function See(events: seq<Event>): Seen {
    Seen(Finals(events), EndsFinal(events), Text(events), Says(events, Completed))
  }

  function Add(seen: Seen, e: Event): Seen {
    Seen(seen.finals + (if Final(e) then 1 else 0), Final(e), Fold(seen.text, e),
         seen.completed || IsStatus(e, Completed))
  }

  /** What is seen of the events, folded. */
  ghost predicate Sees(events: seq<Event>, seen: Seen) {
    forall x {:trigger Unfold(x)} :: Unfold(x) && x == events ==> See(events) == seen
  }

  lemma SeesNext(events: seq<Event>, seen: Seen, e: Event)
    requires Sees(events, seen)
    ensures Sees(events + [e], Add(seen, e))
  {
    assert Unfold(events);
    assert (events + [e])[..|events|] == events;
  }

  /** What is seen once this event is passed on, if it is. */
  function Further(s: Stream, seen: Seen, e: Event): Seen {
    if s.stopped then seen else Add(seen, e)
  }

  lemma EmitSeen(s: Stream, seen: Seen, e: Event)
    requires Sees(s.emitted, seen)
    ensures Sees(Emit(s, e).emitted, Further(s, seen, e))
  {
    if !s.stopped { SeesNext(s.emitted, seen, e); }
  }

  predicate Opening(pc: Pc) {
    pc.Finding? || pc.Creating? || pc.Connecting? || pc.FailingUnavailable?
  }

  predicate Ending(pc: Pc) {
    pc.Closing? || pc.ClosingFailed? || pc.Over?
  }

  /** Up to the end of the agent call there is no final event, unless it was canceled;
      from then on the last event is final, and there is one more for every late throw. */
  predicate Fits(s: Stream, seen: Seen, late: nat) {
    && (Opening(s.pc) ==> !s.stopped && !s.active && !s.listening && s.chunks == [] && late == 0
                          && seen.finals == 0 && seen.text == "")
    && (s.pc.Running? ==> (s.active <==> !s.stopped) && (s.listening <==> !s.stopped) && late == 0
                          && seen.finals == (if s.stopped then 1 else 0) && (s.stopped ==> seen.endsFinal))
    && (Ending(s.pc) ==> !s.active && !s.listening && seen.endsFinal && seen.finals == 1 + late)
    && (s.pc.Over? ==> s.stopped)
    && (if seen.completed then Ending(s.pc) && s.answer.Output? && seen.text == s.answer.text
        else seen.text == Concat(s.chunks))
  }

  ghost predicate Ok(s: Stream, seen: Seen, late: nat) {
    Sees(s.emitted, seen) && Fits(s, seen, late)
  }

  const FAILED := StatusUpdate(Failed, true)

  lemma OutputOk(s: Stream, seen: Seen, text: string) returns (further: Seen)
    requires Ok(s, seen, 0) && s.pc.Running? && text != ""
    ensures Ok(Close(s, Output(text)), further, 0)
  {
    var t := s.(listening := false, active := false, answer := Output(text));
    var chunk := ArtifactUpdate(text, false, true);
    EmitSeen(t, seen, chunk);
    EmitSeen(Emit(t, chunk), Further(t, seen, chunk), StatusUpdate(Completed, true));
    further := Further(Emit(t, chunk), Further(t, seen, chunk), StatusUpdate(Completed, true));
  }

  lemma NoOutputOk(s: Stream, seen: Seen, answer: Answer)
    requires Ok(s, seen, 0) && s.pc.Running? && (answer.Output? ==> answer.text == "")
    ensures Ok(Close(s, answer), Further(s, seen, FAILED), 0)
  {
    EmitSeen(s.(listening := false, active := false, answer := answer), seen, FAILED);
  }

  lemma ChunkOk(s: Stream, seen: Seen, late: nat, text: string)
    requires Ok(s, seen, late) && s.listening
    ensures Ok(Next(s, Chunk(true, text)), Further(s, seen, ArtifactUpdate(text, |s.chunks| > 0, false)), late)
  {
    EmitSeen(s.(chunks := s.chunks + [text]), seen, ArtifactUpdate(text, |s.chunks| > 0, false));
    ConcatSnoc(s.chunks, text);
    assert s.chunks == [] ==> Concat(s.chunks) + text == text;
  }

  lemma CancelOk(s: Stream, seen: Seen, late: nat)
    requires Ok(s, seen, late) && s.active
    ensures Ok(Next(s, Cancel), Further(s, seen, StatusUpdate(Canceled, true)), late)
  {
    EmitSeen(s.(listening := false), seen, StatusUpdate(Canceled, true));
  }

  lemma RejectOk(s: Stream, seen: Seen, late: nat)
    requires Sees(s.emitted, seen) && Opening(s.pc) && Fits(s, seen, late)
    ensures Ok(Reject(s), Further(s, seen, FAILED), late)
    ensures Ok(Complete(Emit(s, FAILED)), Further(s, seen, FAILED), late)
  {
    EmitSeen(s, seen, FAILED);
  }

  lemma OpeningOk(s: Stream, seen: Seen, late: nat, i: Input) returns (further: Seen)
    requires Ok(s, seen, late) && (i.Found? || i.Created? || i.Connected?)
    ensures Ok(Next(s, i), further, late)
  {
    further := seen;
    if (i == Found(false) && s.pc.Finding?) || (i == Created(false) && s.pc.Creating?) {
      RejectOk(s, seen, late);
      further := Further(s, seen, FAILED);
    } else if i == Created(true) && s.pc.Creating? {
      EmitSeen(s, seen, StatusUpdate(Working, false));
      further := Further(s, seen, StatusUpdate(Working, false));
    }
  }

  lemma TraceOk(s: Stream, seen: Seen, late: nat, ok: bool) returns (further: Seen)
    requires Ok(s, seen, late)
    ensures Ok(Next(s, TraceWritten(ok)), further, late + if LateThrow(s, TraceWritten(ok)) then 1 else 0)
  {
    further := seen;
    if s.pc.FailingUnavailable? {
      RejectOk(s, seen, late);
      further := Further(s, seen, FAILED);
    } else if !ok && (s.pc.Closing? || s.pc.ClosingFailed?) {
      EmitSeen(s, seen, FAILED);
      further := Further(s, seen, FAILED);
    }
  }

  lemma AnsweredOk(s: Stream, seen: Seen, late: nat, answer: Answer) returns (further: Seen)
    requires Ok(s, seen, late)
    ensures Ok(Next(s, Answered(answer)), further, late)
  {
    further := seen;
    if s.pc.Running? {
      if answer.Output? && answer.text != "" {
        further := OutputOk(s, seen, answer.text);
      } else {
        NoOutputOk(s, seen, answer);
        further := Further(s, seen, FAILED);
      }
    }
  }

  lemma StepOk(s: Stream, seen: Seen, late: nat, i: Input) returns (further: Seen)
    requires Ok(s, seen, late)
    ensures Ok(Next(s, i), further, late + if LateThrow(s, i) then 1 else 0)
  {
    further := seen;
    match i
    case Answered(answer) => further := AnsweredOk(s, seen, late, answer);
    case Chunk(mine, text) =>
      if s.listening && mine {
        ChunkOk(s, seen, late, text);
        further := Further(s, seen, ArtifactUpdate(text, |s.chunks| > 0, false));
      }
    case Cancel =>
      if s.active {
        CancelOk(s, seen, late);
        further := Further(s, seen, StatusUpdate(Canceled, true));
      }
    case TraceWritten(ok) => further := TraceOk(s, seen, late, ok);
    case _ => further := OpeningOk(s, seen, late, i);
  }

  lemma {:induction false} AlwaysOk(inputs: seq<Input>) returns (seen: Seen)
    ensures Ok(After(FRESH, inputs), seen, LateThrows(inputs)) && seen == See(After(FRESH, inputs).emitted)
  {
    seen := See([]);
    if inputs != [] {
      var init := inputs[..|inputs| - 1];
      seen := AlwaysOk(init);
      seen := StepOk(After(FRESH, init), seen, LateThrows(init), inputs[|inputs| - 1]);
    }
    assert Unfold(After(FRESH, inputs).emitted);
  }

  /** The n-th input is a write of the trace that throws while the stream has its final
      event but is not complete. */
  ghost predicate ThrowsLate(inputs: seq<Input>, n: nat) {
    n < |inputs| && LateThrow(After(FRESH, inputs[..n]), inputs[n])
  }

  lemma {:induction false} SomeThrowsLate(inputs: seq<Input>)
    ensures LateThrows(inputs) > 0 <==> exists n: nat :: ThrowsLate(inputs, n)
  {
    if inputs != [] {
      var init := inputs[..|inputs| - 1];
      SomeThrowsLate(init);
      assert forall n: nat | n < |init| :: inputs[..n] == init[..n] && inputs[n] == init[n];
      assert forall n: nat :: ThrowsLate(init, n) ==> ThrowsLate(inputs, n);
      assert forall n: nat | n < |init| :: ThrowsLate(inputs, n) ==> ThrowsLate(init, n);
      assert ThrowsLate(inputs, |init|) <==> LateThrow(After(FRESH, init), inputs[|init|]);
    }
  }

  /** Every stream that is over, canceled or not, ends with a final status event.  It has
      no other if and only if no write of the trace throws between the final event and
      the completion of the stream. */
  lemma {:induction false} OneFinalEvent(inputs: seq<Input>)
    requires After(FRESH, inputs).pc.Over?
    ensures var s := After(FRESH, inputs);
            && s.stopped && EndsFinal(s.emitted)
            && (Finals(s.emitted) == 1 <==> !exists n: nat :: ThrowsLate(inputs, n))
  {
    var _ := AlwaysOk(inputs);
    SomeThrowsLate(inputs);
  }

  /** With trace writes that do not throw, exactly one final status event, the last. */
  lemma {:induction false} OneFinalIfTracesWritten(inputs: seq<Input>)
    requires After(FRESH, inputs).pc.Over? && TraceWritten(false) !in inputs
    ensures Finals(After(FRESH, inputs).emitted) == 1 && EndsFinal(After(FRESH, inputs).emitted)
  {
    forall n: nat ensures !ThrowsLate(inputs, n) {
      if n < |inputs| { assert inputs[n] in inputs; }
    }
    OneFinalEvent(inputs);
  }

  /** While the agent works there is no final event, unless it was canceled, and
      then it is the last. */
  lemma {:induction false} NoFinalEarly(inputs: seq<Input>)
    requires !Ending(After(FRESH, inputs).pc)
    ensures var s := After(FRESH, inputs);
            if s.stopped then Finals(s.emitted) == 1 && EndsFinal(s.emitted) else Finals(s.emitted) == 0
  {
    var _ := AlwaysOk(inputs);
  }

  /** At every moment a consumer folding the artifact holds all chunks taken so far, in
      order; once "completed" has come it holds the agent's full output. */
  lemma {:induction false} ConsumerHolds(inputs: seq<Input>)
    ensures var s := After(FRESH, inputs);
            if Says(s.emitted, Completed) then s.answer.Output? && Text(s.emitted) == s.answer.text
            else Text(s.emitted) == Concat(s.chunks)
  {
    var _ := AlwaysOk(inputs);
  }

  lemma StoppedStep(s: Stream, i: Input)
    requires s.stopped
    ensures Next(s, i).stopped && Next(s, i).emitted == s.emitted
  {
  }

  /** Nothing is emitted once the stream has stopped. */
  lemma {:induction false} StoppedStays(s: Stream, inputs: seq<Input>)
    requires s.stopped
    ensures After(s, inputs).stopped && After(s, inputs).emitted == s.emitted
  {
    if inputs != [] {
      StoppedStays(s, inputs[..|inputs| - 1]);
      StoppedStep(After(s, inputs[..|inputs| - 1]), inputs[|inputs| - 1]);
    }
  }

  lemma CanceledSeen(s: Stream, seen: Seen, late: nat)
    requires Ok(s, seen, late) && s.active
    ensures var t := Next(s, Cancel);
            t.stopped && t.emitted == s.emitted + [StatusUpdate(Canceled, true)] && Finals(t.emitted) == 1
  {
    SeesNext(s.emitted, seen, StatusUpdate(Canceled, true));
    assert Unfold(s.emitted + [StatusUpdate(Canceled, true)]);
  }

  /** A canceled stream's last and only final event says so, whatever comes later. */
  lemma {:induction false} CancelIsFinal(before: seq<Input>, later: seq<Input>)
    requires After(FRESH, before).active
    ensures var s := After(FRESH, before);
            var t := After(Next(s, Cancel), later);
            t.stopped && t.emitted == s.emitted + [StatusUpdate(Canceled, true)] && Finals(t.emitted) == 1
  {
    var seen := AlwaysOk(before);
    CanceledSeen(After(FRESH, before), seen, LateThrows(before));
    StoppedStays(Next(After(FRESH, before), Cancel), later);
  }
}
