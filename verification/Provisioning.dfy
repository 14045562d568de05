/** Provisioning progress: the tracker of
    apps/api/src/provisioning/provisioning-events.service.ts. */
module Provisioning {
  type StepId = string
  type Id = string

  datatype StepStatus = Pending | InProgress | Completed | Failed | Skipped
  datatype Step = Step(id: StepId, status: StepStatus)
  datatype Status = Underway | Finished | Broken | TimedOut

  datatype Progress = Progress(status: Status, currentStep: StepId, steps: seq<Step>)

  /** A log line and the step it is attributed to. */
  datatype Line = Line(step: StepId, text: string)

  const MAX_LOG_LINES := 500

  // ---- Progress --------------------------------------------------------------------------

  function Begin(ids: seq<StepId>): Progress
    requires ids != []
  {
    Progress(Underway, ids[0], seq(|ids|, i requires 0 <= i < |ids| => Step(ids[i], Pending)))
  }

  /** The position of the first step with this id, or the number of steps. */
  function Find(steps: seq<Step>, id: StepId): nat {
    if steps == [] || steps[0].id == id then 0 else 1 + Find(steps[1..], id)
  }

  function FindPending(steps: seq<Step>): nat {
    if steps == [] || steps[0].status == Pending then 0 else 1 + FindPending(steps[1..])
  }

  lemma Finds(steps: seq<Step>, id: StepId)
    ensures Find(steps, id) <= |steps|
    ensures forall i | 0 <= i < Find(steps, id) :: steps[i].id != id
    ensures Find(steps, id) < |steps| ==> steps[Find(steps, id)].id == id
  {
  }

  lemma FindsPending(steps: seq<Step>)
    ensures FindPending(steps) <= |steps|
    ensures forall i | 0 <= i < FindPending(steps) :: steps[i].status != Pending
    ensures FindPending(steps) < |steps| ==> steps[FindPending(steps)].status == Pending
  {
  }

  lemma FindIs(steps: seq<Step>, id: StepId, k: nat)
    requires k <= |steps| && (k < |steps| ==> steps[k].id == id) && forall i | 0 <= i < k :: steps[i].id != id
    ensures Find(steps, id) == k
  {
    if k > 0 { FindIs(steps[1..], id, k - 1); }
  }

  lemma FindPendingIs(steps: seq<Step>, k: nat)
    requires k <= |steps| && (k < |steps| ==> steps[k].status == Pending)
    requires forall i | 0 <= i < k :: steps[i].status != Pending
    ensures FindPending(steps) == k
  {
    if k > 0 { FindPendingIs(steps[1..], k - 1); }
  }

  function Marked(steps: seq<Step>, k: nat, status: StepStatus): seq<Step> {
    if k < |steps| then steps[k := steps[k].(status := status)] else steps
  }

  /** A step that is not in the list is ignored. */
  function UpdateStep(p: Progress, id: StepId, status: StepStatus): Progress {
    var k := Find(p.steps, id);
    if k >= |p.steps| then p
    else
      var steps := Marked(p.steps, k, status);
      var next := FindPending(steps);
      p.(steps := steps,
         currentStep := if status == InProgress then id
                        else if status == Completed && next < |steps| then steps[next].id
                        else p.currentStep)
  }

  /** The first step with this id has the status, the others have what they had; the current
      step is that one if it is in progress now, the first pending one if it is completed,
      and in all other cases what it was. */
  ghost predicate Updated(p: Progress, t: Progress, id: StepId, status: StepStatus) {
    && t.status == p.status && |t.steps| == |p.steps|
    && (forall k | 0 <= k < |p.steps| ::
          t.steps[k] == if p.steps[k].id == id && (forall j | 0 <= j < k :: p.steps[j].id != id)
                        then Step(id, status) else p.steps[k])
    && (if (forall k | 0 <= k < |p.steps| :: p.steps[k].id != id) then t.currentStep == p.currentStep
        else if status == InProgress then t.currentStep == id
        else if status != Completed || (forall k | 0 <= k < |t.steps| :: t.steps[k].status != Pending)
        then t.currentStep == p.currentStep
        else exists k :: 0 <= k < |t.steps| && t.steps[k] == Step(t.currentStep, Pending)
                         && forall j | 0 <= j < k :: t.steps[j].status != Pending)
  }

  lemma {:induction false} UpdateIs(p: Progress, id: StepId, status: StepStatus)
    ensures Updated(p, UpdateStep(p, id, status), id, status)
  {
    Finds(p.steps, id);
    var t := UpdateStep(p, id, status);
    FindsPending(t.steps);
    var next := FindPending(t.steps);
    if Find(p.steps, id) < |p.steps| && status == Completed && next < |t.steps| {
      assert t.steps[next] == Step(t.currentStep, Pending);
    }
  }

  /** The progress has this status, the steps that had one status have another, and nothing
      else is different. */
  ghost predicate Closed(p: Progress, t: Progress, status: Status, was: StepStatus, now: StepStatus) {
    && t.status == status && t.currentStep == p.currentStep && |t.steps| == |p.steps|
    && forall k | 0 <= k < |p.steps| ::
         t.steps[k] == if p.steps[k].status == was then Step(p.steps[k].id, now) else p.steps[k]
  }

  function Remarked(steps: seq<Step>, was: StepStatus, status: StepStatus): seq<Step> {
    seq(|steps|, i requires 0 <= i < |steps| =>
          if steps[i].status == was then steps[i].(status := status) else steps[i])
  }

  function Complete(p: Progress): Progress {
    p.(status := Finished, steps := Remarked(p.steps, Pending, Skipped))
  }

  function Fail(p: Progress): Progress {
    p.(status := Broken, steps := Remarked(p.steps, InProgress, Failed))
  }

  function Expire(p: Progress): Progress {
    if p.status == Underway then p.(status := TimedOut) else p
  }

  function LastLines(lines: seq<Line>): seq<Line> {
    if |lines| <= MAX_LOG_LINES then lines else lines[|lines| - MAX_LOG_LINES..]
  }

  /** Trimming line by line keeps the last lines. */
  lemma LastLinesNext(lines: seq<Line>, line: Line)
    ensures var buffer := LastLines(lines) + [line];
            LastLines(lines + [line]) == if |buffer| > MAX_LOG_LINES then buffer[|buffer| - MAX_LOG_LINES..] else buffer
  {
    var all := lines + [line];
    if |lines| >= MAX_LOG_LINES {
      var from := |lines| - MAX_LOG_LINES;
      assert lines[from..] == LastLines(lines);
      assert all[from..] == lines[from..] + [line];
      assert all[from + 1..] == all[from..][1..];
    }
  }

  // ---- What holds while `provision` runs ---------------------------------------------------

  /** Between two steps nothing is in progress. */
  ghost predicate Between(p: Progress) {
    Named(p) && forall i | 0 <= i < |p.steps| :: p.steps[i].status == Pending || p.steps[i].status == Completed
  }

  /** During a step only that one is. */
  ghost predicate Inside(p: Progress, id: StepId) {
    Named(p) && forall i | 0 <= i < |p.steps| ::
      if i == Find(p.steps, id) then p.steps[i].status == InProgress
      else p.steps[i].status == Pending || p.steps[i].status == Completed
  }

  ghost predicate Named(p: Progress) {
    exists i :: 0 <= i < |p.steps| && p.steps[i].id == p.currentStep
  }

  ghost predicate Disciplined(p: Progress) {
    && Named(p)
    && forall i, j | 0 <= i < j < |p.steps| :: p.steps[i].status != InProgress || p.steps[j].status != InProgress
  }

  lemma MarkFinds(steps: seq<Step>, k: nat, status: StepStatus, id: StepId)
    ensures Find(Marked(steps, k, status), id) == Find(steps, id)
  {
    Finds(steps, id);
    FindIs(Marked(steps, k, status), id, Find(steps, id));
  }

  lemma StepStarts(p: Progress, id: StepId)
    requires Between(p)
    ensures Inside(UpdateStep(p, id, InProgress), id)
  {
    var k := Find(p.steps, id);
    Finds(p.steps, id);
    MarkFinds(p.steps, k, InProgress, id);
    var t := UpdateStep(p, id, InProgress);
    if k < |p.steps| {
      assert t.steps[k].id == t.currentStep;
    }
  }

  lemma StepCompletes(p: Progress, id: StepId)
    requires Inside(p, id)
    ensures Between(UpdateStep(p, id, Completed))
  {
    var k := Find(p.steps, id);
    Finds(p.steps, id);
    if k < |p.steps| {
      var t := UpdateStep(p, id, Completed);
      FindsPending(t.steps);
      var i :| 0 <= i < |p.steps| && p.steps[i].id == p.currentStep;
      assert t.steps[i].id == p.steps[i].id;
      if FindPending(t.steps) < |t.steps| {
        assert t.steps[FindPending(t.steps)].id == t.currentStep;
      }
    }
  }

  ghost predicate Distinct(ids: seq<StepId>) {
    forall i, j | 0 <= i < j < |ids| :: ids[i] != ids[j]
  }

  // ---- The tracker ---------------------------------------------------------------------------

  class ProvisioningEventsService {
    var progress: map<Id, Progress>
    var logs: map<Id, seq<Line>>
    // Every line since the buffer was created
    ghost var emitted: map<Id, seq<Line>>

    constructor ()
      ensures progress == map[] && LogsOk()
    {
      progress, logs, emitted := map[], map[], map[];
    }

    /** The buffer is the last 500 lines emitted since it was created. */
    ghost predicate LogsOk()
      reads this
    {
      logs.Keys == emitted.Keys && forall id | id in logs :: logs[id] == LastLines(emitted[id])
    }

    method StartProvisioning(id: Id, ids: seq<StepId>) returns (started: bool)
      modifies this`progress
      ensures started <==> ids != []
      ensures progress == if started then old(progress)[id := Begin(ids)] else old(progress)
      ensures started ==> id in progress && progress[id].status == Underway && progress[id].currentStep == ids[0]
                          && |progress[id].steps| == |ids|
                          && forall k | 0 <= k < |ids| :: progress[id].steps[k] == Step(ids[k], Pending)
    {
      started := ids != [];
      if started {
        progress := progress[id := Begin(ids)];
      }
    }

    method Update(id: Id, stepId: StepId, status: StepStatus)
      modifies this`progress
      ensures progress == if id in old(progress)
                          then old(progress)[id := UpdateStep(old(progress)[id], stepId, status)] else old(progress)
    {
      if id !in progress { return; }
      var p := progress[id];
      var k := 0;
      while k < |p.steps| && p.steps[k].id != stepId
        invariant k <= |p.steps| && forall i | 0 <= i < k :: p.steps[i].id != stepId
      {
        k := k + 1;
      }
      FindIs(p.steps, stepId, k);
      if k == |p.steps| { return; }
      p := p.(steps := p.steps[k := p.steps[k].(status := status)]);
      if status == InProgress {
        p := p.(currentStep := stepId);
      } else if status == Completed {
        var next := 0;
        while next < |p.steps| && p.steps[next].status != Pending
          invariant next <= |p.steps| && forall i | 0 <= i < next :: p.steps[i].status != Pending
        {
          next := next + 1;
        }
        FindPendingIs(p.steps, next);
        if next < |p.steps| {
          p := p.(currentStep := p.steps[next].id);
        }
      }
      progress := progress[id := p];
    }

    method CompleteProvisioning(id: Id)
      modifies this`progress
      ensures progress == if id in old(progress) then old(progress)[id := Complete(old(progress)[id])]
                          else old(progress)
      ensures id in old(progress) ==> Closed(old(progress)[id], progress[id], Finished, Pending, Skipped)
    {
      if id !in progress { return; }
      var p := progress[id];
      var steps := Remark(p.steps, Pending, Skipped);
      progress := progress[id := p.(status := Finished, steps := steps)];
    }

    method FailProvisioning(id: Id)
      modifies this`progress
      ensures progress == if id in old(progress) then old(progress)[id := Fail(old(progress)[id])] else old(progress)
      ensures id in old(progress) ==> Closed(old(progress)[id], progress[id], Broken, InProgress, Failed)
    {
      if id !in progress { return; }
      var p := progress[id];
      var steps := Remark(p.steps, InProgress, Failed);
      progress := progress[id := p.(status := Broken, steps := steps)];
    }

    method Remark(start: seq<Step>, was: StepStatus, status: StepStatus) returns (steps: seq<Step>)
      ensures steps == Remarked(start, was, status)
    {
      steps := start;
      for k := 0 to |start|
        invariant |steps| == |start|
        invariant forall i | 0 <= i < k :: steps[i] == Remarked(start, was, status)[i]
        invariant forall i | k <= i < |start| :: steps[i] == start[i]
      {
        if steps[k].status == was {
          steps := steps[k := steps[k].(status := status)];
        }
      }
    }

    method EmitLog(id: Id, line: Line)
      requires LogsOk()
      modifies this`logs, this`emitted
      ensures LogsOk()
      ensures id in emitted && emitted[id] == (if id in old(emitted) then old(emitted)[id] else []) + [line]
      ensures id in logs
              && var all := (if id in old(emitted) then old(emitted)[id] else []) + [line];
                 logs[id] == if |all| <= 500 then all else all[|all| - 500..]
      ensures forall x | x != id :: (x in logs <==> x in old(logs)) && (x in logs ==> logs[x] == old(logs)[x])
    {
      var buffer := if id in logs then logs[id] else [];
      ghost var lines := if id in emitted then emitted[id] else [];
      buffer := Push(buffer, line, lines);
      logs := logs[id := buffer];
      emitted := emitted[id := lines + [line]];
    }

    method Push(start: seq<Line>, line: Line, ghost lines: seq<Line>) returns (buffer: seq<Line>)
      requires start == LastLines(lines)
      ensures buffer == LastLines(lines + [line])
      ensures buffer == if |lines| < 500 then lines + [line] else (lines + [line])[|lines| - 499..]
    {
      LastLinesNext(lines, line);
      buffer := start + [line];
      if |buffer| > MAX_LOG_LINES {
        buffer := buffer[|buffer| - MAX_LOG_LINES..];
      }
    }

    method TimeoutProvisioning(id: Id)
      modifies this`progress
      ensures progress == if id in old(progress) then old(progress)[id := Expire(old(progress)[id])] else old(progress)
      ensures progress == if id in old(progress) && old(progress)[id].status == Underway
                          then old(progress)[id := old(progress)[id].(status := TimedOut)] else old(progress)
    {
      if id in progress && progress[id].status == Underway {
        progress := progress[id := progress[id].(status := TimedOut)];
      }
    }

    /** The delayed clean-up after an earlier run. */
    method Forget(id: Id)
      requires LogsOk()
      modifies this
      ensures LogsOk() && progress == old(progress) - {id}
    {
      progress, logs, emitted := progress - {id}, logs - {id}, emitted - {id};
    }
  }
}
