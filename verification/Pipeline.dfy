/** The orchestrator: the client's view of the workflow engine. */
module Pipeline {
  import opened Types
  import opened Workflow
  import opened Machine
  import opened Keys

  /** The engine has an execution of this upload that has not closed. */
  predicate Open(wfs: map<string, Wf>, id: string) {
    WorkflowId(id) in wfs && !Ended(wfs[WorkflowId(id)])
  }

  /** What sending a signal does to the engine's executions. */
  function Signalled(wfs: map<string, Wf>, id: string, fault: Fault): map<string, Wf> {
    if WorkflowId(id) in wfs then wfs[WorkflowId(id) := SignalStep(wfs[WorkflowId(id)], fault)] else wfs
  }

  /** What the engine answers: an execution that is closed or was never started is not found. */
  function SignalReply(wfs: map<string, Wf>, id: string, fault: Fault): Try<()> {
    if !fault.NoFault? then Failure(Unavailable)
    else if Open(wfs, id) then Success(())
    else Failure(NotFound)
  }

  class Orchestrator {
    var wfs: map<string, Wf>

    constructor ()
      ensures wfs == map[]
    {
      wfs := map[];
    }

    /** Starting an upload whose workflow is open is no error and starts nothing. */
    method Start(id: string, fault: Fault) returns (ok: bool)
      modifies this
      ensures ok == fault.NoFault?
      ensures wfs == if fault.Before? || Open(old(wfs), id) then old(wfs) else old(wfs)[WorkflowId(id) := NEW_WF]
    {
      var open := WorkflowId(id) in wfs && !Ended(wfs[WorkflowId(id)]);
      if !fault.Before? && !open {
        wfs := wfs[WorkflowId(id) := NEW_WF];
      }
      ok := fault.NoFault?;
    }

    /** The engine's own call, which reports an execution that is closed or was never started. */
    method SignalWorkflow(id: string, fault: Fault) returns (r: Try<()>)
      modifies this
      ensures r == SignalReply(old(wfs), id, fault)
      ensures wfs == Signalled(old(wfs), id, fault)
    {
      var open := WorkflowId(id) in wfs && !Ended(wfs[WorkflowId(id)]);
      if open && !fault.Before? {
        var wf := wfs[WorkflowId(id)];
        wfs := wfs[WorkflowId(id) := wf.(hist := wf.hist + [Signaled])];
      }
      if !fault.NoFault? {
        return Failure(Unavailable);
      }
      r := if open then Success(()) else Failure(NotFound);
    }

    /** NotFound counts as success. */
    method Signal(id: string, fault: Fault) returns (ok: bool)
      modifies this
      ensures ok == fault.NoFault?
      ensures wfs == Signalled(old(wfs), id, fault)
    {
      var r := SignalWorkflow(id, fault);
      ok := r.Success? || r.problem.NotFound?;
    }
  }

  /** A signal is recorded in an open execution unless the call fails before its effect, acknowledged or
      not; and then that is all that changes. */
  lemma SignalIsRecorded(wfs: map<string, Wf>, id: string, fault: Fault)
    ensures Signalled(wfs, id, fault) ==
            if Open(wfs, id) && !fault.Before?
            then wfs[WorkflowId(id) := wfs[WorkflowId(id)].(hist := wfs[WorkflowId(id)].hist + [Signaled])] else wfs
  {
    if WorkflowId(id) in wfs {
      assert wfs == wfs[WorkflowId(id) := wfs[WorkflowId(id)]];
    }
  }

  /** The engine's answer tells delivery, which `Signal` no longer does: it answers success exactly
      when the signal has been recorded, and not found exactly when sending it changed nothing. */
  lemma AnswerTellsDelivery(wfs: map<string, Wf>, id: string)
    ensures SignalReply(wfs, id, NoFault).Success? <==> Signalled(wfs, id, NoFault) != wfs
    ensures SignalReply(wfs, id, NoFault) == Failure(NotFound) <==> Signalled(wfs, id, NoFault) == wfs
  {
    if Open(wfs, id) {
      var wf := wfs[WorkflowId(id)];
      assert Signalled(wfs, id, NoFault)[WorkflowId(id)].hist == wf.hist + [Signaled];
      assert |wf.hist + [Signaled]| == |wf.hist| + 1;
    } else if WorkflowId(id) in wfs {
      assert Signalled(wfs, id, NoFault)[WorkflowId(id)] == wfs[WorkflowId(id)];
    }
  }
}
