/** What the journal says about an execution, from what the executor returned. */
module Outcomes {
  import opened Collections
  import opened EndToEnd
  import opened ExecutionJournal
  import opened ResponderState
  import opened ResponderTasks
  import opened ResultBuilder
  import opened Results

  /** The terminal row says delivered exactly when the executor reported ok and its artifacts were not too large. */
  lemma DeliveredExactlyWhen(signer: Signer, bootId: Id, task: Task, e: Execution)
    ensures var row := TerminalEntry(bootId, FinishTask(signer, task, e));
            && (row.observed == Some(Delivered) <==> e.Reported? && e.status == Ok && !Oversized(signer, e))
            && (row.observed == Some(ExecutionFailed) <==> !(e.Reported? && e.status == Ok && !Oversized(signer, e)))
            && row.callId == task.requestId && row.attemptId == task.attemptId && row.recoverability == task.recoverability
  {
    PackageSaysWhatWasReturned(signer, task, e);
  }
}
