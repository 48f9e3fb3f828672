/** From a held message to its approval: what the service asks the operator about, what
    the operator approves, and what the service looks for when the call is retried. */
module ApprovalFlow {
  import opened Wrappers
  import opened Records
  import opened Endpoint
  import opened ApprovalStore

  /** The review request that the service saves for a message that it holds back. */
  function PendingFor(name: string, job: Job, reason: string, createdAt: Time): Pending {
    match job
    case SendJob(input, messageID, _) =>
      Pending(messageID, Outbound, name, input.destination, input.text, false, TextDigest(input.text), reason, createdAt)
    case ReceiveJob(envelope) =>
      var c := envelope.content;
      Pending(c.messageID, Inbound, c.source, c.destination, c.body, false, TextDigest(c.body), reason, createdAt)
  }

  /** Two jobs ask for one approval only if they agree in message ID, direction, both
      endpoints and body. */
  lemma ActionIsExact(name: string, job: Job, name': string, job': Job)
    ensures ApprovalFor(name, job) == ApprovalFor(name', job')
        <==> var p, p' := PendingFor(name, job, "", 0), PendingFor(name', job', "", 0);
             p.messageID == p'.messageID && p.direction == p'.direction && p.source == p'.source && p.destination == p'.destination
             && p.body == p'.body
  {
  }

  /** What the operator approves for a review request is what the service looks for. */
  lemma BindingIsAction(name: string, job: Job, reason: string, createdAt: Time, p: Pending)
    requires Matches(Found(p), PendingFor(name, job, reason, createdAt))
    ensures BindingOf(p) == ApprovalFor(name, job)
  {
  }

  /** The service holds a message back and saves it for review, the operator is shown it
      and confirms, and the service looks again. If nothing fails, exactly this action has
      become approved, and no other. */
  method HoldApproveRetry(store: Store, name: string, job: Job, reason: string, createdAt: Time, now: Time,
                          saveFault: Fault, recordFault: Fault, approveFault: Fault)
    returns (saved: Saved, shown: Loaded, approved: Saved, found: Option<bool>)
    requires store.Valid()
    modifies store
    ensures store.Valid() && old(store.granted) <= store.granted
    ensures saved.Done? ==> store.granted <= old(store.granted) + {ApprovalFor(name, job)}
    ensures saved.Done? ==> shown.Found? && shown.pending.body == PendingFor(name, job, reason, createdAt).body
    ensures saved.Done? && approved.Done? ==> found == Some(true) && store.granted == old(store.granted) + {ApprovalFor(name, job)}
    ensures found == Some(true) <==> ApprovalFor(name, job) in store.granted
    ensures var p, a := PendingFor(name, job, reason, createdAt), ApprovalFor(name, job);
            Storable(store.codec, p) && Unclaimed(store.codec, old(store.files), p) && ApprovedFile(p.messageID) !in old(store.files)
            && Fits(store.codec.encodeApproval(a, now)) && saveFault.NoFault? && recordFault.NoFault? && approveFault.NoFault? ==>
              saved.Done? && approved.Done?
  {
    hide CodecOk, Fits, ApprovedOk, PendingOk;
    var p := PendingFor(name, job, reason, createdAt);
    saved := store.SavePending(p, saveFault, recordFault);
    shown, approved := store.ApprovePending(p.messageID, saved.Done?, now, approveFault);
    if shown.Found? && saved.Done? {
      BindingIsAction(name, job, reason, createdAt, shown.pending);
    }
    found := store.IsApproved(ApprovalFor(name, job));
  }
}
