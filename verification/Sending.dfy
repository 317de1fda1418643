/**
  One submission attempt, from the stored proof to the chain.  Whatever the
  node answers and wherever the attempt ends, it is a run of the state machine:
  bytes are stored before they are sent, and only stored bytes are sent.
 */
module Sending {
  import opened Common
  import opened Gateway
  import opened Runs
  import opened Tables
  import RecoveryPass

  datatype Reply = Accepted(hash: Hash) | Refused

  /** The node, with the answers it is going to give and the transactions it has been handed. */
  class Node {
    const digest: Hash -> Hash
    const seen: nat -> Option<bool>
    const replies: nat -> Reply
    var asked: nat
    var sent: seq<Hash>

    constructor (digest: Hash -> Hash, seen: nat -> Option<bool>, replies: nat -> Reply)
      ensures sent == []
    {
      this.digest, this.seen, this.replies := digest, seen, replies;
      asked, sent := 0, [];
    }

    /** `None` when the question itself fails. */
    method TransactionSeen(hash: Hash) returns (r: Option<bool>)
      modifies this
      ensures sent == old(sent) && r == seen(old(asked)) && asked == old(asked) + 1
    {
      r := seen(asked);
      asked := asked + 1;
    }

    method SendRaw(raw: Hash) returns (r: Reply)
      modifies this
      ensures sent == old(sent) + [raw] && r == replies(|old(sent)|) && asked == old(asked)
    {
      r := replies(|sent|);
      sent := sent + [raw];
    }

    /**
      Ask first, send at most once, and after an error ask again: it may have
      arrived all the same.  Bytes that do not match their hash are never sent.
     */
    method BroadcastSubmission(prepared: Prepared) returns (r: Result<Hash>)
      modifies this
      ensures sent == old(sent) || (sent == old(sent) + [prepared.raw] && digest(prepared.raw) == prepared.hash)
      ensures r.Success? ==> r.value == prepared.hash && digest(prepared.raw) == prepared.hash
      ensures seen(old(asked)) != Some(false) ==> sent == old(sent)
      ensures r.Success? && sent == old(sent) ==> seen(old(asked)) == Some(true)
      ensures r.Success? && sent != old(sent) ==>
        replies(|old(sent)|) == Accepted(prepared.hash)
          || (replies(|old(sent)|).Refused? && seen(old(asked) + 1) == Some(true))
      ensures r.Failure? && sent != old(sent) ==>
        replies(|old(sent)|) != Accepted(prepared.hash)
          && (replies(|old(sent)|).Refused? ==> seen(old(asked) + 1) != Some(true))
      ensures digest(prepared.raw) != prepared.hash ==> r == Failure(Mismatch) && asked == old(asked)
      ensures digest(prepared.raw) == prepared.hash ==>
        && (sent != old(sent) <==> seen(old(asked)) == Some(false))
        && (seen(old(asked)) == Some(true) ==> r.Success?) && (seen(old(asked)).None? ==> r == Failure(Unavailable))
    {
      if digest(prepared.raw) != prepared.hash {
        return Failure(Mismatch);
      }
      var known := TransactionSeen(prepared.hash);
      if known.None? {
        return Failure(Unavailable);
      }
      if known.value {
        return Success(prepared.hash);
      }
      var reply := SendRaw(prepared.raw);
      match reply {
        case Accepted(hash) =>
          return if hash == prepared.hash then Success(hash) else Failure(Mismatch);
        case Refused =>
          known := TransactionSeen(prepared.hash);
          return if known == Some(true) then Success(prepared.hash) else Failure(Unavailable);
      }
    }
  }

  /**
    The end of `send`: broadcast the bytes read back from the store, and only
    then mark the job submitted.  What the node is handed is exactly what the
    run records as broadcast; after a failure the job is as it was.
   */
  method SubmitPrepared(db: GatewayDb, node: Node, id: JobId, attempts: nat, prepared: Prepared,
                        ghost out: Outside, ghost phase: Phase)
    returns (r: Result<()>, ghost steps: seq<Step>, ghost after: Outside)
    requires ClaimOf(id, attempts) in out.claims && Holding(id, prepared) in out.holding
    modifies db, node
    ensures Run(System(old(db.View()), out, phase), steps) == System(db.View(), after, phase)
    ensures after == out || after == out.(broadcasts := out.broadcasts + [Sent(id, prepared.raw)])
    ensures node.sent == old(node.sent) + if after == out then [] else [prepared.raw]
    ensures r.Failure? ==> db.View() == old(db.View())
    ensures r.Success? ==> db.View() == MarkSubmitted(old(db.View()), id, attempts)
  {
    ghost var y := System(db.View(), out, phase);
    steps, after := [], out;
    ghost var before := node.sent;
    var hash := node.BroadcastSubmission(prepared);
    if node.sent != before {
      BroadcastNext(y, id, prepared);
      RecoveryPass.OneStep(y, StepBroadcast(id, prepared));
      steps := [StepBroadcast(id, prepared)];
      after := out.(broadcasts := out.broadcasts + [Sent(id, prepared.raw)]);
      assert |after.broadcasts| == |out.broadcasts| + 1;
    }
    if hash.Failure? {
      return Failure(hash.fault), steps, after;
    }
    ghost var z := System(db.View(), after, phase);
    assert Run(y, steps) == z;
    MarkRow(db, id, attempts);
    MarkNext(z, id, attempts, prepared);
    RecoveryPass.ExtendRun(y, steps, StepMarkSubmitted(id, attempts));
    steps := steps + [StepMarkSubmitted(id, attempts)];
    return Success(()), steps, after;
  }

  method MarkRow(db: GatewayDb, id: JobId, attempts: nat)
    modifies db
    ensures db.View() == MarkSubmitted(old(db.View()), id, attempts)
  {
    if id in db.jobs && db.jobs[id].attempts == attempts && db.jobs[id].status == Submitting {
      db.jobs := db.jobs[id := db.jobs[id].(status := Submitted, nextAttempt := None)];
    }
  }

  lemma BroadcastNext(y: System, id: JobId, prepared: Prepared)
    requires Holding(id, prepared) in y.out.holding
    ensures Next(y, StepBroadcast(id, prepared))
      == y.(out := y.out.(broadcasts := y.out.broadcasts + [Sent(id, prepared.raw)]))
  {
  }

  lemma MarkNext(y: System, id: JobId, attempts: nat, prepared: Prepared)
    requires ClaimOf(id, attempts) in y.out.claims && Holding(id, prepared) in y.out.holding
    ensures Next(y, StepMarkSubmitted(id, attempts)) == y.(db := MarkSubmitted(y.db, id, attempts))
  {
  }
}
