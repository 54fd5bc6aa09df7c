/** What the worker and the send routine make of each answer of the daemon. */
module MeshAnswers {
  import opened MeshFrame
  import opened MeshTables
  import opened MeshWorker
  import MeshSends

  /** The transfer to record after a data copy was admitted. */
  ghost predicate Holds(held: Option<Check>, sequence: nat, peer: nat, h: Handle) { held == Some(Check(sequence, peer, h)) }

  ghost predicate PutOff(t: Tables, sequence: nat, peer: nat, now: Time) {
    MeshSends.AwaitedAt(t, sequence, peer) ==> t.pending[sequence].awaiting[peer].retryAt == now + 250
  }

  /** A frame of the tick: an admitted data copy is recorded next, a refusal puts its peer off and marks it busy, and
      a receipt whose send threw goes back to the front of the queue; nothing else changes. */
  lemma FrameAnswered(n: Node, answer: SendAnswer, now: Time)
    requires Enabled(n, OutboundAnswered(answer, now))
    ensures var after, item := Next(n, OutboundAnswered(answer, now)), n.work.outbound[0]; var sequence := Sequence(item.data);
            && after.work == n.work.(outbound := n.work.outbound[1..], held := after.work.held)
            && (after.work.held.Some? <==> answer.Admitted? && item.data[3] in {0xd1, 0xd4})
            && (after.work.held.Some? ==> Holds(after.work.held, sequence, item.destination, answer.handle))
            && (answer.Admitted? ==> after.t == n.t)
            && (answer.Refused? ==>
                  && after.t == n.t.(pending := after.t.pending, peers := after.t.peers)
                  && MeshSends.OnlyBusy(n.t, item.destination, now + 250, after.t) && PutOff(after.t, sequence, item.destination, now))
            && (answer.Threw? ==>
                  after.t == if item.acknowledgement && |n.t.acks| < 128
                             then n.t.(acks := [Ack(item.destination, item.appKey, item.data)] + n.t.acks) else n.t)
  {
    MeshSends.RefusedExactly(n.t, n.work.outbound[0], now);
  }

  /** A transfer the daemon still carries changes nothing; one it finished releases its channel. */
  lemma CheckAnsweredExactly(n: Node, pending: bool)
    requires Enabled(n, CheckAnswered(pending))
    ensures var after, c := Next(n, CheckAnswered(pending)), n.work.checks[0];
            && after.work == n.work.(checks := n.work.checks[1..])
            && (pending || !MeshSends.AwaitedAt(n.t, c.sequence, c.destination) ==> after.t == n.t)
            && (!pending && MeshSends.AwaitedAt(n.t, c.sequence, c.destination)
                && n.t.pending[c.sequence].awaiting[c.destination].transfer == Some(c.handle) ==>
                  && MeshSends.AwaitedAt(after.t, c.sequence, c.destination) && !after.t.pending[c.sequence].blocks
                  && after.t.pending[c.sequence].awaiting[c.destination].transfer == None)
  {
    MeshSends.CheckedExactly(n.t, n.work.checks[0]);
  }

  ghost predicate Starts(phase: Phase, plan: Plan) { phase.Sending? && phase.plan == plan && phase.next == 0 && !phase.admitted }

  /** A new sample is sent from its first target on; when its plan hands the turn on, the turn is spent first. */
  lemma SendStarts(n: Node, swarm: nat, tag: nat, now: Time)
    requires Enabled(n, Enqueue(swarm, tag, now))
    ensures var after, plan := Next(n, Enqueue(swarm, tag, now)), n.work.job.value.phase.plan;
            && after.work.job.Some?
            && (if plan.consumes
                then Enabled(after, SpendTurn(now)) && Next(after, SpendTurn(now)).work.job.Some?
                     && Starts(Next(after, SpendTurn(now)).work.job.value.phase, plan)
                else Starts(after.work.job.value.phase, plan))
  {}

  /** One target after the other: an admitted copy is recorded next and counts for the sample, a refused or failed
      one is put off; only a refusal marks the peer busy. */
  lemma CopyAnswered(n: Node, answer: SendAnswer, now: Time)
    requires Enabled(n, FirstSendAnswered(answer, now))
    ensures var after, phase := Next(n, FirstSendAnswered(answer, now)), n.work.job.value.phase;
            var sequence, peer := phase.plan.sequence, phase.plan.targets[phase.next];
            && after.work == n.work.(job := after.work.job, held := after.work.held)
            && after.work.job == Some(n.work.job.value.(phase := phase.(next := phase.next + 1, admitted := phase.admitted || answer.Admitted?)))
            && (after.work.held.Some? <==> answer.Admitted?)
            && (answer.Admitted? ==> after.t == n.t && Holds(after.work.held, sequence, peer, answer.handle))
            && (!answer.Admitted? ==>
                  && after.t == n.t.(pending := after.t.pending, peers := after.t.peers) && PutOff(after.t, sequence, peer, now)
                  && (if answer.Refused? then MeshSends.OnlyBusy(n.t, peer, now + 250, after.t) else after.t.peers == n.t.peers))
  {
    var plan := n.work.job.value.phase.plan;
    MeshSends.FailedExactly(n.t, plan.sequence, plan.targets[n.work.job.value.phase.next], answer.Refused?, now);
  }

  /** After the last target the sample stays if a copy was admitted; otherwise it goes and its value waits again,
      unless a newer one already does, and a spent turn comes back. */
  lemma SendFinishes(n: Node)
    requires Enabled(n, FinishSend)
    ensures var after, job := Next(n, FinishSend), n.work.job.value; var plan, channel := job.phase.plan, ChannelOf(job.offer.bridge);
            && after.work == n.work.(job := None)
            && (job.phase.admitted ==> after.t == n.t)
            && (!job.phase.admitted ==>
                  && after.t.pending == n.t.pending - {plan.sequence}
                  && channel in after.t.latest
                  && after.t.latest[channel] == (if job.resumed && channel in n.t.latest then n.t.latest[channel] else job.offer)
                  && (plan.consumes ==> channel in after.t.turns && after.t.turns[channel].permitted)
                  && (!plan.consumes ==> after.t.turns == n.t.turns))
  {}
}
