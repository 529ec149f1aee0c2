/** Turn Runtimes: what a stored Runtime must look like and how a save may change it. */
module Turns {
  import opened Model
  import opened Options

  // A Turn claimed after the deadline: no Before Facts, no claim, nothing launched.
  predicate DeadlinePending(rt: Runtime) {
    && rt.business.Some? && rt.role.Some? && rt.before.None?
    && rt.phase.Starting? && rt.outcome.None? && rt.terminal.None?
    && rt.nonce.None? && rt.claim.None?
  }

  predicate ValidWorker(rt: Runtime) {
    && rt.role.Some? && rt.business.Some?
    && rt.generation.Some? && rt.generation.value >= 1 && rt.claim.None?
    && (rt.evidence.completed ==> rt.evidence.started && !rt.evidence.permission)
    && (rt.runner.Some? ==> rt.supervisor.Some?)
    && (rt.phase.Running? ==> rt.nonce.Some? && rt.supervisor.Some? && rt.runner.Some?)
    && (rt.phase.Starting? || rt.phase.Running? ==> rt.ending == NotEnded && rt.evidence == NoEvidence)
    && (rt.phase.Finalized? ==> rt.ending.quiescent == Some(true))
    && (rt.phase.RecoveryRequired? ==> rt.ending.quiescent.Some?)
  }

  predicate ValidOrigin(rt: Runtime) {
    && rt.generation.None? && rt.nonce.None? && rt.supervisor.None? && rt.runner.None?
    && rt.evidence == NoEvidence && rt.ending == NotEnded
    && (if rt.business.Some? && rt.role.Some? && rt.before.None?
           && ((rt.phase.Finalized? && rt.outcome == Some(Cancelled)) || DeadlinePending(rt))
        then rt.claim.None? else rt.claim.Some?)
    && !rt.phase.RecoveryRequired?
    && (rt.role.None? ==> rt.business.None? && rt.before.None? && rt.after.None?)
    && (rt.role.Some? ==> rt.business.Some?)
  }

  predicate Ended(phase: Phase) { phase.Exited? || phase.Finalized? || phase.RecoveryRequired? }

  predicate ValidRuntime(team: Team, rt: Runtime) {
    && (rt.business.Some? ==> rt.business.value >= 1)
    && rt.input.kind in {KickoffKind, HandoffKind, ResumeKind, BlockKind}
    && (if rt.executor.ByWorker? then ValidWorker(rt) else ValidOrigin(rt))
    && (rt.business.Some? && rt.before.None? ==>
          || DeadlinePending(rt)
          || (rt.phase.Finalized? && rt.outcome == Some(Cancelled)
              && (rt.executor.ByOrigin? || rt.ending.kind == Some(DeadlineExit))))
    && (Ended(rt.phase) ==> rt.outcome.Some? && rt.terminal.Some?)
    && (!Ended(rt.phase) ==> rt.outcome.None? && rt.terminal.None?)
    && (rt.terminal.Some? ==> !rt.terminal.value.kind.KickoffKind?)
    && (rt.role.Some? ==>
          && rt.role.value in team.roles
          && team.roles[rt.role.value].binding == (if rt.executor.ByWorker? then External else Origin))
  }

  predicate KeptOnce<T(==)>(before: Option<T>, after: Option<T>) {
    before.Some? ==> after == before
  }

  predicate PhaseMoves(before: Phase, after: Phase) {
    match before
    case Starting => true
    case Running => !after.Starting?
    case Exited => Ended(after)
    case RecoveryRequired => after.RecoveryRequired? || after.Finalized?
    case Finalized => after.Finalized?
  }

  // The fields a claim fixes for good.
  predicate SameClaim(before: Runtime, after: Runtime) {
    && after.turn == before.turn && after.business == before.business && after.input == before.input
    && after.role == before.role && after.executor == before.executor
    && after.generation == before.generation && after.before == before.before && after.claim == before.claim
  }

  predicate EvidenceGrows(before: Evidence, after: Evidence) {
    && (before.started ==> after.started)
    && (before.completed ==> after.completed)
    && (before.permission ==> after.permission)
    && KeptOnce(before.ref, after.ref)
  }

  predicate SaveAllowed(before: Runtime, after: Runtime) {
    && SameClaim(before, after)
    && PhaseMoves(before.phase, after.phase)
    && KeptOnce(before.nonce, after.nonce)
    && KeptOnce(before.supervisor, after.supervisor)
    && KeptOnce(before.runner, after.runner)
    && KeptOnce(before.after, after.after)
    && KeptOnce(before.ending.exitCode, after.ending.exitCode)
    && KeptOnce(before.ending.kind, after.ending.kind)
    && KeptOnce(before.outcome, after.outcome)
    && KeptOnce(before.terminal, after.terminal)
    && EvidenceGrows(before.evidence, after.evidence)
    && (before.ending.quiescent == Some(true) ==> after.ending.quiescent == Some(true))
  }

  // The outcome a Turn's Runtime must record for the event that ended it.
  function OutcomeOf(body: Body): Outcome {
    match body
    case Cancel => Cancelled
    case Block(reason, limit) =>
      (match reason
       case Agent => Success
       case Limit => if limit == Some(Deadline) then Cancelled else Stalled
       case NoAction => Stalled
       case _ => Failed)
    case _ => Success
  }

  predicate Active(phase: Phase) { !phase.Finalized? }
}
