/** Session snapshots: one generation per role, fresh or resumed. */
module Sessions {
  import opened Model
  import opened Options

  function Lookup(sessions: map<RoleId, Session>, role: RoleId): Option<Session> {
    if role in sessions then Some(sessions[role]) else None
  }

  function NextGeneration(current: Option<Session>): nat {
    if current.Some? then current.value.generation + 1 else 1
  }

  // The generation the next claim of a role gets.
  function LaunchGeneration(policy: SessionPolicy, current: Option<Session>): nat {
    if policy.Resumable? && current.Some? && current.value.ref.Some? then current.value.generation
    else NextGeneration(current)
  }

  // The generation a route to a role must prepare; `source` is the generation
  // of the routing Turn when that Turn belongs to the target role.
  function RouteGeneration(policy: SessionPolicy, current: Option<Session>, source: Option<nat>): nat {
    var g := LaunchGeneration(policy, current);
    if source.Some? && policy.Fresh? && source.value + 1 > g then source.value + 1 else g
  }

  datatype CommitError =
    | OlderTurn | NotFirst | Skipped | Revived | RefChanged | AlreadyCommitted
    | NoReason | NoSession | OtherGeneration | OtherTurn | NotFresh
  datatype SessionWrite = Written(session: Session) | Refused(why: CommitError)

  function CommitSession(current: Option<Session>, turn: nat, generation: nat, ref: Ref): SessionWrite {
    if current.Some? && current.value.generation > generation then Refused(OlderTurn)
    else if current.None? && generation != 1 then Refused(NotFirst)
    else if current.Some? && generation != current.value.generation && generation != current.value.generation + 1
    then Refused(Skipped)
    else if current.Some? && current.value.ref.None? && generation == current.value.generation then Refused(Revived)
    else if current.Some? && current.value.generation == generation && current.value.ref != Some(ref)
    then Refused(RefChanged)
    else
      var created := if current.Some? && current.value.generation == generation then current.value.created else turn;
      Written(Session(generation, Some(ref), None, created, turn))
  }

  function MarkUnavailable(current: Option<Session>, turn: nat, generation: nat, reason: string): SessionWrite {
    if reason == "" then Refused(NoReason)
    else if current.None? then Refused(NoSession)
    else if current.value.generation != generation then Refused(OtherGeneration)
    else if current.value.ref.None? then
      if current.value.updated == turn && current.value.reason == Some(reason) then Written(current.value)
      else Refused(OtherTurn)
    else Written(current.value.(ref := None, reason := Some(reason), updated := turn))
  }

  const CANDIDATE_FAILED := "candidate_activation_failed"

  function RecordCandidateFailure(policy: SessionPolicy, current: Option<Session>, turn: nat, generation: nat): SessionWrite {
    if !policy.Fresh? then Refused(NotFresh)
    else if current.Some? && current.value.generation > generation then Refused(OlderTurn)
    else if current.None? && generation != 1 then Refused(NotFirst)
    else if current.Some? && current.value.generation == generation then
      if current.value.ref.None? && current.value.updated == turn && current.value.reason == Some(CANDIDATE_FAILED)
      then Written(current.value)
      else Refused(AlreadyCommitted)
    else if current.Some? && generation != current.value.generation + 1 then Refused(Skipped)
    else Written(Session(generation, None, Some(CANDIDATE_FAILED), turn, turn))
  }

  // validate_session
  predicate ValidSession(c: Session) {
    c.generation >= 1 && (c.ref.Some? <==> c.reason.None?) && c.reason != Some("")
  }

  // What the claim protocol guarantees about the latest claimed Turn of a role.
  predicate InStep(policy: SessionPolicy, current: Option<Session>, turn: nat, generation: nat) {
    match current
    case None => generation == 1
    case Some(c) =>
      && c.generation <= generation <= c.generation + 1
      && (c.generation == generation && c.ref.None? ==> c.updated == turn)
      && (c.generation < generation && policy.Resumable? ==> c.ref.None?)
  }

  // A claim is in step with the Session it was computed from.
  lemma ClaimInStep(policy: SessionPolicy, current: Option<Session>, turn: nat)
    ensures InStep(policy, current, turn, LaunchGeneration(policy, current))
  {
  }
}
