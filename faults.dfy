/** The fault classifier: which faults of the unit are fatal, soft, retried or ignored. */
module FaultPolicy {
  import opened McuTypes

  const AuthorizationFault := 14
  const DuplicateName := 2
  const TooManyConferences := 6
  const DuplicateId := 18
  const DuplicateParticipant := 3
  const TooManyParticipants := 7
  const NotConnected := 201
  const NoSuchParticipant := 5
  const NoSuchConference := 4

  /** The decision table of `handleFault`, for a fault `code` met during `op`;
      `autoId` says whether the conference id was generated rather than chosen. */
  function Classify(op: Operation, code: int, autoId: bool): Action
  {
    if code == AuthorizationFault then Fatal(Authorization)
    else match op
      case Create | Modify =>
        if code == DuplicateName || code == TooManyConferences then Soft
        else if code == DuplicateId then (if autoId then Retry else Soft)
        else Fatal(Problem(op))
      case Add =>
        if code == DuplicateParticipant || code == TooManyParticipants then Soft
        else Fatal(Problem(Add))
      case Stop =>
        if code == NotConnected || code == NoSuchParticipant then Ignore
        else Fatal(Problem(Stop))
      case Delete | ModifyParticipant | Remove | Start => Fatal(Problem(op))
  }

  /** The outcome a caller of `handleFault` returns for a soft or fatal fault. */
  function Settle(a: Action, code: int, info: Option<string>): (r: Outcome)
    requires a.Fatal? || a.Soft?
    ensures r.SoftError? <==> a.Soft?
    ensures a.Soft? ==> r.error == McuError(FaultCode(code), info)
    ensures a.Fatal? ==> r == Raised(McuFailure(a.reason, code))
  {
    if a.Soft? then SoftError(McuError(FaultCode(code), info)) else Raised(McuFailure(a.reason, code))
  }

  lemma AuthorizationAlwaysFatal(op: Operation, autoId: bool)
    ensures Classify(op, AuthorizationFault, autoId) == Fatal(Authorization)
  {
  }

  lemma CreateModifyFaults(op: Operation, code: int, autoId: bool)
    requires op == Create || op == Modify
    requires code != AuthorizationFault
    ensures Classify(op, code, autoId) == Soft <==>
              code == DuplicateName || code == TooManyConferences || (code == DuplicateId && !autoId)
    ensures Classify(op, code, autoId) == Retry <==> code == DuplicateId && autoId
    ensures Classify(op, code, autoId) == Fatal(Problem(op)) <==>
              code != DuplicateName && code != TooManyConferences && code != DuplicateId
  {
  }

  lemma AddFaults(code: int, autoId: bool)
    requires code != AuthorizationFault
    ensures Classify(Add, code, autoId) == Soft <==> code == DuplicateParticipant || code == TooManyParticipants
    ensures Classify(Add, code, autoId) == Fatal(Problem(Add)) <==>
              code != DuplicateParticipant && code != TooManyParticipants
  {
  }

  lemma StopFaults(code: int, autoId: bool)
    requires code != AuthorizationFault
    ensures Classify(Stop, code, autoId) == Ignore <==> code == NotConnected || code == NoSuchParticipant
    ensures Classify(Stop, code, autoId) == Fatal(Problem(Stop)) <==>
              code != NotConnected && code != NoSuchParticipant
  {
  }

  lemma AlwaysFatalOperations(op: Operation, code: int, autoId: bool)
    requires op == Delete || op == ModifyParticipant || op == Remove || op == Start
    ensures Classify(op, code, autoId).Fatal?
    ensures code != AuthorizationFault ==> Classify(op, code, autoId) == Fatal(Problem(op))
  {
  }

  /** Only a duplicate id under create or modify with a generated id is retried,
      and only a stop fault is ever ignored. */
  lemma RetryAndIgnoreAreNarrow(op: Operation, code: int, autoId: bool)
    ensures Classify(op, code, autoId) == Retry <==> (op == Create || op == Modify) && code == DuplicateId && autoId
    ensures Classify(op, code, autoId) == Ignore <==> op == Stop && (code == NotConnected || code == NoSuchParticipant)
  {
  }
}
