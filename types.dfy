/** Values shared by the booking, the remote unit and the pure components:
    participants, remote calls, enumeration records, faults and outcomes. */
module McuTypes {

  datatype Option<+T> = None | Some(value: T)

  /** A numeric identifier as the booking holds it: unset, still the text the
      user typed, or the integer it was converted to. */
  datatype IdValue = NoValue | Text(text: string) | Number(number: int)

  /** The two participant variants with the fields the booking inspects. */
  datatype Details =
    | Person(familyName: string, firstName: string, affiliation: string, ip: string)
    | Room(roomName: string, ip: string)

  /** A local participant: its locally allocated id and its details. */
  datatype Participant = Participant(id: int, details: Details)

  /** One element of the list handed to `setParticipants`. */
  datatype ParticipantEntry = ParticipantEntry(participantId: Option<int>, details: Details)

  /** The naming rules of the participant classes, whose code is not part of
      this model: the unit-addressable participant name and the display name. */
  datatype Naming = Naming(participantName: Participant -> string, displayName: Participant -> string)

  /** What the unit reports about one participant of a conference. */
  datatype RemoteParticipant = RemoteParticipant(displayName: string, ip: string)

  /** One record of a `participant.enumerate` answer. */
  datatype ParticipantRecord =
    ParticipantRecord(conferenceName: string, participantName: string, displayName: string, address: string)

  /** One record of a `conference.enumerate` answer; `startTime` is the unit's
      naive wall-clock time and a zero `durationSeconds` stands for a missing one. */
  datatype ConferenceRecord =
    ConferenceRecord(conferenceName: string, description: string, numericId: string, pin: string,
                     startTime: Option<int>, durationSeconds: int)

  /** An enumeration answer: the items of one page and the continuation cursor. */
  datatype Answer<T> = Answer(items: seq<T>, enumerateId: Option<nat>)

  /** The reply of a remote call: an answer or a fault code. */
  datatype Reply<T> = Ok(answer: T) | Failed(code: int)

  datatype Scope = ActiveState | ConfiguredState

  /** Every remote call the booking can issue, with the parameters it sends. */
  datatype Call =
    | ConferenceCreate(conferenceName: string, numericId: IdValue, startTime: int, durationSeconds: int,
                       pin: Option<string>, description: string)
    | ConferenceModify(oldConferenceName: Option<string>, newConferenceName: string, numericId: IdValue,
                       startTime: int, durationSeconds: int, pin: Option<string>, description: string)
    | ConferenceDestroy(conferenceName: string)
    | ConferenceEnumerate(cursor: Option<nat>)
    | ParticipantAdd(conferenceName: string, participantName: string, displayName: string, address: string)
    | ParticipantModify(conferenceName: string, participantName: string, displayName: string, scope: Scope)
    | ParticipantRemove(conferenceName: string, participantName: string)
    | ParticipantConnect(conferenceName: string, participantName: string)
    | ParticipantDisconnect(conferenceName: string, participantName: string)
    | ParticipantEnumerate(cursor: Option<nat>)

  /** The operation names under which a fault is classified. */
  datatype Operation = Create | Modify | Delete | Add | ModifyParticipant | Remove | Start | Stop

  /** Why a fault is raised: the authorization fault, or a problem during an operation. */
  datatype Reason = Authorization | Problem(op: Operation)

  /** What the booking does with a fault. */
  datatype Action = Fatal(reason: Reason) | Soft | Retry | Ignore

  datatype ErrorCode = FaultCode(code: int) | TooManyTries

  /** A soft error returned to the caller, with the offending address or name when known. */
  datatype McuError = McuError(error: ErrorCode, info: Option<string>)

  /** What propagates as an exception out of a booking operation. */
  datatype Exception =
    | McuFailure(reason: Reason, code: int)   // raised by the fault handler
    | RemoteFault(code: int)                  // a fault re-raised unclassified by an enumeration
    | CannotStart
    | CannotStop

  /** The end of a booking operation: normal return, a returned soft error, or an exception. */
  datatype Outcome = Done | SoftError(error: McuError) | Raised(exception: Exception)

  /** No element occurs twice. */
  predicate Distinct<T(==)>(xs: seq<T>)
  {
    forall i, j :: 0 <= i < j < |xs| ==> xs[i] != xs[j]
  }

  /** Dropping the last element of a sequence without repetitions leaves one without
      repetitions that lacks that element. */
  lemma DistinctInit<T>(xs: seq<T>)
    requires Distinct(xs) && xs != []
    ensures Distinct(xs[..|xs| - 1]) && xs[|xs| - 1] !in xs[..|xs| - 1]
    ensures forall x :: x in xs <==> x in xs[..|xs| - 1] || x == xs[|xs| - 1]
  {
    assert xs == xs[..|xs| - 1] + [xs[|xs| - 1]];
  }

  /** Appending an element not yet present keeps a sequence without repetitions. */
  lemma DistinctSnoc<T>(xs: seq<T>, x: T)
    requires Distinct(xs) && x !in xs
    ensures Distinct(xs + [x])
  {
    var ys := xs + [x];
    forall i, j | 0 <= i < j < |ys|
      ensures ys[i] != ys[j]
    {
      if j == |xs| {
        assert ys[i] in xs;
      } else {
        assert ys[i] == xs[i] && ys[j] == xs[j];
      }
    }
  }

  /** `order` lists every element of `s` exactly once: the order a loop over a
      dictionary or a set happened to visit it in. */
  predicate IsOrdering<T(==)>(order: seq<T>, s: set<T>)
  {
    && Distinct(order)
    && (forall x :: x in order ==> x in s)
    && (forall x :: x in s ==> x in order)
  }

  /** Takes some element of a non-empty set: the unspecified iteration order of a dictionary or a set. */
  method Pick<T>(s: set<T>) returns (x: T)
    requires s != {}
    ensures x in s
  {
    x :| x in s;
  }

  /** Some element of a non-empty set, for proofs. */
  lemma Choose<T>(s: set<T>) returns (x: T)
    requires s != {}
    ensures x in s
  {
    x :| x in s;
  }
}
