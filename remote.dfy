/** The conferencing unit as the booking sees it: every call is recorded, a call
    either succeeds or fails with the fault code scripted for its position, and
    the enumerations read fixed pages. The global conference id source. */
module Remote {
  import opened McuTypes
  import opened Enumeration

  class Mcu {
    /** The calls issued so far, oldest first. */
    var log: seq<Call>
    /** The fault code of the call at each faulting position of the log. */
    const faults: map<nat, int>
    const conferencePages: seq<seq<ConferenceRecord>>
    const participantPages: seq<seq<ParticipantRecord>>

    constructor(faults: map<nat, int>, conferencePages: seq<seq<ConferenceRecord>>,
                participantPages: seq<seq<ParticipantRecord>>)
      ensures log == [] && this.faults == faults
      ensures this.conferencePages == conferencePages && this.participantPages == participantPages
    {
      log := [];
      this.faults := faults;
      this.conferencePages := conferencePages;
      this.participantPages := participantPages;
    }

    /** The fault of the call at position `k`, if it faults. */
    function FaultAt(k: nat): (f: Option<int>)
      ensures f.Some? <==> k in faults
      ensures f.Some? ==> f.value == faults[k]
    {
      if k in faults then Some(faults[k]) else None
    }

    /** No call at a position in `[from, to)` faults. */
    predicate Clean(from: nat, to: nat)
    {
      forall k :: from <= k < to ==> k !in faults
    }

    /** A clean run extended by a call that does not fault is clean. */
    lemma CleanStep(from: nat, to: nat)
      requires Clean(from, to) && to !in faults
      ensures Clean(from, to + 1)
    {
    }

    /** Two adjacent clean runs make one. */
    lemma CleanJoin(from: nat, mid: nat, to: nat)
      requires Clean(from, mid) && Clean(mid, to)
      ensures Clean(from, to)
    {
    }

    /** The calls since position `from` ran cleanly up to the last one, which faulted. */
    predicate FaultedLast(from: nat)
      reads this
    {
      from < |log| && Clean(from, |log| - 1) && |log| - 1 in faults
    }

    /** The fault code of the last call issued. */
    function LastFault(): int
      requires |log| > 0 && |log| - 1 in faults
      reads this
    {
      faults[|log| - 1]
    }

    /** Issues `c`; the answer is its fault, if any. */
    method Issue(c: Call) returns (fault: Option<int>)
      modifies this
      ensures log == old(log) + [c]
      ensures fault == FaultAt(|old(log)|)
    {
      fault := FaultAt(|log|);
      log := log + [c];
    }

    /** `conference.enumerate` with a cursor. */
    method EnumerateConferences(cursor: Option<nat>) returns (r: Reply<Answer<ConferenceRecord>>)
      modifies this
      ensures log == old(log) + [ConferenceEnumerate(cursor)]
      ensures r == if |old(log)| in faults then Failed(faults[|old(log)|]) else Ok(PageAnswer(conferencePages, cursor))
    {
      var fault := Issue(ConferenceEnumerate(cursor));
      r := if fault.Some? then Failed(fault.value) else Ok(PageAnswer(conferencePages, cursor));
    }

    /** `participant.enumerate` with a cursor. */
    method EnumerateParticipants(cursor: Option<nat>) returns (r: Reply<Answer<ParticipantRecord>>)
      modifies this
      ensures log == old(log) + [ParticipantEnumerate(cursor)]
      ensures r == if |old(log)| in faults then Failed(faults[|old(log)|]) else Ok(PageAnswer(participantPages, cursor))
    {
      var fault := Issue(ParticipantEnumerate(cursor));
      r := if fault.Some? then Failed(fault.value) else Ok(PageAnswer(participantPages, cursor));
    }
  }

  /** The plug-in's global source of conference ids: each request yields the next one. */
  class ConferenceIdSource {
    var next: int

    constructor(first: int)
      ensures next == first
    {
      next := first;
    }

    method NewConferenceId() returns (id: int)
      modifies this
      ensures id == old(next) && next == old(next) + 1
    {
      id := next;
      next := next + 1;
    }
  }
}
