/** The booking of a conference on the conferencing unit: the local record, kept in
    step with the unit through create, modify, delete, start, stop and status queries. */
module Collaboration {
  import opened McuTypes
  import opened FaultPolicy
  import opened Timing
  import opened Text
  import opened Validation
  import opened ParticipantMap
  import opened Enumeration
  import opened Reconcile
  import opened Remote

  datatype StatusMessage = NoStatus | BookingCreated | ReadyToStart | AlreadyTookPlace | ConferenceStarted | ConferenceStopped
  datatype StatusClass = NoClass | StatusOk | StatusOther

  /** The booking fields a create sets when it goes through. */
  datatype CreationFields = CreationFields(created: bool, bookingId: IdValue, oldName: Option<string>,
                                           canBeStarted: bool, statusMessage: StatusMessage)

  /** The message of the soft error returned when the id retries are exhausted. */
  const CouldNotObtainId := "Could not obtain ID"

  /** The cap on conference ids tried for one booking with a generated id. */
  const MaxCreationTries := 100

  /** The description a booking keeps after a status query: the unit's, unless the unit's is
      as long as its field allows and the local description starts with it, that is, the unit
      stored a cut-off copy of the local one. */
  function AdoptedDescription(remote: string, local: string): (d: string)
    ensures d == remote || d == local
    ensures |remote| < MaxFieldLength ==> d == remote
    ensures !(remote <= local) ==> d == remote
    ensures MaxFieldLength <= |remote| && remote <= local ==> d == local
  {
    if |remote| < MaxFieldLength || !(remote <= local) then remote else local
  }

  /** The connect calls of a start, one per participant of `list`, in order. */
  function ConnectCalls(conf: string, naming: Naming, list: seq<Participant>): (calls: seq<Call>)
    ensures |calls| == |list|
  {
    if list == [] then []
    else ConnectCalls(conf, naming, list[..|list| - 1]) + [ParticipantConnect(conf, naming.participantName(list[|list| - 1]))]
  }

  /** The disconnect calls of a stop, one per participant of `list`, in order. */
  function DisconnectCalls(conf: string, naming: Naming, list: seq<Participant>): (calls: seq<Call>)
    ensures |calls| == |list|
  {
    if list == [] then []
    else DisconnectCalls(conf, naming, list[..|list| - 1]) + [ParticipantDisconnect(conf, naming.participantName(list[|list| - 1]))]
  }

  /** The `i`-th call of a start connects the `i`-th participant. */
  lemma {:induction false} ConnectCallsAt(conf: string, naming: Naming, list: seq<Participant>)
    ensures forall i :: 0 <= i < |list| ==> ConnectCalls(conf, naming, list)[i] == ParticipantConnect(conf, naming.participantName(list[i]))
    decreases |list|
  {
    if list != [] {
      ConnectCallsAt(conf, naming, list[..|list| - 1]);
    }
  }

  /** The `i`-th call of a stop disconnects the `i`-th participant. */
  lemma {:induction false} DisconnectCallsAt(conf: string, naming: Naming, list: seq<Participant>)
    ensures forall i :: 0 <= i < |list| ==> DisconnectCalls(conf, naming, list)[i] == ParticipantDisconnect(conf, naming.participantName(list[i]))
    decreases |list|
  {
    if list != [] {
      DisconnectCallsAt(conf, naming, list[..|list| - 1]);
    }
  }

  /** Every call of a position in `[from, to)` that faults does so with a fault a stop ignores. */
  predicate StopFaultsIgnored(faults: map<nat, int>, from: nat, to: nat, autoId: bool)
  {
    forall k :: from <= k < to && k in faults ==> Classify(Stop, faults[k], autoId) == Ignore
  }

  /** The most create calls a booking whose counter stands at `counter` still makes with generated ids. */
  function TriesLeft(counter: nat): nat
  {
    if counter < MaxCreationTries then MaxCreationTries - counter else 0
  }

  /** The soft error of a booking that ran out of id tries. */
  function OutOfIds(): (r: Outcome)
    ensures RanOutOfIds(r)
  {
    SoftError(McuError(TooManyTries, Some(CouldNotObtainId)))
  }

  /** `r` is the soft error of a booking that ran out of id tries. */
  predicate RanOutOfIds(r: Outcome)
  {
    r.SoftError? && r.error.error == TooManyTries
  }

  /** The participants whose name the unit still reports. */
  function Surviving(ps: map<int, Participant>, naming: Naming, remote: map<string, RemoteParticipant>)
    : (kept: map<int, Participant>)
    ensures forall k :: k in kept <==> k in ps && naming.participantName(ps[k]) in remote
    ensures forall k :: k in kept ==> kept[k] == ps[k]
  {
    map k | k in ps && naming.participantName(ps[k]) in remote :: ps[k]
  }

  /** One page of a participant enumeration: each record of conference `conf` with a
      non-empty participant name is filed under that name. */
  method AbsorbPage(acc: map<string, RemoteParticipant>, items: seq<ParticipantRecord>, conf: string)
    returns (found: map<string, RemoteParticipant>)
    ensures found == Absorb(acc, items, conf)
  {
    found := acc;
    var j := 0;
    while j < |items|
      invariant 0 <= j <= |items|
      invariant found == Absorb(acc, items[..j], conf)
    {
      var record := items[j];
      if record.conferenceName == conf && record.participantName != [] {
        found := found[record.participantName := RemoteParticipant(record.displayName, record.address)];
      }
      assert items[..j + 1][..j] == items[..j];
      j := j + 1;
    }
    assert items[..j] == items;
  }

  /** One page of a conference enumeration: the first record of conference `name`. */
  method ScanPage(items: seq<ConferenceRecord>, name: string) returns (result: Option<ConferenceRecord>)
    ensures result.Some? <==> FirstNamed(items, name).Some?
    ensures result.Some? ==> result.value == items[FirstNamed(items, name).value]
  {
    var j := 0;
    while j < |items|
      invariant 0 <= j <= |items|
      invariant forall i :: 0 <= i < j ==> items[i].conferenceName != name
    {
      if items[j].conferenceName == name {
        var f := FirstNamed(items, name);
        assert !(f.value < j) && !(j < f.value);
        return Some(items[j]);
      }
      j := j + 1;
    }
    return None;
  }

  /** The `k`-th call of a participant enumeration, issued with the cursor the previous
      answer carried: the log grows by that call, and a fault ends the enumeration. */
  method NextParticipantPage(mcu: Mcu, ghost log0: seq<Call>, ghost k: nat, cursor: Option<nat>)
    returns (reply: Reply<Answer<ParticipantRecord>>)
    requires mcu.log == log0 + ParticipantEnumerateCalls(k) && mcu.Clean(|log0|, |mcu.log|)
    requires cursor == CursorAt(k)
    modifies mcu
    ensures mcu.log == log0 + ParticipantEnumerateCalls(k + 1)
    ensures reply.Failed? ==> mcu.FaultedLast(|log0|) && reply.code == mcu.LastFault()
    ensures reply.Ok? ==> mcu.Clean(|log0|, |mcu.log|) && reply.answer == PageAnswer(mcu.participantPages, CursorAt(k))
  {
    reply := mcu.EnumerateParticipants(if cursor.Some? && cursor.value != 0 then cursor else None);
    assert (if cursor.Some? && cursor.value != 0 then cursor else None) == CursorAt(k);
    ParticipantCallsStep(log0, k);
    if reply.Ok? {
      mcu.CleanStep(|log0|, |log0| + k);
    }
  }

  /** Reads the participant enumeration page by page and collects the participants of
      conference `conf`; a fault ends the enumeration and is passed on as it is. */
  method QueryParticipants(mcu: Mcu, conf: string) returns (r: Reply<map<string, RemoteParticipant>>, ghost read: nat)
    modifies mcu
    ensures mcu.log == old(mcu.log) + ParticipantEnumerateCalls(read)
    ensures 0 < read <= PageCount(mcu.participantPages)
    ensures r.Ok? <==> mcu.Clean(|old(mcu.log)|, |mcu.log|)
    ensures r.Ok? ==> r.answer == Gathered(mcu.participantPages, conf) && read == PageCount(mcu.participantPages)
    ensures r.Failed? ==> mcu.FaultedLast(|old(mcu.log)|) && r.code == mcu.LastFault()
  {
    var pages := mcu.participantPages;
    ghost var log0 := mcu.log;
    var found: map<string, RemoteParticipant> := map[];
    var cursor: Option<nat> := None;
    ghost var k: nat := 0;
    while true
      invariant (k == 0 || k < |pages|) && cursor == CursorAt(k)
      invariant found == GatheredUpTo(pages, conf, k)
      invariant mcu.log == log0 + ParticipantEnumerateCalls(k)
      invariant mcu.Clean(|log0|, |mcu.log|)
      decreases |pages| - k
    {
      var reply := NextParticipantPage(mcu, log0, k, cursor);
      if reply.Failed? {
        return Failed(reply.code), k + 1;
      }
      GatheredStep(pages, conf, k);
      found := AbsorbPage(found, reply.answer.items, conf);
      if reply.answer.enumerateId.None? {
        LastPage(pages, k);
        return Ok(found), k + 1;
      }
      cursor := reply.answer.enumerateId;
      k := k + 1;
    }
  }

  /** The `k`-th call of a conference enumeration, issued with the cursor the previous
      answer carried, and the search of the page it reads: the log grows by that call, a
      fault ends the enumeration, and otherwise the page decides the search or passes it on. */
  method SearchConferencePage(mcu: Mcu, conf: string, ghost log0: seq<Call>, ghost k: nat, cursor: Option<nat>)
    returns (reply: Reply<Answer<ConferenceRecord>>, result: Option<ConferenceRecord>)
    requires k == 0 || k < |mcu.conferencePages|
    requires mcu.log == log0 + ConferenceEnumerateCalls(k) && mcu.Clean(|log0|, |mcu.log|)
    requires cursor == CursorAt(k)
    modifies mcu
    ensures mcu.log == log0 + ConferenceEnumerateCalls(k + 1)
    ensures reply.Failed? ==> && mcu.FaultedLast(|log0|) && reply.code == mcu.LastFault()
                              && k + 1 <= LocateFrom(mcu.conferencePages, conf, k).1
    ensures reply.Ok? ==> mcu.Clean(|log0|, |mcu.log|)
    ensures reply.Ok? && (result.Some? || reply.answer.enumerateId.None?) ==>
              LocateFrom(mcu.conferencePages, conf, k).0 == result && LocateFrom(mcu.conferencePages, conf, k).1 == k + 1
    ensures reply.Ok? && result.None? && reply.answer.enumerateId.Some? ==>
              && reply.answer.enumerateId == CursorAt(k + 1) && k + 1 < |mcu.conferencePages|
              && LocateFrom(mcu.conferencePages, conf, k + 1) == LocateFrom(mcu.conferencePages, conf, k)
  {
    reply := mcu.EnumerateConferences(if cursor.Some? && cursor.value != 0 then cursor else None);
    assert (if cursor.Some? && cursor.value != 0 then cursor else None) == CursorAt(k);
    ConferenceCallsStep(log0, k);
    if reply.Failed? {
      LocateReads(mcu.conferencePages, conf, k);
      return reply, None;
    }
    mcu.CleanStep(|log0|, |log0| + k);
    LocateStep(mcu.conferencePages, conf, k);
    result := ScanPage(reply.answer.items, conf);
  }

  /** Reads the conference enumeration until a page holds a conference named `conf`;
      a fault ends it and is passed on as it is. */
  method LocateConference(mcu: Mcu, conf: string) returns (r: Reply<Option<ConferenceRecord>>, ghost read: nat)
    modifies mcu
    ensures mcu.log == old(mcu.log) + ConferenceEnumerateCalls(read)
    ensures 0 < read <= LocateFrom(mcu.conferencePages, conf, 0).1
    ensures r.Ok? <==> mcu.Clean(|old(mcu.log)|, |mcu.log|)
    ensures r.Ok? ==> r.answer == LocateFrom(mcu.conferencePages, conf, 0).0 && read == LocateFrom(mcu.conferencePages, conf, 0).1
    ensures r.Failed? ==> mcu.FaultedLast(|old(mcu.log)|) && r.code == mcu.LastFault()
  {
    ghost var log0 := mcu.log;
    ghost var found := LocateFrom(mcu.conferencePages, conf, 0).0;
    ghost var total := LocateFrom(mcu.conferencePages, conf, 0).1;
    var cursor: Option<nat> := None;
    ghost var k: nat := 0;
    while true
      invariant (k == 0 || k < |mcu.conferencePages|) && cursor == CursorAt(k)
      invariant LocateFrom(mcu.conferencePages, conf, k).0 == found && LocateFrom(mcu.conferencePages, conf, k).1 == total
      invariant mcu.log == log0 + ConferenceEnumerateCalls(k)
      invariant mcu.Clean(|log0|, |mcu.log|)
      decreases |mcu.conferencePages| - k
    {
      var reply, result := SearchConferencePage(mcu, conf, log0, k, cursor);
      if reply.Failed? {
        return Failed(reply.code), k + 1;
      }
      if result.Some? || reply.answer.enumerateId.None? {
        return Ok(result), k + 1;
      }
      cursor := reply.answer.enumerateId;
      k := k + 1;
    }
  }

  class CSBooking {
    /** The unit and the plug-in's id source. */
    const mcu: Mcu
    const ids: ConferenceIdSource
    /** Helpers whose code is not part of this model: participant naming, address
        validation, the unit's UTC offset at an instant, the conversion of the unit's
        wall-clock time to an instant, and the event's booking window. */
    const naming: Naming
    const validIp: string -> bool
    const mcuOffset: int -> int
    const fromMcuTime: int -> int
    const minStartDate: int
    const maxEndDate: int
    /** The class-level default of `canBeNotifiedOfEventDateChanges`. */
    const notifiableByDefault: bool

    var name: string
    var description: string
    var bookingId: IdValue
    var startDate: int
    var endDate: int
    var oldName: Option<string>
    var pin: Option<string>
    var autoGeneratedId: bool
    var customId: IdValue
    var participants: map<int, Participant>
    var participantIdCounter: int
    var created: bool
    var creationTriesCounter: nat
    var hasBeenStarted: bool
    var canBeStarted: bool
    var canBeStopped: bool
    var statusMessage: StatusMessage
    var statusClass: StatusClass
    var needsToBeNotifiedOfDateChanges: bool
    var canBeNotifiedOfEventDateChanges: bool
    var error: bool
    var faultCode: Option<int>

    /** Every participant is filed under its own id, and every id is below the counter,
        so a fresh id never collides. */
    ghost predicate Valid()
      reads this`participants, this`participantIdCounter
    {
      forall k :: k in participants ==> participants[k].id == k && k < participantIdCounter
    }

    constructor(mcu: Mcu, ids: ConferenceIdSource, naming: Naming, validIp: string -> bool,
                mcuOffset: int -> int, fromMcuTime: int -> int, minStartDate: int, maxEndDate: int,
                notifiableByDefault: bool, name: string, description: string, startDate: int, endDate: int)
      ensures this.mcu == mcu && this.ids == ids && this.naming == naming && this.validIp == validIp
      ensures this.mcuOffset == mcuOffset && this.fromMcuTime == fromMcuTime
      ensures this.minStartDate == minStartDate && this.maxEndDate == maxEndDate
      ensures this.notifiableByDefault == notifiableByDefault
      ensures this.name == name && this.description == description && bookingId == Text([])
      ensures this.startDate == startDate && this.endDate == endDate
      ensures oldName == None && pin == None && !autoGeneratedId && customId == NoValue
      ensures participants == map[] && participantIdCounter == 1
      ensures !created && creationTriesCounter == 0 && !hasBeenStarted
      ensures !canBeStarted && !canBeStopped && faultCode == None
      ensures Valid()
    {
      this.mcu := mcu;
      this.ids := ids;
      this.naming := naming;
      this.validIp := validIp;
      this.mcuOffset := mcuOffset;
      this.fromMcuTime := fromMcuTime;
      this.minStartDate := minStartDate;
      this.maxEndDate := maxEndDate;
      this.notifiableByDefault := notifiableByDefault;
      this.name := name;
      this.description := description;
      bookingId := Text([]);
      this.startDate := startDate;
      this.endDate := endDate;
      oldName := None;
      pin := None;
      autoGeneratedId := false;
      customId := NoValue;
      participants := map[];
      participantIdCounter := 1;
      created := false;
      creationTriesCounter := 0;
      hasBeenStarted := false;
      canBeStarted := false;
      canBeStopped := false;
      statusMessage := NoStatus;
      statusClass := NoClass;
      needsToBeNotifiedOfDateChanges := false;
      canBeNotifiedOfEventDateChanges := notifiableByDefault;
      error := false;
      faultCode := None;
    }

    // ---- accessors ----

    /** The id is generated only when the user answered "yes". */
    method SetAutoGenerateId(answer: string)
      modifies this`autoGeneratedId
      ensures autoGeneratedId <==> answer == "yes"
      ensures AutoGenerateIdAnswer() == (if answer == "yes" then "yes" else "no")
    {
      autoGeneratedId := answer == "yes";
    }

    function AutoGenerateIdAnswer(): (answer: string)
      reads this`autoGeneratedId
      ensures answer == "yes" || answer == "no"
      ensures answer == "yes" <==> autoGeneratedId
    {
      if autoGeneratedId then "yes" else "no"
    }

    method SetCustomId(id: string)
      modifies this`customId
      ensures customId == Text(id)
    {
      customId := Text(id);
    }

    /** The user's id, or an empty one while the id is generated. */
    function CustomId(): (id: IdValue)
      reads this`autoGeneratedId, this`customId
      ensures autoGeneratedId ==> id == Text([])
      ensures !autoGeneratedId ==> id == customId
    {
      if autoGeneratedId then Text([]) else customId
    }

    /** A missing or blank pin is stored as the empty pin. */
    method SetPin(newPin: Option<string>)
      modifies this`pin
      ensures newPin.None? || IsBlank(newPin.value) ==> pin == Some([])
      ensures newPin.Some? && !IsBlank(newPin.value) ==> pin == newPin
      ensures HasPin() <==> newPin.Some? && !IsBlank(newPin.value)
    {
      if newPin.None? || newPin.value == [] || Strip(newPin.value) == [] {
        pin := Some([]);
      } else {
        pin := newPin;
      }
      if newPin.Some? {
        StripEmptyIffBlank(newPin.value);
      }
    }

    predicate HasPin()
      reads this`pin
    {
      pin.Some? && |pin.value| > 0
    }

    // ---- participants ----

    /** Replaces the participants: an entry naming a current id keeps it, every other
        entry takes the next value of the counter. */
    method SetParticipants(entries: seq<ParticipantEntry>)
      requires Valid()
      modifies this`participants, this`participantIdCounter
      ensures Rekeyed(participants, participantIdCounter)
              == Rekey(old(participants).Keys, old(participantIdCounter), entries)
      ensures Valid()
    {
      var previous := participants.Keys;
      ghost var counter0 := participantIdCounter;
      participants := map[];
      var i := 0;
      while i < |entries|
        invariant 0 <= i <= |entries|
        invariant Rekeyed(participants, participantIdCounter) == Rekey(previous, counter0, entries[..i])
      {
        var e := entries[i];
        var id: int;
        if e.participantId.None? || e.participantId.value !in previous {
          id := participantIdCounter;
          participantIdCounter := participantIdCounter + 1;
        } else {
          id := e.participantId.value;
        }
        participants := participants[id := Participant(id, e.details)];
        assert entries[..i + 1][..i] == entries[..i];
        i := i + 1;
      }
      assert entries[..i] == entries;
      RekeyKeepsIdsBelowCounter(previous, counter0, entries);
      RekeyCounter(previous, counter0, entries);
    }

    // ---- time ----

    /** The booking's length on the unit's wall clock. */
    function DurationSeconds(): (d: int)
      reads this`startDate, this`endDate
      ensures d == WallClock(endDate, mcuOffset) - WallClock(startDate, mcuOffset)
    {
      Timing.DurationSeconds(startDate, endDate, mcuOffset)
    }

    /** Sets the end so that the unit's wall clock sees the requested length. */
    method SetDurationSeconds(d: int)
      modifies this`endDate
      ensures endDate == EndForDuration(startDate, d, mcuOffset)
      ensures mcuOffset(endDate) == mcuOffset(startDate + d) ==> DurationSeconds() == d
    {
      endDate := EndForDuration(startDate, d, mcuOffset);
      EndRoundTrip(startDate, d, mcuOffset);
    }

    /** The conference as the create call sends it. */
    function CreateCall(id: IdValue): Call
      reads this`name, this`startDate, this`endDate, this`pin, this`description
    {
      ConferenceCreate(name, id, WallClock(startDate, mcuOffset), DurationSeconds(), pin, Slice(description, MaxFieldLength))
    }

    // ---- parameter check ----

    /** The checks on the name; a name that passes them is stripped. */
    method CheckName() returns (err: Option<ValidationError>)
      modifies this`name
      ensures err == NameError(old(name))
      ensures name == if err.Some? then old(name) else Strip(old(name))
    {
      var stripped := Strip(name);
      if stripped == [] {
        return Some(NameEmpty);
      }
      if |name| > MaxFieldLength {
        return Some(NameTooLong);
      }
      name := stripped;
      return None;
    }

    /** The checks on the booking's own fields, in the order `_checkBookingParams` makes
        them: the name is stripped once it passed its checks and the custom id becomes a
        number once it passed its checks. */
    method CheckFields(now: int) returns (err: Option<ValidationError>)
      modifies this`name, this`customId
      ensures err == FieldsError(old(name), description, autoGeneratedId, old(customId), pin, startDate, endDate,
                                 now, minStartDate, maxEndDate)
      ensures name == if NameError(old(name)).Some? then old(name) else Strip(old(name))
      ensures customId == if NameError(old(name)).Some? || Strip(description) == []
                             || autoGeneratedId || CustomIdError(old(customId)).Some?
                          then old(customId) else Number(ParseInteger(old(customId).text))
    {
      err := CheckName();
      if err.Some? {
        return;
      }
      if Strip(description) == [] {
        return Some(DescriptionEmpty);
      }
      if !autoGeneratedId {
        var idErr := CustomIdError(customId);
        if idErr.Some? {
          return idErr;
        }
        customId := Number(ParseInteger(customId.text));
      }
      err := PinError(pin);
      if err.None? {
        err := ScheduleError(startDate, endDate, now, minStartDate, maxEndDate);
      }
    }

    /** The pre-flight check: the booking's own fields, then its participants. The first
        problem found is returned. */
    method CheckBookingParams(now: int) returns (err: Option<ValidationError>)
      modifies this`name, this`customId
      ensures var fieldsErr := FieldsError(old(name), description, autoGeneratedId, old(customId), pin, startDate, endDate,
                                           now, minStartDate, maxEndDate);
        && (fieldsErr.Some? ==> err == fieldsErr)
        && (fieldsErr.None? ==> (err.None? <==> ParticipantsAcceptable(participants, naming, validIp)))
        && (fieldsErr.None? && err.Some? ==> Describes(participants, naming, validIp, err.value))
      ensures name == if NameError(old(name)).Some? then old(name) else Strip(old(name))
      ensures customId == if NameError(old(name)).Some? || Strip(description) == []
                             || autoGeneratedId || CustomIdError(old(customId)).Some?
                          then old(customId) else Number(ParseInteger(old(customId).text))
    {
      err := CheckFields(now);
      if err.None? {
        err := CheckParticipants(participants, naming, validIp);
      }
    }

    // ---- faults ----

    /** Records the fault and classifies it; a retried duplicate id counts one more try. */
    method HandleFault(op: Operation, code: int) returns (a: Action)
      modifies this`faultCode, this`creationTriesCounter
      ensures a == Classify(op, code, autoGeneratedId)
      ensures faultCode == Some(code)
      ensures creationTriesCounter == old(creationTriesCounter) + (if a == Retry then 1 else 0)
    {
      faultCode := Some(code);
      a := Classify(op, code, autoGeneratedId);
      if a == Retry {
        creationTriesCounter := creationTriesCounter + 1;
      }
    }

    // ---- start eligibility ----

    /** Inside the booked window and not yet started. */
    predicate StartableAt(now: int)
      reads this`startDate, this`endDate, this`hasBeenStarted
    {
      startDate < now < endDate && !hasBeenStarted
    }

    /** Recomputes whether the conference can start; only a created booking is touched. */
    method CheckCanStart(now: int, changeMessage: bool)
      modifies this`canBeStarted, this`canBeStopped, this`statusMessage, this`statusClass,
               this`needsToBeNotifiedOfDateChanges, this`canBeNotifiedOfEventDateChanges
      ensures !created ==>
                && canBeStarted == old(canBeStarted) && canBeStopped == old(canBeStopped)
                && statusMessage == old(statusMessage) && statusClass == old(statusClass)
                && needsToBeNotifiedOfDateChanges == old(needsToBeNotifiedOfDateChanges)
                && canBeNotifiedOfEventDateChanges == old(canBeNotifiedOfEventDateChanges)
      ensures created ==> canBeStarted == StartableAt(now)
      ensures created && StartableAt(now) ==>
                && !canBeStopped && needsToBeNotifiedOfDateChanges == old(needsToBeNotifiedOfDateChanges)
                && canBeNotifiedOfEventDateChanges == notifiableByDefault
                && (changeMessage ==> statusMessage == ReadyToStart && statusClass == StatusOk)
                && (!changeMessage ==> statusMessage == old(statusMessage) && statusClass == old(statusClass))
      ensures created && !StartableAt(now) ==>
                && canBeStopped == old(canBeStopped)
                && (now > endDate && changeMessage ==>
                      statusMessage == AlreadyTookPlace && statusClass == StatusOther
                      && !needsToBeNotifiedOfDateChanges && !canBeNotifiedOfEventDateChanges)
                && (!(now > endDate && changeMessage) ==>
                      statusMessage == old(statusMessage) && statusClass == old(statusClass)
                      && needsToBeNotifiedOfDateChanges == old(needsToBeNotifiedOfDateChanges)
                      && canBeNotifiedOfEventDateChanges == notifiableByDefault)
    {
      if created {
        canBeNotifiedOfEventDateChanges := notifiableByDefault;
        if startDate < now && endDate > now && !hasBeenStarted {
          canBeStarted := true;
          canBeStopped := false;
          if changeMessage {
            statusMessage := ReadyToStart;
            statusClass := StatusOk;
          }
        } else {
          canBeStarted := false;
          if now > endDate && changeMessage {
            statusMessage := AlreadyTookPlace;
            statusClass := StatusOther;
            needsToBeNotifiedOfDateChanges := false;
            canBeNotifiedOfEventDateChanges := false;
          }
        }
      }
    }

    // ---- single participant calls ----

    /** Adds `p` on the unit and connects it when the conference is running. A fault
        is classified as an add fault; a soft one carries `p`'s address. */
    method AddParticipant(p: Participant) returns (r: Outcome)
      modifies mcu, this`faultCode, this`creationTriesCounter
      ensures creationTriesCounter == old(creationTriesCounter)
      ensures var calls := AddCalls(name, naming, p, hasBeenStarted);
        && |old(mcu.log)| < |mcu.log| <= |old(mcu.log)| + |calls|
        && mcu.log == old(mcu.log) + calls[..|mcu.log| - |old(mcu.log)|]
        && (r.Done? <==> mcu.Clean(|old(mcu.log)|, |mcu.log|))
        && (r.Done? ==> mcu.log == old(mcu.log) + calls && faultCode == old(faultCode))
        && (!r.Done? ==>
              && mcu.FaultedLast(|old(mcu.log)|) && faultCode == Some(mcu.LastFault())
              && r == Settle(Classify(Add, mcu.LastFault(), autoGeneratedId), mcu.LastFault(), Some(p.details.ip)))
    {
      var participantName := naming.participantName(p);
      var fault := mcu.Issue(ParticipantAdd(name, participantName, naming.displayName(p), p.details.ip));
      if fault.None? && hasBeenStarted {
        fault := mcu.Issue(ParticipantConnect(name, participantName));
      }
      if fault.Some? {
        var a := HandleFault(Add, fault.value);
        r := Settle(a, fault.value, Some(p.details.ip));
      } else {
        r := Done;
      }
    }

    /** Changes a participant's display name, in the active state when the conference
        is running; every fault is fatal. */
    method ModifyParticipantDisplayName(participantName: string, displayName: string) returns (r: Outcome)
      modifies mcu, this`faultCode, this`creationTriesCounter
      ensures creationTriesCounter == old(creationTriesCounter)
      ensures mcu.log == old(mcu.log) + [ParticipantModify(name, participantName, displayName, ScopeFor(hasBeenStarted))]
      ensures r.Done? <==> |old(mcu.log)| !in mcu.faults
      ensures r.Done? ==> faultCode == old(faultCode)
      ensures !r.Done? ==> faultCode == Some(mcu.LastFault())
                           && r == Raised(McuFailure(Classify(ModifyParticipant, mcu.LastFault(), autoGeneratedId).reason,
                                                     mcu.LastFault()))
    {
      var scope := if hasBeenStarted then ActiveState else ConfiguredState;
      var fault := mcu.Issue(ParticipantModify(name, participantName, displayName, scope));
      if fault.Some? {
        var a := HandleFault(ModifyParticipant, fault.value);
        r := Settle(a, fault.value, Some(participantName));
      } else {
        r := Done;
      }
    }

    /** Removes a participant from the unit; every fault is fatal. */
    method RemoveParticipant(participantName: string) returns (r: Outcome)
      modifies mcu, this`faultCode, this`creationTriesCounter
      ensures creationTriesCounter == old(creationTriesCounter)
      ensures mcu.log == old(mcu.log) + [ParticipantRemove(name, participantName)]
      ensures r.Done? <==> |old(mcu.log)| !in mcu.faults
      ensures r.Done? ==> faultCode == old(faultCode)
      ensures !r.Done? ==> faultCode == Some(mcu.LastFault())
                           && r == Raised(McuFailure(Classify(Remove, mcu.LastFault(), autoGeneratedId).reason,
                                                     mcu.LastFault()))
    {
      var fault := mcu.Issue(ParticipantRemove(name, participantName));
      if fault.Some? {
        var a := HandleFault(Remove, fault.value);
        r := Settle(a, fault.value, None);
      } else {
        r := Done;
      }
    }

    // ---- delete ----

    /** Destroys the conference on the unit, under `renamedFrom` when a non-empty one is
        given (the booking is then being renamed, and stays created). A missing
        conference is not an error, but leaves the booking marked created. */
    method Delete(renamedFrom: Option<string>) returns (r: Outcome)
      modifies mcu, this`created, this`error, this`faultCode, this`creationTriesCounter
      ensures creationTriesCounter == old(creationTriesCounter)
      ensures !old(created) ==> r == Done && !error && mcu.log == old(mcu.log) && !created
      ensures old(created) ==>
                var renaming := renamedFrom.Some? && renamedFrom.value != [];
                && error == old(error)
                && mcu.log == old(mcu.log) + [ConferenceDestroy(if renaming then renamedFrom.value else name)]
                && (|old(mcu.log)| !in mcu.faults ==> r == Done && created == renaming && faultCode == old(faultCode))
                && (mcu.FaultAt(|old(mcu.log)|) == Some(NoSuchConference) ==> r == Done && created && faultCode == old(faultCode))
                && (|old(mcu.log)| in mcu.faults && mcu.faults[|old(mcu.log)|] != NoSuchConference ==>
                      created && faultCode == Some(mcu.LastFault())
                      && r == Raised(McuFailure(Classify(Operation.Delete, mcu.LastFault(), autoGeneratedId).reason,
                                                mcu.LastFault())))
    {
      if created {
        var renaming := renamedFrom.Some? && renamedFrom.value != [];
        var target := if renaming then renamedFrom.value else name;
        var fault := mcu.Issue(ConferenceDestroy(target));
        if fault.None? {
          if !renaming {
            created := false;
          }
          r := Done;
        } else if fault.value == NoSuchConference {
          r := Done;
        } else {
          var a := HandleFault(Operation.Delete, fault.value);
          r := Settle(a, fault.value, None);
        }
      } else {
        error := false;
        r := Done;
      }
    }
  
    // ---- status queries ----

    /** Drops the participants whose name the unit does not report. */
    method DropVanished(remote: map<string, RemoteParticipant>)
      requires Valid()
      modifies this`participants
      ensures Valid()
      ensures participants == Surviving(old(participants), naming, remote)
    {
      var pending := participants.Keys;
      ghost var snapshot := participants;
      while pending != {}
        invariant pending <= snapshot.Keys
        invariant forall k :: k in participants <==>
                    k in snapshot && (k in pending || naming.participantName(snapshot[k]) in remote)
        invariant forall k :: k in participants ==> participants[k] == snapshot[k]
        decreases pending
      {
        var k := Pick(pending);
        if naming.participantName(participants[k]) !in remote {
          participants := participants - {k};
        }
        pending := pending - {k};
      }
      forall k ensures k in participants <==> k in Surviving(snapshot, naming, remote) {
      }
      assert participants.Keys == Surviving(snapshot, naming, remote).Keys;
      forall k | k in participants ensures participants[k] == Surviving(snapshot, naming, remote)[k] {
      }
      assert participants == Surviving(snapshot, naming, remote);
    }

    /** The booking's description, numeric id, custom id, old name and pin after it took
        them over from a conference record: a description the unit cut off at its field
        length is kept as it was locally. */
    ghost predicate RecordAdopted(rec: ConferenceRecord, oldDescription: string, oldCustomId: IdValue)
      reads this`description, this`bookingId, this`customId, this`oldName, this`pin, this`name, this`autoGeneratedId
    {
      && description == AdoptedDescription(rec.description, oldDescription)
      && bookingId == Text(rec.numericId)
      && customId == (if autoGeneratedId then oldCustomId else Text(rec.numericId))
      && oldName == Some(name)
      && pin == Some(rec.pin)
    }

    /** The booking's dates after it took over a conference record's start and duration:
        a missing duration makes the booking end when it starts. */
    ghost predicate ScheduleAdopted(rec: ConferenceRecord, oldStart: int)
      reads this`startDate, this`endDate
    {
      && startDate == (if rec.startTime.Some? then fromMcuTime(rec.startTime.value) else oldStart)
      && endDate == (if rec.durationSeconds != 0 then EndForDuration(startDate, rec.durationSeconds, mcuOffset)
                     else startDate)
    }

    /** The booking after it adopted the state of a conference record, its participants
        restricted to those the unit reports. */
    ghost predicate AdoptedFrom(rec: ConferenceRecord, remote: map<string, RemoteParticipant>, oldDescription: string,
                                oldCustomId: IdValue, oldStart: int, oldParticipants: map<int, Participant>)
      reads this`description, this`bookingId, this`customId, this`oldName, this`pin, this`name, this`autoGeneratedId
      reads this`startDate, this`endDate, this`participants, this`created
    {
      && RecordAdopted(rec, oldDescription, oldCustomId)
      && ScheduleAdopted(rec, oldStart)
      && participants == Surviving(oldParticipants, naming, remote)
      && created
    }

    /** Takes over the unit's description (unless it is a cut-off prefix of the local
        one), numeric id and pin. */
    method AdoptRecord(rec: ConferenceRecord)
      modifies this`description, this`bookingId, this`customId, this`oldName, this`pin
      ensures RecordAdopted(rec, old(description), old(customId))
    {
      description := AdoptedDescription(rec.description, description);
      bookingId := Text(rec.numericId);
      if !autoGeneratedId {
        customId := bookingId;
      }
      oldName := Some(name);
      pin := Some(rec.pin);
    }

    /** Takes over the unit's start time, when it reports one, and its duration. */
    method AdoptSchedule(rec: ConferenceRecord)
      modifies this`startDate, this`endDate
      ensures ScheduleAdopted(rec, old(startDate))
    {
      if rec.startTime.Some? {
        startDate := fromMcuTime(rec.startTime.value);
      }
      if rec.durationSeconds != 0 {
        SetDurationSeconds(rec.durationSeconds);
      } else {
        endDate := startDate;
      }
    }

    /** Queries the unit's participants of this conference and drops the local ones it
        does not report; a fault is raised as it is. */
    method SyncParticipants() returns (r: Outcome, ghost read: nat)
      requires Valid()
      modifies mcu, this`participants
      ensures Valid()
      ensures mcu.log == old(mcu.log) + ParticipantEnumerateCalls(read)
      ensures 0 < read <= PageCount(mcu.participantPages)
      ensures r.Done? || r.Raised?
      ensures r.Done? <==> mcu.Clean(|old(mcu.log)|, |mcu.log|)
      ensures r.Done? ==> participants == Surviving(old(participants), naming, Gathered(mcu.participantPages, name))
                          && read == PageCount(mcu.participantPages)
      ensures r.Raised? ==> mcu.FaultedLast(|old(mcu.log)|) && r == Raised(RemoteFault(mcu.LastFault()))
                            && participants == old(participants)
    {
      var remote;
      remote, read := QueryParticipants(mcu, name);
      if remote.Failed? {
        return Raised(RemoteFault(remote.code)), read;
      }
      DropVanished(remote.answer);
      r := Done;
    }

    /** Takes over the state of a conference record and drops vanished participants. */
    method Adopt(rec: ConferenceRecord) returns (r: Outcome, ghost read: nat)
      requires Valid()
      modifies mcu, this`description, this`bookingId, this`customId, this`oldName, this`pin,
               this`participants, this`startDate, this`endDate, this`created
      ensures Valid()
      ensures mcu.log == old(mcu.log) + ParticipantEnumerateCalls(read)
      ensures r.Done? || r.Raised?
      ensures r.Done? <==> mcu.Clean(|old(mcu.log)|, |mcu.log|)
      ensures r.Done? ==> RecordAdopted(rec, old(description), old(customId))
      ensures r.Done? ==> ScheduleAdopted(rec, old(startDate))
      ensures r.Done? ==> participants == Surviving(old(participants), naming, Gathered(mcu.participantPages, name))
                          && created && read == PageCount(mcu.participantPages)
      ensures r.Raised? ==> mcu.FaultedLast(|old(mcu.log)|) && r == Raised(RemoteFault(mcu.LastFault()))
                            && participants == old(participants) && created == old(created)
    {
      AdoptRecord(rec);
      r, read := SyncParticipants();
      if r.Raised? {
        return;
      }
      AdoptSchedule(rec);
      created := true;
    }

    /** Looks the conference up on the unit: if found, the booking adopts its state and is
        marked created; if not, it is marked not created. A fault is passed on. */
    method QueryConference() returns (r: Outcome)
      requires Valid()
      modifies mcu, this`description, this`bookingId, this`customId, this`oldName, this`pin,
               this`participants, this`startDate, this`endDate, this`created
      ensures Valid()
      ensures r.Done? || r.Raised?
      ensures r.Done? <==> mcu.Clean(|old(mcu.log)|, |mcu.log|)
      ensures r.Raised? ==> |mcu.log| > 0 && mcu.FaultedLast(|old(mcu.log)|) && r == Raised(RemoteFault(mcu.LastFault()))
      ensures forall k :: k in participants ==> k in old(participants) && participants[k] == old(participants)[k]
      ensures r.Done? && LocateFrom(mcu.conferencePages, name, 0).0.None? ==>
                && mcu.log == old(mcu.log) + ConferenceEnumerateCalls(LocateFrom(mcu.conferencePages, name, 0).1)
                && !created && description == old(description) && bookingId == old(bookingId) && pin == old(pin)
                && participants == old(participants) && startDate == old(startDate) && endDate == old(endDate)
      ensures r.Done? && LocateFrom(mcu.conferencePages, name, 0).0.Some? ==>
                && mcu.log == old(mcu.log) + ConferenceEnumerateCalls(LocateFrom(mcu.conferencePages, name, 0).1)
                                           + ParticipantEnumerateCalls(PageCount(mcu.participantPages))
                && AdoptedFrom(LocateFrom(mcu.conferencePages, name, 0).0.value, Gathered(mcu.participantPages, name),
                               old(description), old(customId), old(startDate), old(participants))
    {
      var located, read := LocateConference(mcu, name);
      if located.Failed? {
        return Raised(RemoteFault(located.code));
      }
      if located.answer.None? {
        created := false;
        return Done;
      }
      ghost var mid := mcu.log;
      ghost var pread;
      r, pread := Adopt(located.answer.value);
      if r.Done? {
        assert mcu.log == old(mcu.log) + ConferenceEnumerateCalls(read) + ParticipantEnumerateCalls(pread);
      }
    }

    /** The status check: a created booking is looked up and its start eligibility recomputed. */
    method CheckStatus(now: int) returns (r: Outcome)
      requires Valid()
      modifies mcu, this`description, this`bookingId, this`customId, this`oldName, this`pin,
               this`participants, this`startDate, this`endDate, this`created,
               this`canBeStarted, this`canBeStopped, this`statusMessage, this`statusClass,
               this`needsToBeNotifiedOfDateChanges, this`canBeNotifiedOfEventDateChanges
      ensures Valid()
      ensures r.Done? || r.Raised?
      ensures !old(created) ==> r == Done && mcu.log == old(mcu.log) && !created && canBeStarted == old(canBeStarted)
                                && canBeStopped == old(canBeStopped) && participants == old(participants)
      ensures old(created) && r.Done? ==> (created ==> canBeStarted == StartableAt(now))
                                          && (!created ==> canBeStarted == old(canBeStarted))
      ensures old(created) && r.Done? && created && StartableAt(now) ==> !canBeStopped
      ensures r.Raised? ==> r.exception.RemoteFault?
      ensures created ==> old(created)
      ensures forall k :: k in participants ==> k in old(participants) && participants[k] == old(participants)[k]
    {
      if created {
        r := QueryConference();
        if r.Raised? {
          return;
        }
        CheckCanStart(now, true);
      } else {
        r := Done;
      }
    }

    // ---- create ----

    /** The participants listed by `order` were added one after the other, all cleanly,
        taking the log from `log0` to `log`; `pending` holds the ones still to add. */
    ghost predicate AddedSoFar(log0: seq<Call>, log: seq<Call>, order: seq<int>, pending: set<int>)
      reads this`participants, this`name, this`hasBeenStarted
    {
      && pending <= participants.Keys
      && Distinct(order) && (forall k :: k in order ==> k in participants && k !in pending)
      && (forall k :: k in participants && k !in pending ==> k in order)
      && log == log0 + AddEach(name, naming, participants, order, hasBeenStarted)
      && mcu.Clean(|log0|, |log|)
    }

    /** A clean add of the pending participant `k` extends the run. */
    lemma AddedOne(log0: seq<Call>, mid: seq<Call>, log: seq<Call>, order0: seq<int>, pending: set<int>, k: int)
      requires AddedSoFar(log0, mid, order0, pending) && k in pending
      requires log == mid + AddCalls(name, naming, participants[k], hasBeenStarted) && mcu.Clean(|mid|, |log|)
      ensures AddedSoFar(log0, log, order0 + [k], pending - {k})
    {
      var order := order0 + [k];
      assert order[..|order0|] == order0;
      assert AddEach(name, naming, participants, order, hasBeenStarted)
          == AddEach(name, naming, participants, order0, hasBeenStarted) + AddCalls(name, naming, participants[k], hasBeenStarted);
      assert k !in order0;
      assert Distinct(order) by {
        forall i, j | 0 <= i < j < |order|
          ensures order[i] != order[j]
        {
          if j == |order0| {
            assert order[i] in order0;
          } else {
            assert order[i] == order0[i] && order[j] == order0[j];
          }
        }
      }
      mcu.CleanJoin(|log0|, |mid|, |log|);
    }

    /** A faulting add of the pending participant `k` ends the run. */
    lemma FailedOne(r: Outcome, log0: seq<Call>, mid: seq<Call>, order0: seq<int>, pending: set<int>, k: int)
      requires AddedSoFar(log0, mid, order0, pending) && k in pending
      requires var calls := AddCalls(name, naming, participants[k], hasBeenStarted);
        && |mid| < |mcu.log| <= |mid| + |calls| && mcu.log == mid + calls[..|mcu.log| - |mid|]
        && mcu.FaultedLast(|mid|) && faultCode == Some(mcu.LastFault())
        && r == Settle(Classify(Add, mcu.LastFault(), autoGeneratedId), mcu.LastFault(), Some(participants[k].details.ip))
      ensures Distinct(order0 + [k]) && AddFailed(r, log0, order0 + [k])
    {
      assert (order0 + [k])[..|order0|] == order0;
      mcu.CleanJoin(|log0|, |mid|, |mcu.log| - 1);
    }

    /** The adds since `log0` went through for all of `order` but its last participant,
        whose add or connect faulted; `r` is what the fault handler made of it. */
    ghost predicate AddFailed(r: Outcome, log0: seq<Call>, order: seq<int>)
      reads mcu, this`participants, this`name, this`hasBeenStarted, this`faultCode, this`autoGeneratedId
    {
      && order != [] && (forall k :: k in order ==> k in participants)
      && mcu.FaultedLast(|log0|) && faultCode == Some(mcu.LastFault())
      && r == Settle(Classify(Add, mcu.LastFault(), autoGeneratedId), mcu.LastFault(),
                     Some(participants[order[|order| - 1]].details.ip))
      && |log0 + AddEach(name, naming, participants, order[..|order| - 1], hasBeenStarted)| < |mcu.log|
      && mcu.log <= log0 + AddEach(name, naming, participants, order, hasBeenStarted)
    }

    /** Adds every participant, in the order the dictionary yields them, and stops at
        the first one that does not go through. */
    method AddAll() returns (r: Outcome, ghost order: seq<int>)
      modifies mcu, this`faultCode, this`creationTriesCounter
      ensures creationTriesCounter == old(creationTriesCounter)
      ensures r.Done? <==> mcu.Clean(|old(mcu.log)|, |mcu.log|)
      ensures r.Done? ==> && IsOrdering(order, participants.Keys)
                          && mcu.log == old(mcu.log) + AddEach(name, naming, participants, order, hasBeenStarted)
                          && faultCode == old(faultCode)
      ensures !r.Done? ==> Distinct(order) && AddFailed(r, old(mcu.log), order)
    {
      ghost var log0 := mcu.log;
      var pending := participants.Keys;
      order := [];
      while pending != {}
        invariant AddedSoFar(log0, mcu.log, order, pending)
        invariant faultCode == old(faultCode) && creationTriesCounter == old(creationTriesCounter)
        decreases pending
      {
        var k := Pick(pending);
        r, order := AddNext(k, log0, order, pending);
        if !r.Done? {
          return;
        }
        pending := pending - {k};
      }
      r := Done;
    }

    /** One round of `AddAll`: adds the participant `k`. */
    method AddNext(k: int, ghost log0: seq<Call>, ghost order0: seq<int>, ghost pending: set<int>)
        returns (r: Outcome, ghost order: seq<int>)
      requires AddedSoFar(log0, mcu.log, order0, pending) && k in pending
      modifies mcu, this`faultCode, this`creationTriesCounter
      ensures creationTriesCounter == old(creationTriesCounter) && order == order0 + [k]
      ensures r.Done? ==> AddedSoFar(log0, mcu.log, order, pending - {k}) && faultCode == old(faultCode)
      ensures !r.Done? ==> Distinct(order) && AddFailed(r, log0, order)
    {
      ghost var mid := mcu.log;
      r := AddParticipant(participants[k]);
      order := order0 + [k];
      if r.Done? {
        AddedOne(log0, mid, mcu.log, order0, pending, k);
      } else {
        FailedOne(r, log0, mid, order0, pending, k);
      }
    }

    /** The id of the `i`-th create call of a run that starts with the id source at `first`. */
    function AttemptId(first: int, i: nat): IdValue
      reads this`autoGeneratedId, this`customId
    {
      if autoGeneratedId then Number(first + i) else customId
    }

    /** The first `n` create calls of a run that starts with the id source at `first`. */
    function CreateAttempts(first: int, n: nat): (calls: seq<Call>)
      reads this`autoGeneratedId, this`customId, this`name, this`startDate, this`endDate, this`pin, this`description
      ensures |calls| == n
      decreases n
    {
      if n == 0 then [] else [CreateCall(AttemptId(first, 0))] + CreateAttempts(first + 1, n - 1)
    }

    /** The message a successful create leaves: the start check's, when it sets one. */
    function CreatedStatus(now: int): StatusMessage
      reads this`startDate, this`endDate, this`hasBeenStarted
    {
      if StartableAt(now) then ReadyToStart else if now > endDate then AlreadyTookPlace else BookingCreated
    }

    /** The booking after the unit accepted the conference under `id`: the log holds, after
        `log0`, the create call and the adds of every participant in the order `order`, all
        without fault, and the booking is marked created under its current name. */
    ghost predicate CreatedAs(id: IdValue, order: seq<int>, log0: seq<Call>, now: int)
      reads mcu, this`autoGeneratedId, this`customId, this`name, this`startDate, this`endDate, this`pin,
            this`description, this`participants, this`hasBeenStarted, this`created, this`bookingId, this`oldName,
            this`canBeStarted, this`statusMessage
    {
      && IsOrdering(order, participants.Keys)
      && mcu.log == log0 + [CreateCall(id)] + AddEach(name, naming, participants, order, hasBeenStarted)
      && mcu.Clean(|log0|, |mcu.log|)
      && created && bookingId == id && oldName == Some(name)
      && canBeStarted == StartableAt(now) && statusMessage == CreatedStatus(now)
    }

    /** The fields a create sets when it goes through. */
    function CreationState(): CreationFields
      reads this`created, this`bookingId, this`oldName, this`canBeStarted, this`statusMessage
    {
      CreationFields(created, bookingId, oldName, canBeStarted, statusMessage)
    }

    /** How a create run with `id` that did not ask for another id ended, the create call
        coming right after `log0`: created, or the create call's soft or fatal fault, or the
        first participant add that failed. */
    ghost predicate AttemptEnded(id: IdValue, r: Outcome, order: seq<int>, log0: seq<Call>, now: int)
      reads mcu, this`autoGeneratedId, this`customId, this`name, this`startDate, this`endDate, this`pin,
            this`description, this`participants, this`hasBeenStarted, this`created, this`bookingId, this`oldName,
            this`canBeStarted, this`statusMessage, this`faultCode
    {
      && |log0| < |mcu.log| && mcu.log[..|log0| + 1] == log0 + [CreateCall(id)]
      && (r == Done ==> CreatedAs(id, order, log0, now))
      && (mcu.FaultAt(|log0|).Some? ==>
            && Classify(Operation.Create, mcu.FaultAt(|log0|).value, autoGeneratedId) != Retry
            && mcu.log == log0 + [CreateCall(id)] && faultCode == mcu.FaultAt(|log0|)
            && r == Settle(Classify(Operation.Create, mcu.FaultAt(|log0|).value, autoGeneratedId),
                           mcu.FaultAt(|log0|).value, None))
      && (r != Done && mcu.FaultAt(|log0|).None? ==> AddFailed(r, log0 + [CreateCall(id)], order))
    }

    /** After the unit accepted the conference under `id`: adds the participants and, when
        all went through, marks the booking created. */
    method Populate(id: IdValue, now: int, ghost log0: seq<Call>) returns (r: Outcome, ghost order: seq<int>)
      requires mcu.log == log0 + [CreateCall(id)] && mcu.FaultAt(|log0|).None?
      modifies mcu, this`faultCode, this`creationTriesCounter, this`statusMessage, this`statusClass, this`bookingId,
               this`oldName, this`created, this`canBeStarted, this`canBeStopped, this`needsToBeNotifiedOfDateChanges,
               this`canBeNotifiedOfEventDateChanges
      ensures creationTriesCounter == old(creationTriesCounter)
      ensures AttemptEnded(id, r, order, log0, now)
      ensures r != Done ==> CreationState() == old(CreationState())
    {
      r, order := AddAll();
      if !r.Done? {
        AttemptAborted(id, r, order, log0, now);
        return;
      }
      Conclude(id, order, log0, now);
    }

    /** The end of a create whose conference and participants the unit all accepted. */
    method Conclude(id: IdValue, ghost order: seq<int>, ghost log0: seq<Call>, now: int)
      requires IsOrdering(order, participants.Keys) && mcu.FaultAt(|log0|).None?
      requires mcu.log == log0 + [CreateCall(id)] + AddEach(name, naming, participants, order, hasBeenStarted)
      requires mcu.Clean(|log0| + 1, |mcu.log|)
      modifies this`statusMessage, this`statusClass, this`bookingId, this`oldName, this`created, this`canBeStarted,
               this`canBeStopped, this`needsToBeNotifiedOfDateChanges, this`canBeNotifiedOfEventDateChanges
      ensures AttemptEnded(id, Done, order, log0, now)
    {
      mcu.CleanJoin(|log0|, |log0| + 1, |mcu.log|);
      MarkCreated(id, now);
      AttemptCreated(id, order, log0, now);
    }

    /** A create whose participant add faulted ends its run. */
    lemma AttemptAborted(id: IdValue, r: Outcome, order: seq<int>, log0: seq<Call>, now: int)
      requires mcu.FaultAt(|log0|).None? && r != Done && AddFailed(r, log0 + [CreateCall(id)], order)
      ensures AttemptEnded(id, r, order, log0, now)
    {
      var log1 := log0 + [CreateCall(id)];
      assert mcu.log[..|log1|] == log1;
    }

    /** A create that went through ends its run. */
    lemma AttemptCreated(id: IdValue, order: seq<int>, log0: seq<Call>, now: int)
      requires CreatedAs(id, order, log0, now)
      ensures AttemptEnded(id, Done, order, log0, now)
    {
      var log1 := log0 + [CreateCall(id)];
      assert mcu.log == log1 + AddEach(name, naming, participants, order, hasBeenStarted);
      assert mcu.log[..|log1|] == log1;
    }

    /** The booking's state after the unit accepted the conference under `id` and all its participants. */
    method MarkCreated(id: IdValue, now: int)
      modifies this`statusMessage, this`statusClass, this`bookingId, this`oldName, this`created, this`canBeStarted,
               this`canBeStopped, this`needsToBeNotifiedOfDateChanges, this`canBeNotifiedOfEventDateChanges
      ensures created && bookingId == id && oldName == Some(name)
      ensures canBeStarted == StartableAt(now) && statusMessage == CreatedStatus(now)
    {
      statusMessage := BookingCreated;
      statusClass := StatusOk;
      bookingId := id;
      oldName := Some(name);
      created := true;
      CheckCanStart(now, true);
    }

    /** The log `log` is `log0` followed by `done` create calls of a run that starts with
        the id source at `first`, each rejected as a duplicate id. */
    ghost predicate Retried(log: seq<Call>, first: int, log0: seq<Call>, done: nat)
      reads this`autoGeneratedId, this`customId, this`name, this`startDate, this`endDate, this`pin, this`description
    {
      && log == log0 + CreateAttempts(first, done)
      && forall k :: |log0| <= k < |log| ==> mcu.FaultAt(k) == Some(DuplicateId)
    }

    /** The create calls of a run that started with the id source at `first` after `log0`
        and made `tries` of them: with the ids used up, all were rejected as duplicates;
        otherwise all but the last were, and the last, with `lastId`, came right after `last`. */
    ghost predicate CreateRun(r: Outcome, tries: nat, first: int, log0: seq<Call>, last: seq<Call>, lastId: IdValue)
      reads mcu, this`autoGeneratedId, this`customId, this`name, this`startDate, this`endDate, this`pin,
            this`description
    {
      if RanOutOfIds(r) then Retried(mcu.log, first, log0, tries)
      else tries > 0 && Retried(last, first, log0, tries - 1) && lastId == AttemptId(first, tries - 1)
    }

    /** What a create run that started with the id source at `first`, the log at `log0` and
        the tries counter at `counter0` has done when it returns `r` after `tries` create
        calls: the counters it advanced, its rejected calls, and how its last call with
        `lastId` right after `last` ended. */
    ghost predicate RunOver(r: Outcome, tries: nat, first: int, log0: seq<Call>, counter0: nat, order: seq<int>,
                            last: seq<Call>, lastId: IdValue, now: int)
      reads mcu, ids, this`autoGeneratedId, this`customId, this`name, this`startDate, this`endDate, this`pin,
            this`description, this`participants, this`hasBeenStarted, this`created, this`bookingId, this`oldName,
            this`canBeStarted, this`statusMessage, this`faultCode, this`creationTriesCounter
    {
      && (!autoGeneratedId ==> tries == 1 && ids.next == first && creationTriesCounter == counter0 && !RanOutOfIds(r))
      && (autoGeneratedId ==> ids.next == first + tries && tries <= TriesLeft(counter0))
      && (autoGeneratedId ==> creationTriesCounter == counter0 + (if RanOutOfIds(r) then tries else tries - 1))
      && (autoGeneratedId ==> (RanOutOfIds(r) <==> creationTriesCounter >= MaxCreationTries))
      && CreateRun(r, tries, first, log0, last, lastId)
      && (!RanOutOfIds(r) ==> AttemptEnded(lastId, r, order, last, now))
    }

    /** A create call that ended otherwise than by asking for another id closes its run. */
    lemma RunEnded(r: Outcome, first: int, log0: seq<Call>, counter0: nat, done: nat, order: seq<int>,
                   mid: seq<Call>, id: IdValue, now: int)
      requires done > 0 ==> autoGeneratedId
      requires autoGeneratedId ==> ids.next == first + done + 1
      requires !autoGeneratedId ==> ids.next == first
      requires creationTriesCounter == counter0 + done && (autoGeneratedId ==> counter0 + done < MaxCreationTries)
      requires Retried(mid, first, log0, done) && id == AttemptId(first, done)
      requires !RanOutOfIds(r) && AttemptEnded(id, r, order, mid, now)
      ensures RunOver(r, done + 1, first, log0, counter0, order, mid, id, now)
    {
    }

    /** A create call the unit rejected with a fault the handler does not retry ends its run. */
    lemma AttemptRejected(id: IdValue, log0: seq<Call>, now: int)
      requires mcu.log == log0 + [CreateCall(id)] && mcu.FaultAt(|log0|).Some?
      requires Classify(Operation.Create, mcu.FaultAt(|log0|).value, autoGeneratedId) != Retry
      requires faultCode == mcu.FaultAt(|log0|)
      ensures AttemptEnded(id, Settle(Classify(Operation.Create, mcu.FaultAt(|log0|).value, autoGeneratedId),
                                      mcu.FaultAt(|log0|).value, None), [], log0, now)
    {
      assert mcu.log[..|log0| + 1] == log0 + [CreateCall(id)];
    }

    /** A create call rejected as a duplicate id extends the run of rejected calls. */
    lemma RetriedOne(mid: seq<Call>, log: seq<Call>, first: int, log0: seq<Call>, done: nat)
      requires Retried(mid, first, log0, done) && log == mid + [CreateCall(AttemptId(first, done))]
      requires mcu.FaultAt(|mid|) == Some(DuplicateId)
      ensures Retried(log, first, log0, done + 1)
    {
      CreateAttemptsLast(first, done);
    }

    /** Appending the next create call to the first `n` gives the first `n + 1`. */
    lemma {:induction false} CreateAttemptsLast(first: int, n: nat)
      ensures CreateAttempts(first, n + 1) == CreateAttempts(first, n) + [CreateCall(AttemptId(first, n))]
      decreases n
    {
      if n > 0 {
        CreateAttemptsLast(first + 1, n - 1);
        assert AttemptId(first + 1, n - 1) == AttemptId(first, n);
      }
    }

    /** `_create`: chooses the id (the next generated one, unless the tries are used up,
        or the user's) and runs the create; a duplicate generated id is retried with the
        next one. `tries` is the number of create calls made. */
    method Create(now: int) returns (r: Outcome, ghost tries: nat, ghost order: seq<int>, ghost last: seq<Call>, ghost lastId: IdValue)
      modifies mcu, ids, this`faultCode, this`creationTriesCounter, this`statusMessage, this`statusClass, this`bookingId,
               this`oldName, this`created, this`canBeStarted, this`canBeStopped, this`needsToBeNotifiedOfDateChanges,
               this`canBeNotifiedOfEventDateChanges
      ensures old(mcu.log) <= mcu.log
      ensures !autoGeneratedId ==> tries == 1 && ids.next == old(ids.next)
                                   && creationTriesCounter == old(creationTriesCounter) && !RanOutOfIds(r)
      ensures autoGeneratedId ==> ids.next == old(ids.next) + tries && tries <= TriesLeft(old(creationTriesCounter))
      ensures autoGeneratedId ==> creationTriesCounter == old(creationTriesCounter) + (if RanOutOfIds(r) then tries else tries - 1)
      ensures autoGeneratedId ==> (RanOutOfIds(r) <==> creationTriesCounter >= MaxCreationTries)
      ensures CreateRun(r, tries, old(ids.next), old(mcu.log), last, lastId)
      ensures !RanOutOfIds(r) ==> AttemptEnded(lastId, r, order, last, now)
      ensures r.Raised? ==> RaisedByLast(r, |old(mcu.log)|)
      ensures r == Done ==> created && bookingId == lastId && oldName == Some(name)
      ensures r != Done ==> CreationState() == old(CreationState())
    {
      assert mcu.log + CreateAttempts(ids.next, 0) == mcu.log;
      r, tries, order, last, lastId := CreateFrom(now, ids.next, mcu.log, creationTriesCounter, 0);
      if r.Raised? {
        RaisedOnLast(r, order, old(mcu.log), last, lastId, now);
      }
    }

    /** A create run that raised did so on its last call, which faulted under the create
        or under a participant add. */
    lemma RaisedOnLast(r: Outcome, order: seq<int>, log0: seq<Call>, last: seq<Call>, lastId: IdValue, now: int)
      requires r.Raised? && AttemptEnded(lastId, r, order, last, now) && |log0| <= |last|
      ensures RaisedByLast(r, |log0|)
    {
    }

    /** `_create` after `done` create calls of its run were rejected as duplicate ids. */
    method CreateFrom(now: int, ghost first: int, ghost log0: seq<Call>, ghost counter0: nat, ghost done: nat)
        returns (r: Outcome, ghost tries: nat, ghost order: seq<int>, ghost last: seq<Call>, ghost lastId: IdValue)
      requires done > 0 ==> autoGeneratedId
      requires ids.next == first + done && creationTriesCounter == counter0 + done && done <= TriesLeft(counter0)
      requires Retried(mcu.log, first, log0, done)
      modifies mcu, ids, this`faultCode, this`creationTriesCounter, this`statusMessage, this`statusClass, this`bookingId,
               this`oldName, this`created, this`canBeStarted, this`canBeStopped, this`needsToBeNotifiedOfDateChanges,
               this`canBeNotifiedOfEventDateChanges
      decreases TriesLeft(creationTriesCounter), 1
      ensures old(mcu.log) <= mcu.log
      ensures RunOver(r, tries, first, log0, counter0, order, last, lastId, now)
      ensures r != Done ==> CreationState() == old(CreationState())
    {
      var id: IdValue;
      if autoGeneratedId {
        if creationTriesCounter >= MaxCreationTries {
          return OutOfIds(), done, [], mcu.log, NoValue;
        }
        var n := ids.NewConferenceId();
        id := Number(n);
      } else {
        id := customId;
      }
      r, tries, order, last, lastId := CreateWith(id, now, first, log0, counter0, done);
    }

    /** `_create` once the id of its `done + 1`-th create call is chosen. */
    method CreateWith(id: IdValue, now: int, ghost first: int, ghost log0: seq<Call>, ghost counter0: nat, ghost done: nat)
        returns (r: Outcome, ghost tries: nat, ghost order: seq<int>, ghost last: seq<Call>, ghost lastId: IdValue)
      requires done > 0 ==> autoGeneratedId
      requires autoGeneratedId ==> creationTriesCounter < MaxCreationTries && ids.next == first + done + 1
      requires !autoGeneratedId ==> ids.next == first
      requires creationTriesCounter == counter0 + done && done <= TriesLeft(counter0)
      requires id == AttemptId(first, done) && Retried(mcu.log, first, log0, done)
      modifies mcu, ids, this`faultCode, this`creationTriesCounter, this`statusMessage, this`statusClass, this`bookingId,
               this`oldName, this`created, this`canBeStarted, this`canBeStopped, this`needsToBeNotifiedOfDateChanges,
               this`canBeNotifiedOfEventDateChanges
      decreases TriesLeft(creationTriesCounter), 0
      ensures old(mcu.log) <= mcu.log
      ensures RunOver(r, tries, first, log0, counter0, order, last, lastId, now)
      ensures r != Done ==> CreationState() == old(CreationState())
    {
      ghost var mid := mcu.log;
      var attempt;
      attempt, order := Attempt(id, now);
      if attempt.Some? {
        RunEnded(attempt.value, first, log0, counter0, done, order, mid, id, now);
        return attempt.value, done + 1, order, mid, id;
      }
      r, tries, order, last, lastId := CreateNext(now, first, log0, counter0, done, mid);
    }

    /** `_create` re-run after its `done + 1`-th create call was rejected as a duplicate id. */
    method CreateNext(now: int, ghost first: int, ghost log0: seq<Call>, ghost counter0: nat, ghost done: nat,
                      ghost mid: seq<Call>)
        returns (r: Outcome, ghost tries: nat, ghost order: seq<int>, ghost last: seq<Call>, ghost lastId: IdValue)
      requires autoGeneratedId && ids.next == first + done + 1
      requires creationTriesCounter == counter0 + done + 1 && done < TriesLeft(counter0)
      requires Retried(mid, first, log0, done) && mcu.log == mid + [CreateCall(AttemptId(first, done))]
      requires mcu.FaultAt(|mid|) == Some(DuplicateId)
      modifies mcu, ids, this`faultCode, this`creationTriesCounter, this`statusMessage, this`statusClass, this`bookingId,
               this`oldName, this`created, this`canBeStarted, this`canBeStopped, this`needsToBeNotifiedOfDateChanges,
               this`canBeNotifiedOfEventDateChanges
      decreases TriesLeft(creationTriesCounter), 2
      ensures old(mcu.log) <= mcu.log
      ensures RunOver(r, tries, first, log0, counter0, order, last, lastId, now)
      ensures r != Done ==> CreationState() == old(CreationState())
    {
      RetriedOne(mid, mcu.log, first, log0, done);
      r, tries, order, last, lastId := CreateFrom(now, first, log0, counter0, done + 1);
    }

    /** One run of `_create` once the id is chosen: the create call, then the participants
        and the booking's new state. `None` when the fault handler asks for another id. */
    method Attempt(id: IdValue, now: int) returns (r: Option<Outcome>, ghost order: seq<int>)
      modifies mcu, this`faultCode, this`creationTriesCounter, this`statusMessage, this`statusClass, this`bookingId,
               this`oldName, this`created, this`canBeStarted, this`canBeStopped, this`needsToBeNotifiedOfDateChanges,
               this`canBeNotifiedOfEventDateChanges
      ensures old(mcu.log) <= mcu.log
      ensures r.Some? ==> creationTriesCounter == old(creationTriesCounter) && !RanOutOfIds(r.value)
                          && AttemptEnded(id, r.value, order, old(mcu.log), now)
      ensures r.None? ==> && autoGeneratedId && mcu.FaultAt(|old(mcu.log)|) == Some(DuplicateId)
                          && mcu.log == old(mcu.log) + [CreateCall(id)]
                          && creationTriesCounter == old(creationTriesCounter) + 1
      ensures r != Some(Done) ==> CreationState() == old(CreationState())
    {
      var fault := mcu.Issue(CreateCall(id));
      if fault.None? {
        var outcome;
        outcome, order := Populate(id, now, old(mcu.log));
        return Some(outcome), order;
      }
      var a := HandleFault(Operation.Create, fault.value);
      if a == Retry {
        return None, [];
      }
      AttemptRejected(id, old(mcu.log), now);
      return Some(Settle(a, fault.value, None)), [];
    }

    // ---- modify ----

    /** The last call issued, at a position from `from` on, faulted with a fault that `op`
        does not retry or ignore, the fault was recorded, and `r` is what the fault
        handler made of it: the raised failure, or a soft error carrying the fault code. */
    ghost predicate AbortedOn(op: Operation, r: Outcome, from: nat)
      reads mcu, this`faultCode, this`autoGeneratedId
    {
      && from < |mcu.log| && |mcu.log| - 1 in mcu.faults && faultCode == Some(mcu.LastFault())
      && var a := Classify(op, mcu.LastFault(), autoGeneratedId);
      && (a.Fatal? || a.Soft?)
      && (a.Fatal? ==> r == Raised(McuFailure(a.reason, mcu.LastFault())))
      && (a.Soft? ==> r.SoftError? && r.error.error == FaultCode(mcu.LastFault()))
    }

    /** The last call issued, at a position from `from` on, faulted and the failure it
        raised ends the operation. */
    ghost predicate RaisedByLast(r: Outcome, from: nat)
      reads mcu, this`faultCode
    {
      && from < |mcu.log| && |mcu.log| - 1 in mcu.faults && faultCode == Some(mcu.LastFault())
      && r.Raised? && r.exception.McuFailure? && r.exception.code == mcu.LastFault()
    }

    /** The two sides of a reconciliation as the booking sees them, against the unit's
        participant list `remote`. */
    function SidesWith(remote: map<string, RemoteParticipant>): (s: Sides)
      reads this`name, this`participants, this`hasBeenStarted
      ensures s.conf == name && s.local == participants && s.remote == remote && s.started == hasBeenStarted
    {
      Sides(name, naming, participants, remote, hasBeenStarted)
    }

    /** The first loop of `_modify` visited the participants of `order` without a fault,
        taking the log from `log0` to `log`, and collected the matched pairs in `existing`;
        `pending` holds the participants still to visit. */
    ghost predicate AddPhaseSoFar(remote: map<string, RemoteParticipant>, log0: seq<Call>, log: seq<Call>,
                                  order: seq<int>, pending: set<int>, existing: map<string, Participant>)
      reads this`participants, this`name, this`hasBeenStarted
    {
      && pending <= participants.Keys
      && Distinct(order) && (forall k :: k in order ==> k in participants && k !in pending)
      && (forall k :: k in participants && k !in pending ==> k in order)
      && log == log0 + AddPhase(SidesWith(remote), order)
      && existing == Matched(SidesWith(remote), order)
      && mcu.Clean(|log0|, |log|)
    }

    /** One round of the first loop of `_modify`: a participant the unit does not report is
        added, any other one is set aside as a matched pair. */
    method AddMissingNext(remote: map<string, RemoteParticipant>, k: int, existing0: map<string, Participant>,
                          ghost log0: seq<Call>, ghost order0: seq<int>, ghost pending: set<int>)
        returns (r: Outcome, existing: map<string, Participant>, ghost order: seq<int>)
      requires AddPhaseSoFar(remote, log0, mcu.log, order0, pending, existing0) && k in pending
      modifies mcu, this`faultCode, this`creationTriesCounter
      ensures creationTriesCounter == old(creationTriesCounter) && order == order0 + [k]
      ensures log0 <= mcu.log
      ensures r.Done? ==> AddPhaseSoFar(remote, log0, mcu.log, order, pending - {k}, existing)
      ensures !r.Done? ==> AbortedOn(Add, r, |log0|)
    {
      ghost var mid := mcu.log;
      order := order0 + [k];
      assert order[..|order0|] == order0;
      DistinctSnoc(order0, k);
      var p := participants[k];
      if naming.participantName(p) in remote {
        existing := existing0[naming.participantName(p) := p];
        r := Done;
      } else {
        existing := existing0;
        r := AddParticipant(p);
        if r.Done? {
          mcu.CleanJoin(|log0|, |mid|, |mcu.log|);
        }
      }
    }

    /** The first loop of `_modify`: every participant the unit does not report is added,
        in the dictionary's order, and the first add that does not go through ends the
        modification; the others are returned as the matched pairs. */
    method AddMissing(remote: map<string, RemoteParticipant>)
        returns (r: Outcome, existing: map<string, Participant>, ghost order: seq<int>)
      modifies mcu, this`faultCode, this`creationTriesCounter
      ensures old(mcu.log) <= mcu.log
      ensures creationTriesCounter == old(creationTriesCounter)
      ensures r.Done? ==> && IsOrdering(order, participants.Keys)
                          && existing == Matched(SidesWith(remote), order)
                          && mcu.log == old(mcu.log) + AddPhase(SidesWith(remote), order)
                          && mcu.Clean(|old(mcu.log)|, |mcu.log|)
      ensures !r.Done? ==> AbortedOn(Add, r, |old(mcu.log)|)
    {
      ghost var log0 := mcu.log;
      var pending := participants.Keys;
      existing := map[];
      order := [];
      while pending != {}
        invariant AddPhaseSoFar(remote, log0, mcu.log, order, pending, existing)
        invariant creationTriesCounter == old(creationTriesCounter)
        decreases pending
      {
        var k := Pick(pending);
        r, existing, order := AddMissingNext(remote, k, existing, log0, order, pending);
        if !r.Done? {
          return;
        }
        pending := pending - {k};
      }
      r := Done;
    }

    /** The second loop of `_modify` visited the matched names of `order`, the log going
        from `log0` to `log`; when no call faulted, the log holds their calls. */
    ghost predicate UpdateSoFar(remote: map<string, RemoteParticipant>, existing: map<string, Participant>,
                                log0: seq<Call>, log: seq<Call>, order: seq<string>, pending: set<string>)
      reads this`participants, this`name, this`hasBeenStarted
    {
      && (forall n :: n in existing ==> n in remote)
      && pending <= existing.Keys
      && Distinct(order) && (forall n :: n in order ==> n in existing && n !in pending)
      && (forall n :: n in existing && n !in pending ==> n in order)
      && log0 <= log
      && (mcu.Clean(|log0|, |log|) ==> log == log0 + UpdatePhase(SidesWith(remote), existing, order))
    }

    /** One matched pair: a changed address is a remove and an add, whose soft error is
        dropped; a changed display name is a rename; otherwise nothing. Only a raised
        failure ends the modification. */
    method UpdateNext(remote: map<string, RemoteParticipant>, existing: map<string, Participant>, n: string)
        returns (r: Outcome)
      requires n in existing && n in remote
      modifies mcu, this`faultCode, this`creationTriesCounter
      ensures creationTriesCounter == old(creationTriesCounter)
      ensures old(mcu.log) <= mcu.log
      ensures mcu.Clean(|old(mcu.log)|, |mcu.log|) ==>
                r.Done? && mcu.log == old(mcu.log) + MatchCalls(SidesWith(remote), n, existing[n])
      ensures !r.Done? ==> RaisedByLast(r, |old(mcu.log)|)
    {
      var lp := existing[n];
      if remote[n].ip != lp.details.ip {
        r := RemoveParticipant(n);
        if !r.Done? {
          return;
        }
        var added := AddParticipant(lp);
        if added.Raised? {
          return added;
        }
      } else if remote[n].displayName != naming.displayName(lp) {
        r := ModifyParticipantDisplayName(n, naming.displayName(lp));
      } else {
        r := Done;
      }
    }

    /** The second loop of `_modify`, over the matched pairs in the dictionary's order. */
    method UpdateMatched(remote: map<string, RemoteParticipant>, existing: map<string, Participant>)
        returns (r: Outcome, ghost order: seq<string>)
      requires forall n :: n in existing ==> n in remote
      modifies mcu, this`faultCode, this`creationTriesCounter
      ensures creationTriesCounter == old(creationTriesCounter)
      ensures old(mcu.log) <= mcu.log
      ensures r.Done? || r.Raised?
      ensures mcu.Clean(|old(mcu.log)|, |mcu.log|) ==>
                && r.Done? && IsOrdering(order, existing.Keys)
                && mcu.log == old(mcu.log) + UpdatePhase(SidesWith(remote), existing, order)
      ensures !r.Done? ==> RaisedByLast(r, |old(mcu.log)|)
    {
      ghost var log0 := mcu.log;
      var pending := existing.Keys;
      order := [];
      while pending != {}
        invariant UpdateSoFar(remote, existing, log0, mcu.log, order, pending)
        invariant creationTriesCounter == old(creationTriesCounter)
        decreases pending
      {
        var n := Pick(pending);
        ghost var mid := mcu.log;
        r := UpdateNext(remote, existing, n);
        if !r.Done? {
          return;
        }
        UpdateStep(remote, existing, log0, mid, mcu.log, order, pending, n);
        order := order + [n];
        pending := pending - {n};
      }
      r := Done;
    }

    /** A visited matched pair extends the second loop's run. */
    lemma UpdateStep(remote: map<string, RemoteParticipant>, existing: map<string, Participant>,
                     log0: seq<Call>, mid: seq<Call>, log: seq<Call>, order: seq<string>, pending: set<string>, n: string)
      requires UpdateSoFar(remote, existing, log0, mid, order, pending) && n in pending
      requires mid <= log
      requires mcu.Clean(|mid|, |log|) ==> log == mid + MatchCalls(SidesWith(remote), n, existing[n])
      ensures UpdateSoFar(remote, existing, log0, log, order + [n], pending - {n})
    {
      var order' := order + [n];
      assert order'[..|order|] == order;
      DistinctSnoc(order, n);
      if mcu.Clean(|log0|, |log|) {
        assert mcu.Clean(|log0|, |mid|) && mcu.Clean(|mid|, |log|);
      }
    }

    /** The third loop of `_modify`: a remove for every name the unit reports and no local
        participant carries, in the set's order; the first fault ends the modification. */
    method RemoveStale(stale: set<string>) returns (r: Outcome, ghost order: seq<string>)
      modifies mcu, this`faultCode, this`creationTriesCounter
      ensures old(mcu.log) <= mcu.log
      ensures creationTriesCounter == old(creationTriesCounter)
      ensures r.Done? ==> && IsOrdering(order, stale) && mcu.log == old(mcu.log) + RemovePhase(name, order)
                          && mcu.Clean(|old(mcu.log)|, |mcu.log|)
      ensures !r.Done? ==> AbortedOn(Remove, r, |old(mcu.log)|)
    {
      ghost var log0 := mcu.log;
      var pending := stale;
      order := [];
      while pending != {}
        invariant pending <= stale && Distinct(order)
        invariant forall n :: n in order ==> n in stale && n !in pending
        invariant forall n :: n in stale && n !in pending ==> n in order
        invariant mcu.log == log0 + RemovePhase(name, order) && mcu.Clean(|log0|, |mcu.log|)
        invariant creationTriesCounter == old(creationTriesCounter)
        decreases pending
      {
        var n := Pick(pending);
        ghost var mid := mcu.log;
        r := RemoveParticipant(n);
        if !r.Done? {
          return;
        }
        mcu.CleanStep(|log0|, |mid|);
        DistinctSnoc(order, n);
        RemovePhaseSnoc(name, order, n);
        order := order + [n];
        pending := pending - {n};
      }
      r := Done;
    }
    /** The last call issued, at a position from `from` on, faulted and its fault was recorded. */
    ghost predicate EndedByFault(from: nat)
      reads mcu, this`faultCode
    {
      from < |mcu.log| && |mcu.log| - 1 in mcu.faults && faultCode == Some(mcu.LastFault())
    }

    /** The booking after a modification whose calls all went through. */
    method Reconciled(now: int)
      modifies this`created, this`canBeStarted, this`canBeStopped, this`statusMessage, this`statusClass,
               this`needsToBeNotifiedOfDateChanges, this`canBeNotifiedOfEventDateChanges
      ensures created && canBeStarted == StartableAt(now)
    {
      created := true;
      CheckCanStart(now, true);
    }

    /** The third loop of `_modify` and its end. */
    method RemoveAndConclude(stale: set<string>, now: int) returns (r: Outcome, ghost staleOrder: seq<string>)
      modifies mcu, this`faultCode, this`creationTriesCounter, this`created, this`canBeStarted, this`canBeStopped,
               this`statusMessage, this`statusClass, this`needsToBeNotifiedOfDateChanges,
               this`canBeNotifiedOfEventDateChanges
      ensures creationTriesCounter == old(creationTriesCounter)
      ensures old(mcu.log) <= mcu.log
      ensures r.Done? ==> && IsOrdering(staleOrder, stale) && mcu.log == old(mcu.log) + RemovePhase(name, staleOrder)
                          && mcu.Clean(|old(mcu.log)|, |mcu.log|) && created && canBeStarted == StartableAt(now)
      ensures !r.Done? ==> RaisedByLast(r, |old(mcu.log)|)
    {
      r, staleOrder := RemoveStale(stale);
      if r.Done? {
        Reconciled(now);
      }
    }

    /** The second and third loops of `_modify` and its end, once the first loop collected
        the matched pairs `existing`. */
    method ReconcileRest(remote: map<string, RemoteParticipant>, existing: map<string, Participant>, now: int)
        returns (r: Outcome, ghost matchedOrder: seq<string>, ghost staleOrder: seq<string>)
      requires forall n :: n in existing ==> n in remote
      modifies mcu, this`faultCode, this`creationTriesCounter, this`created, this`canBeStarted, this`canBeStopped,
               this`statusMessage, this`statusClass, this`needsToBeNotifiedOfDateChanges,
               this`canBeNotifiedOfEventDateChanges
      ensures creationTriesCounter == old(creationTriesCounter)
      ensures old(mcu.log) <= mcu.log
      ensures mcu.Clean(|old(mcu.log)|, |mcu.log|) ==>
                && r.Done? && IsOrdering(matchedOrder, existing.Keys)
                && IsOrdering(staleOrder, remote.Keys - existing.Keys)
                && mcu.log == old(mcu.log) + UpdatePhase(SidesWith(remote), existing, matchedOrder)
                                           + RemovePhase(name, staleOrder)
                && created && canBeStarted == StartableAt(now)
      ensures !r.Done? ==> RaisedByLast(r, |old(mcu.log)|)
    {
      ghost var log0 := mcu.log;
      staleOrder := [];
      r, matchedOrder := UpdateMatched(remote, existing);
      if !r.Done? {
        return;
      }
      ghost var mid := mcu.log;
      r, staleOrder := RemoveAndConclude(remote.Keys - existing.Keys, now);
      if mcu.Clean(|log0|, |mcu.log|) {
        assert mcu.Clean(|log0|, |mid|);
      }
    }

    /** The participant part of `_modify` against the unit's list `remote`: the three loops,
        and the booking marked created once all calls went through. */
    method ReconcileWith(remote: map<string, RemoteParticipant>, now: int)
        returns (r: Outcome, ghost localOrder: seq<int>, ghost matchedOrder: seq<string>, ghost staleOrder: seq<string>)
      modifies mcu, this`faultCode, this`creationTriesCounter, this`created, this`canBeStarted, this`canBeStopped,
               this`statusMessage, this`statusClass, this`needsToBeNotifiedOfDateChanges,
               this`canBeNotifiedOfEventDateChanges
      ensures creationTriesCounter == old(creationTriesCounter)
      ensures old(mcu.log) <= mcu.log
      ensures mcu.Clean(|old(mcu.log)|, |mcu.log|) ==>
                && r.Done? && Visits(SidesWith(remote), localOrder, matchedOrder, staleOrder)
                && mcu.log == old(mcu.log) + Plan(SidesWith(remote), localOrder, matchedOrder, staleOrder)
                && created && canBeStarted == StartableAt(now)
      ensures !r.Done? ==> EndedByFault(|old(mcu.log)|)
      ensures r.SoftError? ==> AbortedOn(Add, r, |old(mcu.log)|)
      ensures r.Raised? ==> RaisedByLast(r, |old(mcu.log)|)
    {
      var existing;
      matchedOrder, staleOrder := [], [];
      r, existing, localOrder := AddMissing(remote);
      if !r.Done? {
        return;
      }
      ghost var mid := mcu.log;
      r, matchedOrder, staleOrder := ReconcileRest(remote, existing, now);
      if mcu.Clean(|old(mcu.log)|, |mcu.log|) {
        assert mcu.Clean(|mid|, |mcu.log|);
        PlanAssembled(SidesWith(remote), localOrder, matchedOrder, staleOrder, old(mcu.log), mid, mcu.log);
      }
    }

    /** The conference as the modify call sends it: renamed from the last name the unit
        knew, with the full description. */
    function ModifyCall(id: IdValue): Call
      reads this`oldName, this`name, this`startDate, this`endDate, this`pin, this`description
    {
      ConferenceModify(oldName, name, id, WallClock(startDate, mcuOffset), DurationSeconds(), pin, description)
    }

    /** The id a modify sends: the one the booking was created with, or the user's. */
    function ModifyId(): (id: IdValue)
      reads this`autoGeneratedId, this`bookingId, this`customId
      ensures autoGeneratedId ==> id == bookingId
      ensures !autoGeneratedId ==> id == customId
    {
      if autoGeneratedId then bookingId else customId
    }

    /** How `handleFault('modify', ...)` ended for the fault `code` of a call issued right
        before the log was `log0`, with `creation0`, `counter0` and `next0` the creation fields,
        the tries counter and the id source before it: a fault it does not retry is settled and
        changes nothing else; a retried duplicate id re-runs `_create` within the tries left. */
    ghost predicate ModifyFaultEnded(code: int, r: Outcome, log0: seq<Call>, creation0: CreationFields,
                                     counter0: nat, next0: int)
      reads mcu, ids, this`faultCode, this`creationTriesCounter, this`autoGeneratedId, this`created, this`bookingId,
            this`oldName, this`canBeStarted, this`statusMessage, this`name
    {
      && log0 <= mcu.log
      && (Classify(Operation.Modify, code, autoGeneratedId) != Retry ==>
            && r == Settle(Classify(Operation.Modify, code, autoGeneratedId), code, None) && faultCode == Some(code)
            && mcu.log == log0 && CreationState() == creation0 && creationTriesCounter == counter0)
      && (Classify(Operation.Modify, code, autoGeneratedId) == Retry ==>
            && next0 <= ids.next <= next0 + TriesLeft(counter0 + 1)
            && (RanOutOfIds(r) <==> creationTriesCounter >= MaxCreationTries)
            && (r == Done ==> created && oldName == Some(name))
            && (r != Done ==> CreationState() == creation0)
            && (r.Raised? ==> RaisedByLast(r, |log0|)))
    }

    /** A fault met while modifying: soft or raised as classified, except that a duplicate
        generated id makes the booking run `_create` again. */
    method ModifyFault(code: int, now: int) returns (r: Outcome)
      modifies mcu, ids, this`faultCode, this`creationTriesCounter, this`statusMessage, this`statusClass, this`bookingId,
               this`oldName, this`created, this`canBeStarted, this`canBeStopped, this`needsToBeNotifiedOfDateChanges,
               this`canBeNotifiedOfEventDateChanges
      ensures ModifyFaultEnded(code, r, old(mcu.log), old(CreationState()), old(creationTriesCounter), old(ids.next))
    {
      var a := HandleFault(Operation.Modify, code);
      if a == Retry {
        ghost var tries, order, last, lastId;
        r, tries, order, last, lastId := Create(now);
      } else {
        r := Settle(a, code, None);
      }
    }

    /** How the participant part of `_modify` ended when it started at `log0` and its query
        took the log to `queried`: a faulting query call was handled as a modify fault; after a
        clean query, an outcome other than Done came from the last call, a raised failure
        carrying that call's fault code and an add's soft error being returned as
        `handleFault('add')` settled it. */
    ghost predicate ReconcileEnded(r: Outcome, log0: seq<Call>, queried: seq<Call>, creation0: CreationFields,
                                   counter0: nat, next0: int)
      reads mcu, ids, this`faultCode, this`creationTriesCounter, this`autoGeneratedId, this`created, this`bookingId,
            this`oldName, this`canBeStarted, this`statusMessage, this`name
    {
      && log0 <= queried <= mcu.log
      && (!mcu.Clean(|log0|, |queried|) ==>
            && |log0| < |queried| && mcu.Clean(|log0|, |queried| - 1) && |queried| - 1 in mcu.faults
            && ModifyFaultEnded(mcu.faults[|queried| - 1], r, queried, creation0, counter0, next0))
      && (mcu.Clean(|log0|, |queried|) ==>
            && (!r.Done? ==> EndedByFault(|queried|))
            && (r.Raised? ==> RaisedByLast(r, |queried|))
            && (r.SoftError? ==> AbortedOn(Add, r, |queried|)))
    }

    /** The participant part of `_modify`: the unit's participants of the conference are
        queried, a fault of the query being handled as a modify fault, and reconciled.
        `queried` is the log after the `read` enumerate calls of the query. */
    method Reconcile(now: int)
        returns (r: Outcome, ghost localOrder: seq<int>, ghost matchedOrder: seq<string>, ghost staleOrder: seq<string>,
                 ghost queried: seq<Call>, ghost read: nat)
      modifies mcu, ids, this`faultCode, this`creationTriesCounter, this`statusMessage, this`statusClass, this`bookingId,
               this`oldName, this`created, this`canBeStarted, this`canBeStopped, this`needsToBeNotifiedOfDateChanges,
               this`canBeNotifiedOfEventDateChanges
      ensures queried == old(mcu.log) + ParticipantEnumerateCalls(read)
      ensures ReconcileEnded(r, old(mcu.log), queried, old(CreationState()), old(creationTriesCounter), old(ids.next))
      ensures mcu.Clean(|old(mcu.log)|, |mcu.log|) ==>
                var s := SidesWith(Gathered(mcu.participantPages, name));
                && r.Done? && Visits(s, localOrder, matchedOrder, staleOrder)
                && mcu.log == old(mcu.log) + ParticipantEnumerateCalls(PageCount(mcu.participantPages))
                                           + Plan(s, localOrder, matchedOrder, staleOrder)
                && created && canBeStarted == StartableAt(now)
                && bookingId == old(bookingId) && oldName == old(oldName)
    {
      localOrder, matchedOrder, staleOrder := [], [], [];
      var remote;
      remote, read := QueryParticipants(mcu, name);
      queried := mcu.log;
      if remote.Failed? {
        r := ModifyFault(remote.code, now);
        return;
      }
      ghost var mid := mcu.log;
      r, localOrder, matchedOrder, staleOrder := ReconcileWith(remote.answer, now);
      if mcu.Clean(|old(mcu.log)|, |mcu.log|) {
        assert mcu.Clean(|mid|, |mcu.log|);
      }
    }

    /** `_modify`: a booking not created yet is created instead, whose returned outcome
        (`nested`) is dropped while a failure it raises goes through; otherwise the conference
        is modified on the unit under its last known name and its participants are reconciled. */
    method Modify(now: int) returns (r: Outcome, ghost localOrder: seq<int>, ghost matchedOrder: seq<string>,
                                     ghost staleOrder: seq<string>, nested: Outcome, ghost queried: seq<Call>)
      modifies mcu, ids, this`faultCode, this`creationTriesCounter, this`statusMessage, this`statusClass, this`bookingId,
               this`oldName, this`created, this`canBeStarted, this`canBeStopped, this`needsToBeNotifiedOfDateChanges,
               this`canBeNotifiedOfEventDateChanges
      ensures !old(created) ==> r == (if nested.Raised? then nested else Done)
      ensures !old(created) ==> (created <==> nested == Done)
      ensures !old(created) && r.Raised? ==> RaisedByLast(r, |old(mcu.log)|)
      ensures old(created) && mcu.Clean(|old(mcu.log)|, |mcu.log|) ==>
                var s := SidesWith(Gathered(mcu.participantPages, name));
                && r.Done? && Visits(s, localOrder, matchedOrder, staleOrder)
                && mcu.log == old(mcu.log) + [old(ModifyCall(ModifyId()))]
                                           + ParticipantEnumerateCalls(PageCount(mcu.participantPages))
                                           + Plan(s, localOrder, matchedOrder, staleOrder)
                && created && canBeStarted == StartableAt(now)
                && bookingId == old(ModifyId()) && oldName == Some(name)
      ensures old(created) && mcu.FaultAt(|old(mcu.log)|).Some?
              && Classify(Operation.Modify, mcu.FaultAt(|old(mcu.log)|).value, autoGeneratedId) != Retry ==>
                && mcu.log == old(mcu.log) + [old(ModifyCall(ModifyId()))]
                && r == Settle(Classify(Operation.Modify, mcu.FaultAt(|old(mcu.log)|).value, autoGeneratedId),
                               mcu.FaultAt(|old(mcu.log)|).value, None)
                && CreationState() == old(CreationState())
      ensures old(created) && mcu.FaultAt(|old(mcu.log)|).Some? ==>
                ModifyFaultEnded(mcu.FaultAt(|old(mcu.log)|).value, r, old(mcu.log) + [old(ModifyCall(ModifyId()))],
                                 old(CreationState()), old(creationTriesCounter), old(ids.next))
      ensures old(created) && mcu.FaultAt(|old(mcu.log)|).None? ==>
                ReconcileEnded(r, old(mcu.log) + [old(ModifyCall(ModifyId()))], queried,
                               CreationFields(true, old(ModifyId()), Some(name), old(canBeStarted), old(statusMessage)),
                               old(creationTriesCounter), old(ids.next))
    {
      queried := mcu.log;
      if !created {
        ghost var tries, last, lastId;
        nested, tries, localOrder, last, lastId := Create(now);
        r := if nested.Raised? then nested else Done;
        return r, [], [], [], nested, queried;
      }
      localOrder, matchedOrder, staleOrder, nested := [], [], [], Done;
      var id := ModifyId();
      var fault := mcu.Issue(ModifyCall(id));
      if fault.Some? {
        r := ModifyFault(fault.value, now);
        return;
      }
      bookingId := id;
      oldName := Some(name);
      ghost var mid := mcu.log;
      ghost var read;
      r, localOrder, matchedOrder, staleOrder, queried, read := Reconcile(now);
      if mcu.Clean(|old(mcu.log)|, |mcu.log|) {
        assert mcu.Clean(|mid|, |mcu.log|);
      }
    }
    // ---- start and stop ----

    /** Connects the participants of `list` in turn; the first fault ends the loop and is
        handled as a start fault, which is always raised. `connected` counts the connect
        calls made. */
    method ConnectAll(list: seq<Participant>) returns (r: Outcome, ghost connected: nat)
      modifies mcu, this`faultCode, this`creationTriesCounter
      ensures creationTriesCounter == old(creationTriesCounter)
      ensures connected <= |list|
      ensures mcu.log == old(mcu.log) + ConnectCalls(name, naming, list[..connected])
      ensures r.Done? <==> mcu.Clean(|old(mcu.log)|, |mcu.log|)
      ensures r.Done? ==> connected == |list| && faultCode == old(faultCode)
      ensures !r.Done? ==> AbortedOn(Operation.Start, r, |old(mcu.log)|)
    {
      var i := 0;
      while i < |list|
        invariant 0 <= i <= |list|
        invariant mcu.log == old(mcu.log) + ConnectCalls(name, naming, list[..i])
        invariant mcu.Clean(|old(mcu.log)|, |mcu.log|)
        invariant faultCode == old(faultCode) && creationTriesCounter == old(creationTriesCounter)
      {
        assert list[..i + 1][..i] == list[..i];
        var fault := mcu.Issue(ParticipantConnect(name, naming.participantName(list[i])));
        if fault.Some? {
          var a := HandleFault(Operation.Start, fault.value);
          return Settle(a, fault.value, None), i + 1;
        }
        i := i + 1;
      }
      assert list[..i] == list;
      return Done, i;
    }

    /** Disconnects the participants of `list` in turn; a fault the stop ignores (participant
        not connected, or not there) is passed over, any other ends the loop and is raised.
        `disconnected` counts the disconnect calls made. */
    method DisconnectAll(list: seq<Participant>) returns (r: Outcome, ghost disconnected: nat)
      modifies mcu, this`faultCode, this`creationTriesCounter
      ensures creationTriesCounter == old(creationTriesCounter)
      ensures disconnected <= |list|
      ensures mcu.log == old(mcu.log) + DisconnectCalls(name, naming, list[..disconnected])
      ensures r.Done? <==> StopFaultsIgnored(mcu.faults, |old(mcu.log)|, |mcu.log|, autoGeneratedId)
      ensures r.Done? ==> disconnected == |list|
      ensures !r.Done? ==> && AbortedOn(Operation.Stop, r, |old(mcu.log)|)
                           && StopFaultsIgnored(mcu.faults, |old(mcu.log)|, |mcu.log| - 1, autoGeneratedId)
    {
      var i := 0;
      while i < |list|
        invariant 0 <= i <= |list|
        invariant mcu.log == old(mcu.log) + DisconnectCalls(name, naming, list[..i])
        invariant StopFaultsIgnored(mcu.faults, |old(mcu.log)|, |mcu.log|, autoGeneratedId)
        invariant creationTriesCounter == old(creationTriesCounter)
      {
        assert list[..i + 1][..i] == list[..i];
        var fault := mcu.Issue(ParticipantDisconnect(name, naming.participantName(list[i])));
        if fault.Some? {
          var a := HandleFault(Operation.Stop, fault.value);
          if a != Ignore {
            return Settle(a, fault.value, None), i + 1;
          }
        }
        i := i + 1;
      }
      assert list[..i] == list;
      return Done, i;
    }

    /** `_start` after its status check: connects the participants when the conference
        can start, and refuses otherwise. */
    method StartChecked(list: seq<Participant>) returns (r: Outcome, ghost connected: nat)
      modifies mcu, this`faultCode, this`creationTriesCounter, this`statusMessage, this`canBeStarted,
               this`canBeStopped, this`hasBeenStarted
      ensures creationTriesCounter == old(creationTriesCounter)
      ensures connected <= |list|
      ensures !old(canBeStarted) ==> r == Raised(CannotStart) && mcu.log == old(mcu.log) && connected == 0
      ensures old(canBeStarted) ==>
                && mcu.log == old(mcu.log) + ConnectCalls(name, naming, list[..connected])
                && (r.Done? <==> mcu.Clean(|old(mcu.log)|, |mcu.log|))
                && (!r.Done? ==> AbortedOn(Operation.Start, r, |old(mcu.log)|))
      ensures r.Done? ==> && connected == |list| && statusMessage == ConferenceStarted
                          && !canBeStarted && canBeStopped && hasBeenStarted
      ensures !r.Done? ==> && statusMessage == old(statusMessage) && canBeStarted == old(canBeStarted)
                           && canBeStopped == old(canBeStopped) && hasBeenStarted == old(hasBeenStarted)
    {
      if !canBeStarted {
        return Raised(CannotStart), 0;
      }
      r, connected := ConnectAll(list);
      if r.Done? {
        statusMessage := ConferenceStarted;
        canBeStarted := false;
        canBeStopped := true;
        hasBeenStarted := true;
      }
    }

    /** `_start`: the status check, then, when the conference is inside its booked window
        and was not started yet, every participant connected in id order. `queried` is the
        log after the status check and `eligible` the start eligibility it left. */
    method Start(now: int) returns (r: Outcome, ghost status: Outcome, ghost queried: seq<Call>, ghost eligible: bool)
      requires Valid()
      modifies mcu, this`description, this`bookingId, this`customId, this`oldName, this`pin,
               this`participants, this`startDate, this`endDate, this`created,
               this`canBeStarted, this`canBeStopped, this`statusMessage, this`statusClass,
               this`needsToBeNotifiedOfDateChanges, this`canBeNotifiedOfEventDateChanges,
               this`faultCode, this`creationTriesCounter, this`hasBeenStarted
      ensures Valid()
      ensures forall k :: k in participants ==> k in old(participants) && participants[k] == old(participants)[k]
      ensures status.Raised? ==> r == status && mcu.log == queried
      ensures status.Done? && old(created) && created ==>
                eligible == (startDate < now < endDate && !old(hasBeenStarted))
      ensures status.Done? && !eligible ==> r == Raised(CannotStart) && mcu.log == queried
      ensures status.Done? && eligible ==>
                && (r.Done? <==> mcu.Clean(|queried|, |mcu.log|))
                && (!r.Done? ==> AbortedOn(Operation.Start, r, |queried|))
      ensures r.Done? ==> && mcu.log == queried + ConnectCalls(name, naming, SortedParticipants(participants))
                          && statusMessage == ConferenceStarted && !canBeStarted && canBeStopped && hasBeenStarted
    {
      var checked := CheckStatus(now);
      status := checked;
      queried := mcu.log;
      eligible := canBeStarted;
      if checked.Raised? {
        return checked, status, queried, eligible;
      }
      var list := SortedParticipants(participants);
      ghost var connected;
      r, connected := StartChecked(list);
      if r.Done? {
        assert list[..connected] == list;
      }
    }

    /** `_stop` after its status check: disconnects the participants when the conference
        can be stopped, and refuses otherwise. */
    method StopChecked(list: seq<Participant>) returns (r: Outcome, ghost disconnected: nat)
      modifies mcu, this`faultCode, this`creationTriesCounter, this`statusMessage, this`statusClass,
               this`canBeStarted, this`canBeStopped, this`hasBeenStarted
      ensures creationTriesCounter == old(creationTriesCounter)
      ensures disconnected <= |list|
      ensures !old(canBeStopped) ==> r == Raised(CannotStop) && mcu.log == old(mcu.log) && disconnected == 0
      ensures old(canBeStopped) ==>
                && mcu.log == old(mcu.log) + DisconnectCalls(name, naming, list[..disconnected])
                && (r.Done? <==> StopFaultsIgnored(mcu.faults, |old(mcu.log)|, |mcu.log|, autoGeneratedId))
                && (!r.Done? ==> AbortedOn(Operation.Stop, r, |old(mcu.log)|))
      ensures r.Done? ==> && disconnected == |list| && statusMessage == ConferenceStopped
                          && statusClass == StatusOther && canBeStarted && !canBeStopped && !hasBeenStarted
      ensures !r.Done? ==> && statusMessage == old(statusMessage) && statusClass == old(statusClass)
                           && canBeStarted == old(canBeStarted) && canBeStopped == old(canBeStopped)
                           && hasBeenStarted == old(hasBeenStarted)
    {
      if !canBeStopped {
        return Raised(CannotStop), 0;
      }
      r, disconnected := DisconnectAll(list);
      if r.Done? {
        statusMessage := ConferenceStopped;
        statusClass := StatusOther;
        canBeStarted := true;
        canBeStopped := false;
        hasBeenStarted := false;
      }
    }

    /** `_stop`: the status check, then, when the conference can be stopped, every
        participant disconnected in id order, passing over the faults a stop ignores.
        `queried` is the log after the status check and `stoppable` the flag it left. */
    method Stop(now: int) returns (r: Outcome, ghost status: Outcome, ghost queried: seq<Call>, ghost stoppable: bool)
      requires Valid()
      modifies mcu, this`description, this`bookingId, this`customId, this`oldName, this`pin,
               this`participants, this`startDate, this`endDate, this`created,
               this`canBeStarted, this`canBeStopped, this`statusMessage, this`statusClass,
               this`needsToBeNotifiedOfDateChanges, this`canBeNotifiedOfEventDateChanges,
               this`faultCode, this`creationTriesCounter, this`hasBeenStarted
      ensures Valid()
      ensures forall k :: k in participants ==> k in old(participants) && participants[k] == old(participants)[k]
      ensures status.Raised? ==> r == status && mcu.log == queried
      ensures status.Done? && old(created) && created && startDate < now < endDate && !old(hasBeenStarted) ==>
                !stoppable
      ensures status.Done? && !stoppable ==> r == Raised(CannotStop) && mcu.log == queried
      ensures status.Done? && stoppable ==>
                && (r.Done? <==> StopFaultsIgnored(mcu.faults, |queried|, |mcu.log|, autoGeneratedId))
                && (!r.Done? ==> AbortedOn(Operation.Stop, r, |queried|))
      ensures r.Done? ==> && mcu.log == queried + DisconnectCalls(name, naming, SortedParticipants(participants))
                          && statusMessage == ConferenceStopped && canBeStarted && !canBeStopped && !hasBeenStarted
    {
      var checked := CheckStatus(now);
      status := checked;
      queried := mcu.log;
      stoppable := canBeStopped;
      if checked.Raised? {
        return checked, status, queried, stoppable;
      }
      var list := SortedParticipants(participants);
      ghost var disconnected;
      r, disconnected := StopChecked(list);
      if r.Done? {
        assert list[..disconnected] == list;
      }
    }
  }
}
