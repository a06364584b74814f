/** The pre-flight check of a booking's parameters, run before any remote call. */
module Validation {
  import opened McuTypes
  import opened Text

  datatype ValidationError =
    | NameEmpty
    | NameTooLong
    | DescriptionEmpty
    | CustomIdEmpty
    | CustomIdNotInteger
    | CustomIdNotFiveCharacters
    | CustomIdNotText          // the id is no longer a string: `strip` fails with an `AttributeError`
    | PinNotInteger
    | PinTooLong
    | EndInPast
    | StartBeforeEventStart
    | StartAfterEventEnd
    | InvalidIp(ip: string)
    | MissingFamilyName
    | MissingFirstName
    | MissingRoomName
    | DuplicateName(name: string)
    | DuplicateIp(ip: string)

  /** The longest name and pin the unit stores are 31 characters; a custom id has 5. */
  const MaxFieldLength := 31
  const CustomIdLength := 5

  /** The checks on the booking's own fields, in the order `_checkBookingParams` makes them;
      `None` when they all pass. */
  function FieldsError(name: string, description: string, autoId: bool, customId: IdValue, pin: Option<string>,
                       start: int, end: int, now: int, minStart: int, maxEnd: int): Option<ValidationError>
  {
    if NameError(name).Some? then NameError(name)
    else if Strip(description) == [] then Some(DescriptionEmpty)
    else if !autoId && CustomIdError(customId).Some? then CustomIdError(customId)
    else if PinError(pin).Some? then PinError(pin)
    else ScheduleError(start, end, now, minStart, maxEnd)
  }

  /** The checks on the conference name. */
  function NameError(name: string): Option<ValidationError>
  {
    if Strip(name) == [] then Some(NameEmpty)
    else if |name| > MaxFieldLength then Some(NameTooLong)
    else None
  }

  /** The checks on a pin: an empty one means no pin. */
  function PinError(pin: Option<string>): Option<ValidationError>
  {
    if pin.Some? && pin.value != [] && !IsInteger(pin.value) then Some(PinNotInteger)
    else if pin.Some? && pin.value != [] && |pin.value| > MaxFieldLength then Some(PinTooLong)
    else None
  }

  /** The checks on the dates: the booking must not end in the past and must start within
      the event. */
  function ScheduleError(start: int, end: int, now: int, minStart: int, maxEnd: int): Option<ValidationError>
  {
    if end < now then Some(EndInPast)
    else if start < minStart then Some(StartBeforeEventStart)
    else if start > maxEnd then Some(StartAfterEventEnd)
    else None
  }

  /** The checks on a user-chosen id. */
  function CustomIdError(customId: IdValue): Option<ValidationError>
  {
    match customId
    case Text(s) =>
      if Strip(s) == [] then Some(CustomIdEmpty)
      else if !IsInteger(s) then Some(CustomIdNotInteger)
      else if |Strip(s)| != CustomIdLength then Some(CustomIdNotFiveCharacters)
      else None
    case _ => Some(CustomIdNotText)
  }

  /** What the fields must satisfy, stated declaratively. */
  predicate FieldsAcceptable(name: string, description: string, autoId: bool, customId: IdValue, pin: Option<string>,
                             start: int, end: int, now: int, minStart: int, maxEnd: int)
  {
    && !IsBlank(name) && |name| <= MaxFieldLength
    && !IsBlank(description)
    && (autoId || (customId.Text? && IsInteger(customId.text) && |Strip(customId.text)| == CustomIdLength))
    && (pin.Some? && pin.value != [] ==> IsInteger(pin.value) && |pin.value| <= MaxFieldLength)
    && now <= end
    && minStart <= start <= maxEnd
  }

  /** The name checks pass exactly for a name that is not blank and fits the unit's field. */
  lemma NameErrorMeans(name: string)
    ensures NameError(name).None? <==> !IsBlank(name) && |name| <= MaxFieldLength
  {
    StripEmptyIffBlank(name);
  }

  /** The custom id checks pass exactly for text that parses as an integer and strips to five characters. */
  lemma CustomIdErrorMeans(customId: IdValue)
    ensures CustomIdError(customId).None? <==>
              customId.Text? && IsInteger(customId.text) && |Strip(customId.text)| == CustomIdLength
  {
    if customId.Text? {
      StripEmptyIffBlank(customId.text);
    }
  }

  /** The sequential checks reject exactly the bookings the declarative rules reject. */
  lemma FieldsErrorMeansUnacceptable(name: string, description: string, autoId: bool, customId: IdValue,
                                     pin: Option<string>, start: int, end: int, now: int, minStart: int, maxEnd: int)
    ensures FieldsError(name, description, autoId, customId, pin, start, end, now, minStart, maxEnd).None?
            <==> FieldsAcceptable(name, description, autoId, customId, pin, start, end, now, minStart, maxEnd)
  {
    NameErrorMeans(name);
    StripEmptyIffBlank(description);
    CustomIdErrorMeans(customId);
  }

  /** The first problem of one participant's own fields, in the order `_checkBookingParams` checks them. */
  function OwnFieldsError(p: Participant, validIp: string -> bool): Option<ValidationError>
  {
    if !validIp(p.details.ip) then Some(InvalidIp(p.details.ip))
    else match p.details
      case Person(family, first, _, _) =>
        if family == [] then Some(MissingFamilyName)
        else if first == [] then Some(MissingFirstName)
        else None
      case Room(roomName, _) =>
        if roomName == [] then Some(MissingRoomName) else None
  }

  predicate NamesDistinct(ps: map<int, Participant>, naming: Naming)
  {
    forall k1, k2 :: k1 in ps && k2 in ps && k1 != k2 ==>
      naming.participantName(ps[k1]) != naming.participantName(ps[k2])
  }

  predicate IpsDistinct(ps: map<int, Participant>)
  {
    forall k1, k2 :: k1 in ps && k2 in ps && k1 != k2 ==> ps[k1].details.ip != ps[k2].details.ip
  }

  /** Every participant is complete and has a valid address, and no two share a name or an address. */
  predicate ParticipantsAcceptable(ps: map<int, Participant>, naming: Naming, validIp: string -> bool)
  {
    && (forall k :: k in ps ==> OwnFieldsError(ps[k], validIp).None?)
    && NamesDistinct(ps, naming)
    && IpsDistinct(ps)
  }

  /** `e` describes a real problem of some participant of `ps`. */
  predicate Describes(ps: map<int, Participant>, naming: Naming, validIp: string -> bool, e: ValidationError)
  {
    match e
    case DuplicateName(n) =>
      exists k1, k2 :: k1 in ps && k2 in ps && k1 != k2 &&
        naming.participantName(ps[k1]) == n && naming.participantName(ps[k2]) == n
    case DuplicateIp(ip) =>
      exists k1, k2 :: k1 in ps && k2 in ps && k1 != k2 && ps[k1].details.ip == ip && ps[k2].details.ip == ip
    case _ => exists k :: k in ps && OwnFieldsError(ps[k], validIp) == Some(e)
  }

  /** The participants `seen` so far passed the loop: their names and addresses were
      collected, their own fields are fine and none repeats another's name or address. */
  ghost predicate Checked(ps: map<int, Participant>, naming: Naming, validIp: string -> bool,
                          seen: set<int>, names: set<string>, ips: set<string>)
  {
    && seen <= ps.Keys
    && names == (set k | k in seen :: naming.participantName(ps[k]))
    && ips == (set k | k in seen :: ps[k].details.ip)
    && (forall k :: k in seen ==> OwnFieldsError(ps[k], validIp).None?)
    && (forall k1, k2 :: k1 in seen && k2 in seen && k1 != k2 ==>
          naming.participantName(ps[k1]) != naming.participantName(ps[k2]))
    && (forall k1, k2 :: k1 in seen && k2 in seen && k1 != k2 ==> ps[k1].details.ip != ps[k2].details.ip)
  }

  /** A participant that passes every check joins the checked ones. */
  lemma CheckedStep(ps: map<int, Participant>, naming: Naming, validIp: string -> bool,
                    seen: set<int>, names: set<string>, ips: set<string>, k: int)
    requires Checked(ps, naming, validIp, seen, names, ips) && k in ps && k !in seen
    requires OwnFieldsError(ps[k], validIp).None?
    requires naming.participantName(ps[k]) !in names && ps[k].details.ip !in ips
    ensures Checked(ps, naming, validIp, seen + {k}, names + {naming.participantName(ps[k])}, ips + {ps[k].details.ip})
  {
  }

  /** A participant whose name was already collected repeats the name of an earlier one. */
  lemma NameClash(ps: map<int, Participant>, naming: Naming, validIp: string -> bool,
                  seen: set<int>, names: set<string>, ips: set<string>, k: int)
    requires Checked(ps, naming, validIp, seen, names, ips) && k in ps && k !in seen
    requires naming.participantName(ps[k]) in names
    ensures !ParticipantsAcceptable(ps, naming, validIp)
    ensures Describes(ps, naming, validIp, DuplicateName(naming.participantName(ps[k])))
  {
    var other :| other in seen && naming.participantName(ps[other]) == naming.participantName(ps[k]);
    assert other != k;
  }

  /** A participant whose address was already collected repeats the address of an earlier one. */
  lemma IpClash(ps: map<int, Participant>, naming: Naming, validIp: string -> bool,
                seen: set<int>, names: set<string>, ips: set<string>, k: int)
    requires Checked(ps, naming, validIp, seen, names, ips) && k in ps && k !in seen
    requires ps[k].details.ip in ips
    ensures !ParticipantsAcceptable(ps, naming, validIp)
    ensures Describes(ps, naming, validIp, DuplicateIp(ps[k].details.ip))
  {
    var other :| other in seen && ps[other].details.ip == ps[k].details.ip;
    assert other != k;
  }

  /** The loop over the participants (in the dictionary's unspecified order): the first
      participant with a bad field, or whose name or address repeats an earlier one, stops it. */
  method CheckParticipants(ps: map<int, Participant>, naming: Naming, validIp: string -> bool)
    returns (err: Option<ValidationError>)
    ensures err.None? <==> ParticipantsAcceptable(ps, naming, validIp)
    ensures err.Some? ==> Describes(ps, naming, validIp, err.value)
  {
    var names: set<string> := {};
    var ips: set<string> := {};
    var pending := ps.Keys;
    ghost var seen: set<int> := {};
    while pending != {}
      invariant pending !! seen && pending + seen == ps.Keys
      invariant Checked(ps, naming, validIp, seen, names, ips)
      decreases pending
    {
      var k := Pick(pending);
      var p := ps[k];
      var fieldErr := OwnFieldsError(p, validIp);
      if fieldErr.Some? {
        return fieldErr;
      }
      var n := naming.participantName(p);
      if n in names {
        NameClash(ps, naming, validIp, seen, names, ips, k);
        return Some(DuplicateName(n));
      }
      var ip := p.details.ip;
      if ip in ips {
        IpClash(ps, naming, validIp, seen, names, ips, k);
        return Some(DuplicateIp(ip));
      }
      CheckedStep(ps, naming, validIp, seen, names, ips, k);
      names := names + {n};
      ips := ips + {ip};
      seen := seen + {k};
      pending := pending - {k};
    }
    return None;
  }
}
