# CERN MCU booking, modelled in Dafny

This project models the booking class of Indico's CERN MCU collaboration plug-in. A
booking is a videoconference that the plug-in keeps on a conferencing unit (the MCU).
The booking holds a local record: name, description, numeric id, pin, participants,
dates, and created/started flags. It keeps that record in step with the unit through
the unit's remote calls: create, modify, delete, start, stop, and the status queries
that read the unit's conference and participant enumerations.

The model is split as the code is:

- `FaultPolicy` (faults.dfy): the decision table of `handleFault`. For each fault
  code the unit returns during an operation, it says whether the booking raises,
  returns a soft error, retries with a new id, or ignores the fault.
- `Timing` (timing.dfy): the daylight-saving correction of the duration. The unit
  only knows naive wall-clock times. Instants are integer seconds, and the zone's
  UTC offset is an integer function.
- `Text` (text.dfy): `strip`, the integer syntax that `int()` accepts, and the
  description cut to 31 characters.
- `Validation` (validation.dfy): `_checkBookingParams`, as a sequential check and as
  a declarative rule, and a proof that the two agree.
- `ParticipantMap` (participants.dfy): the re-keying done by `setParticipants`, and
  the participant list sorted by id.
- `Enumeration` (enumeration.dfy): the cursor protocol of the unit's enumerations,
  what a participant enumeration collects, and the page-by-page conference search.
- `Reconcile` (reconcile.dfy): the calls `_modify` makes to bring the unit's
  participant list in line with the booking's, and what they do per participant.
- `Remote` (remote.dfy): the unit as the booking sees it. Every call is appended to
  a log. A call fails exactly when a fault code is scripted for its position in the
  log. The enumerations read fixed pages. Conference ids come from a counter.
- `Collaboration` (booking.dfy): the class `CSBooking`, its fields, and every
  operation as a method over the unit.

Python's iteration order over dictionaries and sets is unspecified. Each loop over
one picks its next element from the ones still pending. The methods return, as ghost
values, the order in which they visited the elements, and their contracts hold for
that order. The properties that do not depend on the order are proved per
participant, for every order, in `Reconcile`.

## Model

| member | source | states |
|---|---|---|
| FaultPolicy.AuthorizationAlwaysFatal | indico/MaKaC/plugins/Collaboration/CERNMCU/collaboration.py:706-707 | Fault 14 is raised as an authorization failure whatever the operation. |
| FaultPolicy.CreateModifyFaults | indico/MaKaC/plugins/Collaboration/CERNMCU/collaboration.py:709-724 | Under create or modify, faults 2 and 6 are soft. Fault 18 is retried with a generated id and soft with a user id. Every other fault is raised. Each direction of each case is stated. |
| FaultPolicy.AddFaults | indico/MaKaC/plugins/Collaboration/CERNMCU/collaboration.py:729-737 | Under add, faults 3 and 7 are soft and every other fault is raised. |
| FaultPolicy.StopFaults | indico/MaKaC/plugins/Collaboration/CERNMCU/collaboration.py:748-754 | Under stop, faults 201 and 5 are ignored and every other fault is raised. |
| FaultPolicy.AlwaysFatalOperations | indico/MaKaC/plugins/Collaboration/CERNMCU/collaboration.py:726-746 | Delete, modifyParticipant, remove and start raise on every fault, as a problem of that operation unless the fault is 14. |
| FaultPolicy.RetryAndIgnoreAreNarrow | indico/MaKaC/plugins/Collaboration/CERNMCU/collaboration.py:702-754 | A fault is retried exactly for fault 18 under create or modify with a generated id. It is ignored exactly for faults 201 and 5 under stop. |
| FaultPolicy.Settle | indico/MaKaC/plugins/Collaboration/CERNMCU/collaboration.py:709-754 | A soft fault becomes a returned error carrying the fault code and the given detail. A fatal fault becomes a raised failure with its reason and code. |
| Timing.DurationIsWallClockLength | indico/MaKaC/plugins/Collaboration/CERNMCU/collaboration.py:86-95 | The corrected duration is the booking's length on the unit's wall clock. |
| Timing.DurationWithoutOffsetChange | indico/MaKaC/plugins/Collaboration/CERNMCU/collaboration.py:86-95 | When the UTC offset is the same at start and end, the duration is the elapsed time. |
| Timing.DurationRoundTrip | indico/MaKaC/plugins/Collaboration/CERNMCU/collaboration.py:97-104 | Reading the duration back after setting the end from it gives that duration, exactly when the offset at the new end equals the offset at start plus duration. |
| Timing.EndRoundTrip | indico/MaKaC/plugins/Collaboration/CERNMCU/collaboration.py:97-104 | Setting the end from an interval's own duration gives back its end, exactly when the offset at start plus duration equals the offset at the end. |
| Timing.EndKeepsWallClockLength | indico/MaKaC/plugins/Collaboration/CERNMCU/collaboration.py:97-104 | Under the same condition, the new end lies the requested number of wall-clock seconds after the start. |
| Text.StripEmptyIffBlank | indico/MaKaC/plugins/Collaboration/CERNMCU/collaboration.py:177-185 | A string strips to the empty string exactly when it is all whitespace. |
| Text.Slice | indico/MaKaC/plugins/Collaboration/CERNMCU/collaboration.py:268 | The description sent on create is its prefix of at most 31 characters: the whole of it when it fits, exactly 31 characters otherwise. |
| Text.SpaceAfterSign | indico/MaKaC/plugins/Collaboration/CERNMCU/collaboration.py:193-198 | Whitespace may separate the sign from the digits: a sign, any run of blanks and a non-empty digit string are accepted as an integer, the digits' value, negated exactly under '-' (so the five-character id "- 123" is -123). |
| Text.DigitsValueBound | indico/MaKaC/plugins/Collaboration/CERNMCU/collaboration.py:196-198 | A custom id of n digits converts to a number below 10^n. |
| Text.LeadingZerosIgnored | indico/MaKaC/plugins/Collaboration/CERNMCU/collaboration.py:198 | A leading zero does not change the converted value, so the id "00042" is stored as 42. |
| Validation.NameErrorMeans | indico/MaKaC/plugins/Collaboration/CERNMCU/collaboration.py:177-181 | The name passes its checks exactly when it is not blank and has at most 31 characters. |
| Validation.CustomIdErrorMeans | indico/MaKaC/plugins/Collaboration/CERNMCU/collaboration.py:188-197 | A user id passes its checks exactly when it is text that `int()` accepts and that strips to 5 characters. |
| Validation.FieldsErrorMeansUnacceptable | indico/MaKaC/plugins/Collaboration/CERNMCU/collaboration.py:176-221 | The sequential field checks find no problem exactly when the booking meets the declarative rules: name, description, user id, pin, end not past, start within the event. |
| Validation.NameClash | indico/MaKaC/plugins/Collaboration/CERNMCU/collaboration.py:238-240 | A participant whose unit name was already seen makes the participants unacceptable, and the duplicate-name error names a real clash. |
| Validation.IpClash | indico/MaKaC/plugins/Collaboration/CERNMCU/collaboration.py:244-246 | A participant whose address was already seen makes the participants unacceptable, and the duplicate-address error names a real clash. |
| Validation.CheckParticipants | indico/MaKaC/plugins/Collaboration/CERNMCU/collaboration.py:223-250 | The loop finds no problem exactly when every participant is complete with a valid address and no two share a name or an address. Any error it returns describes a real problem. |
| ParticipantMap.RekeyCounter | indico/MaKaC/plugins/Collaboration/CERNMCU/collaboration.py:153-166 | The id counter advances once per entry that does not keep an id, and every participant is filed under its own id. |
| ParticipantMap.RekeyKeys | indico/MaKaC/plugins/Collaboration/CERNMCU/collaboration.py:153-166 | The new dictionary's ids are exactly the kept previous ids plus one fresh counter value per other entry. |
| ParticipantMap.RekeyDetails | indico/MaKaC/plugins/Collaboration/CERNMCU/collaboration.py:156-166 | Every participant of the new dictionary is built from a supplied entry; nothing else survives. |
| ParticipantMap.FreshEntryKept | indico/MaKaC/plugins/Collaboration/CERNMCU/collaboration.py:157-166 | An entry without a kept id is filed under its own fresh id, and that id was not a previous key. |
| ParticipantMap.LastKeptEntryWins | indico/MaKaC/plugins/Collaboration/CERNMCU/collaboration.py:157-166 | A kept id holds the details of the last entry naming it. |
| ParticipantMap.RekeyKeepsIdsBelowCounter | indico/MaKaC/plugins/Collaboration/CERNMCU/collaboration.py:153-166 | The counter never goes down, all ids stay below it, and any id not kept from an entry is new. |
| ParticipantMap.SortedKeys | indico/MaKaC/plugins/Collaboration/CERNMCU/collaboration.py:144-145 | The sorted keys hold each id once, in strictly ascending order. |
| ParticipantMap.SortedParticipantsInOrder | indico/MaKaC/plugins/Collaboration/CERNMCU/collaboration.py:142-146 | The sorted participant list has one element per participant; its i-th element is the participant under the i-th smallest id. |
| Enumeration.PageAnswer | indico/MaKaC/plugins/Collaboration/CERNMCU/collaboration.py:690-691 | An answer carries a cursor only when a further page exists, and that cursor names that page. |
| Enumeration.ParticipantCallsAt | indico/MaKaC/plugins/Collaboration/CERNMCU/collaboration.py:670-677 | The k-th participant enumerate call carries cursor k; the first call carries none. |
| Enumeration.ConferenceCallsAt | indico/MaKaC/plugins/Collaboration/CERNMCU/collaboration.py:570-577 | The k-th conference enumerate call carries cursor k; the first call carries none. |
| Enumeration.AbsorbContents | indico/MaKaC/plugins/Collaboration/CERNMCU/collaboration.py:681-688 | After a page, a name is in the dictionary exactly when it was before or a record of the conference with that non-empty name appears. It holds the last such record's display name and address; untouched names keep their value. |
| Enumeration.GatheredNames | indico/MaKaC/plugins/Collaboration/CERNMCU/collaboration.py:670-693 | The names collected over all pages are exactly those some record of the conference reports. |
| Enumeration.GatheredStep | indico/MaKaC/plugins/Collaboration/CERNMCU/collaboration.py:670-691 | Each enumerate call absorbs the page it reads, and the complete enumeration gathers every page. |
| Enumeration.LastPage | indico/MaKaC/plugins/Collaboration/CERNMCU/collaboration.py:690-691 | An answer without cursor ends the enumeration after exactly one call per page (one call when there are no pages). |
| Enumeration.FirstNamed | indico/MaKaC/plugins/Collaboration/CERNMCU/collaboration.py:581-586 | The position found holds a conference of that name and no earlier record does; no position means no record of the page has that name. |
| Enumeration.FoundOn | indico/MaKaC/plugins/Collaboration/CERNMCU/collaboration.py:581-586 | The record found on a page is its first record of that conference name. |
| Enumeration.LocateStep | indico/MaKaC/plugins/Collaboration/CERNMCU/collaboration.py:570-645 | One step of the search: the page read decides it, or its cursor leads to the next page and the search goes on there. |
| Enumeration.LocateReads | indico/MaKaC/plugins/Collaboration/CERNMCU/collaboration.py:570-645 | The search reads at least one page and never more pages than the enumeration has. |
| Enumeration.LocateFinds | indico/MaKaC/plugins/Collaboration/CERNMCU/collaboration.py:570-648 | The search finds a record exactly when some page holds a conference of that name. |
| Enumeration.LocateFindsFirst | indico/MaKaC/plugins/Collaboration/CERNMCU/collaboration.py:570-642 | The record found is the first of its name on the last page read, and no earlier page holds one. |
| Reconcile.Matched | indico/MaKaC/plugins/Collaboration/CERNMCU/collaboration.py:329-336 | The matched pairs are local participants the unit reports, each under its own name, and every visited participant the unit reports is among them. |
| Reconcile.MatchedIsTheLocalParticipant | indico/MaKaC/plugins/Collaboration/CERNMCU/collaboration.py:329-336 | With distinct names, the pair under a participant's name is that participant. |
| Reconcile.MatchedNames | indico/MaKaC/plugins/Collaboration/CERNMCU/collaboration.py:329-336 | A matched name is reported by the unit and is the name of a visited participant. |
| Reconcile.MatchCallsCases | indico/MaKaC/plugins/Collaboration/CERNMCU/collaboration.py:338-344 | A matched pair with another address gets a remove and then an add; one with the same address but another display name gets one rename; an identical one gets no call. |
| Reconcile.AddPhaseAbout | indico/MaKaC/plugins/Collaboration/CERNMCU/collaboration.py:329-334 | The first loop calls about a participant only to add it, and only when the unit does not report it. |
| Reconcile.UpdatePhaseAbout | indico/MaKaC/plugins/Collaboration/CERNMCU/collaboration.py:338-344 | The second loop calls about a matched name only with that pair's calls. |
| Reconcile.RemovePhaseAbout | indico/MaKaC/plugins/Collaboration/CERNMCU/collaboration.py:346-350 | The third loop removes each stale name once and calls about nothing else. |
| Reconcile.AboutPlan | indico/MaKaC/plugins/Collaboration/CERNMCU/collaboration.py:326-350 | The calls of a reconciliation about one participant are its add, its matched-pair calls and its removal, in that phase order. |
| Reconcile.ReconcileAddsMissing | indico/MaKaC/plugins/Collaboration/CERNMCU/collaboration.py:329-334 | A local participant the unit does not report gets exactly its add (and connect when running) and no other call. |
| Reconcile.ReconcileUpdatesMatched | indico/MaKaC/plugins/Collaboration/CERNMCU/collaboration.py:338-344 | A local participant the unit reports gets exactly the calls of its matched pair. |
| Reconcile.ReconcileRemovesStale | indico/MaKaC/plugins/Collaboration/CERNMCU/collaboration.py:346-350 | A name the unit reports and no local participant carries gets exactly one remove. |
| Reconcile.ReconcileLeavesOthers | indico/MaKaC/plugins/Collaboration/CERNMCU/collaboration.py:326-350 | A name on neither side gets no call. |
| Reconcile.PlanAssembled | indico/MaKaC/plugins/Collaboration/CERNMCU/collaboration.py:326-350 | The three loops run one after the other, each over its whole set, make the reconciliation's calls. |
| Remote.ConferenceIdSource.NewConferenceId | indico/MaKaC/plugins/Collaboration/CERNMCU/collaboration.py:255 | Each request yields the next id of the plug-in's counter. |
| Collaboration.AdoptedDescription | indico/MaKaC/plugins/Collaboration/CERNMCU/collaboration.py:588-590 | The unit's description is taken unless it has 31 or more characters and the local one starts with it. |
| Collaboration.ConnectCallsAt | indico/MaKaC/plugins/Collaboration/CERNMCU/collaboration.py:371-375 | The i-th connect call of a start is for the i-th participant of the list. |
| Collaboration.DisconnectCallsAt | indico/MaKaC/plugins/Collaboration/CERNMCU/collaboration.py:397-402 | The i-th disconnect call of a stop is for the i-th participant of the list. |
| Collaboration.OutOfIds | indico/MaKaC/plugins/Collaboration/CERNMCU/collaboration.py:257 | The error of a booking out of id tries is the soft too-many-tries error. |
| Collaboration.Surviving | indico/MaKaC/plugins/Collaboration/CERNMCU/collaboration.py:598-600 | Exactly the participants whose name the unit reports are kept, unchanged. |
| Collaboration.AbsorbPage | indico/MaKaC/plugins/Collaboration/CERNMCU/collaboration.py:681-688 | The loop over one page's records builds the dictionary the page absorbs. |
| Collaboration.ScanPage | indico/MaKaC/plugins/Collaboration/CERNMCU/collaboration.py:581-586 | The loop over one page finds a record exactly when the page has one of that name, and it finds the first. |
| Collaboration.NextParticipantPage | indico/MaKaC/plugins/Collaboration/CERNMCU/collaboration.py:671-677 | One enumerate call with the previous cursor: the log grows by that call, and the answer is the unit's page for that cursor or the call's fault. |
| Collaboration.QueryParticipants | indico/MaKaC/plugins/Collaboration/CERNMCU/collaboration.py:658-700 | Without fault, one call per page, and the result is what the pages gather. On a fault, the calls up to the faulting one, and that fault is passed on. |
| Collaboration.SearchConferencePage | indico/MaKaC/plugins/Collaboration/CERNMCU/collaboration.py:571-586 | One conference enumerate call: a fault ends the search; a found record or a missing cursor decides it; otherwise the search continues at the next page. |
| Collaboration.LocateConference | indico/MaKaC/plugins/Collaboration/CERNMCU/collaboration.py:566-645 | Without fault, the calls and the result are those of the page-by-page search, stopping at the first page that has the name. A fault is passed on after the calls made so far. |
| Collaboration.CSBooking.constructor | indico/MaKaC/plugins/Collaboration/CERNMCU/collaboration.py:69-81 | A new booking is not created or started, has no pin, no participants and no old name, and its id counter is at 1. |
| Collaboration.CSBooking.SetAutoGenerateId | indico/MaKaC/plugins/Collaboration/CERNMCU/collaboration.py:106-107 | The id is generated exactly when the answer is "yes". |
| Collaboration.CSBooking.AutoGenerateIdAnswer | indico/MaKaC/plugins/Collaboration/CERNMCU/collaboration.py:109-113 | The answer is "yes" exactly when the id is generated, and "no" otherwise. |
| Collaboration.CSBooking.SetCustomId | indico/MaKaC/plugins/Collaboration/CERNMCU/collaboration.py:115-116 | The user's id is stored as typed. |
| Collaboration.CSBooking.CustomId | indico/MaKaC/plugins/Collaboration/CERNMCU/collaboration.py:118-122 | The user's id, or the empty one while the id is generated. |
| Collaboration.CSBooking.SetPin | indico/MaKaC/plugins/Collaboration/CERNMCU/collaboration.py:129-136 | A missing or blank pin is stored as the empty pin, any other one as given. The booking has a pin exactly when a non-blank one was given. |
| Collaboration.CSBooking.SetParticipants | indico/MaKaC/plugins/Collaboration/CERNMCU/collaboration.py:153-168 | The loop leaves the dictionary and counter the re-keying function gives, and keeps every id filed under itself and below the counter. |
| Collaboration.CSBooking.DurationSeconds | indico/MaKaC/plugins/Collaboration/CERNMCU/collaboration.py:86-95 | The duration is the booking's length on the unit's wall clock. |
| Collaboration.CSBooking.SetDurationSeconds | indico/MaKaC/plugins/Collaboration/CERNMCU/collaboration.py:97-104 | The end is set from the duration with the offset correction. Reading the duration back gives it whenever the offset at the new end equals the offset at start plus duration. |
| Collaboration.CSBooking.CheckName | indico/MaKaC/plugins/Collaboration/CERNMCU/collaboration.py:177-183 | The name's error is the one the rules give, and the name is stripped exactly when it passes. |
| Collaboration.CSBooking.CheckFields | indico/MaKaC/plugins/Collaboration/CERNMCU/collaboration.py:176-221 | The first field error in source order is returned. The name is stripped once it passed, and the user id becomes a number once it passed. |
| Collaboration.CSBooking.CheckBookingParams | indico/MaKaC/plugins/Collaboration/CERNMCU/collaboration.py:176-250 | A field error wins. Otherwise the check passes exactly when the participants are acceptable, and any participant error describes a real problem. |
| Collaboration.CSBooking.HandleFault | indico/MaKaC/plugins/Collaboration/CERNMCU/collaboration.py:702-719 | The fault code is recorded, the action is the table's, and a retried duplicate id counts one more try. |
| Collaboration.CSBooking.CheckCanStart | indico/MaKaC/plugins/Collaboration/CERNMCU/collaboration.py:540-556 | A booking not created is untouched. A created one can start exactly when now is inside its window and it was not started, and then cannot be stopped. Once the booking is over, with a message change, both notification flags are cleared. |
| Collaboration.CSBooking.AddParticipant | indico/MaKaC/plugins/Collaboration/CERNMCU/collaboration.py:462-492 | An add, then a connect when running. Done exactly when neither faults. Otherwise the calls stop at the faulting one, and the fault is settled as an add fault carrying the participant's address. |
| Collaboration.CSBooking.ModifyParticipantDisplayName | indico/MaKaC/plugins/Collaboration/CERNMCU/collaboration.py:494-520 | One rename in the active or configured scope, as the conference runs or not. Any fault is raised. |
| Collaboration.CSBooking.RemoveParticipant | indico/MaKaC/plugins/Collaboration/CERNMCU/collaboration.py:522-538 | One remove call. Any fault is raised. |
| Collaboration.CSBooking.Delete | indico/MaKaC/plugins/Collaboration/CERNMCU/collaboration.py:433-458 | A booking not created only clears its error flag. Otherwise one destroy, under the old name when one is given. Success un-creates the booking only without an old name. Fault 4 is swallowed and the booking stays created. Any other fault is raised. |
| Collaboration.CSBooking.DropVanished | indico/MaKaC/plugins/Collaboration/CERNMCU/collaboration.py:598-600 | The loop leaves exactly the participants whose name the unit reports. |
| Collaboration.CSBooking.AdoptRecord | indico/MaKaC/plugins/Collaboration/CERNMCU/collaboration.py:588-595 | The booking takes the unit's description (unless cut off), numeric id and pin; the user id follows the numeric id when not generated. |
| Collaboration.CSBooking.AdoptSchedule | indico/MaKaC/plugins/Collaboration/CERNMCU/collaboration.py:630-639 | The booking takes the unit's start when reported; its end follows the duration, or equals the start when no duration is reported. |
| Collaboration.CSBooking.SyncParticipants | indico/MaKaC/plugins/Collaboration/CERNMCU/collaboration.py:597-600 | The participant query, then only the participants the unit reports are kept. A query fault is raised unchanged and leaves the participants alone. |
| Collaboration.CSBooking.Adopt | indico/MaKaC/plugins/Collaboration/CERNMCU/collaboration.py:588-641 | A found conference is adopted: record fields, schedule, surviving participants, and the booking marked created. A participant query fault is raised. |
| Collaboration.CSBooking.QueryConference | indico/MaKaC/plugins/Collaboration/CERNMCU/collaboration.py:558-656 | Not found: the booking is marked not created and keeps its fields. Found: the booking adopts the unit's state after the search and participant calls. Faults are raised unchanged. Participants are only ever dropped (the adoption of unknown remote participants being left out). |
| Collaboration.CSBooking.CheckStatus | indico/MaKaC/plugins/Collaboration/CERNMCU/collaboration.py:428-431 | A booking not created makes no call. A created one is queried, then its start eligibility is recomputed. The status check never creates a booking. |
| Collaboration.CSBooking.AddAll | indico/MaKaC/plugins/Collaboration/CERNMCU/collaboration.py:274-277 | Every participant is added in the visiting order until one add does not go through, and that one's outcome is returned. |
| Collaboration.CSBooking.Populate | indico/MaKaC/plugins/Collaboration/CERNMCU/collaboration.py:274-284 | After an accepted create, the participants are added. The booking is marked created only when all went through, and is otherwise left as it was. |
| Collaboration.CSBooking.MarkCreated | indico/MaKaC/plugins/Collaboration/CERNMCU/collaboration.py:279-284 | The booking is created under the id used and its current name, with the start check's eligibility and message. |
| Collaboration.CSBooking.Attempt | indico/MaKaC/plugins/Collaboration/CERNMCU/collaboration.py:261-288 | One create call. A duplicate generated id asks for a retry and counts one more try. Any other outcome ends the run: created with every participant added, or the create's or an add's fault settled. |
| Collaboration.CSBooking.Create | indico/MaKaC/plugins/Collaboration/CERNMCU/collaboration.py:252-291 | With a generated id, at most the tries left below 100 are made, each with the next id. The run ends out of ids exactly when the counter reaches 100. All calls but the last were duplicate ids. A user id is tried once. Otherwise the last create call ended the run: Done exactly when the unit took it and every participant add went through, the booking then being created under that id; else the create's fault settled as a create fault, or the first failing add's fault settled as an add fault. A raised failure comes from the last call. Only a successful create changes the booking's creation fields. |
| Collaboration.CSBooking.CreateFrom | indico/MaKaC/plugins/Collaboration/CERNMCU/collaboration.py:253-259 | The id choice of one round: out of ids at 100 tries with no call, else the next generated id or the user's id. The round then continues, and the run ends, as in Create. |
| Collaboration.CSBooking.CreateWith | indico/MaKaC/plugins/Collaboration/CERNMCU/collaboration.py:261-288 | One create call with the chosen id, retried or ended as Attempt says; the run's counters, rejected calls and last call's ending are as in Create. |
| Collaboration.CSBooking.CreateNext | indico/MaKaC/plugins/Collaboration/CERNMCU/collaboration.py:716-719 | After a duplicate generated id, `_create` runs again with the counter one higher; the run's counters, rejected calls and last call's ending are as in Create. |
| Collaboration.CSBooking.AddMissing | indico/MaKaC/plugins/Collaboration/CERNMCU/collaboration.py:329-336 | The first loop: every participant the unit does not report is added in the visiting order, the others are collected as matched pairs. The first add that does not go through ends it with its settled fault. |
| Collaboration.CSBooking.AddMissingNext | indico/MaKaC/plugins/Collaboration/CERNMCU/collaboration.py:330-336 | One participant of the first loop: added when the unit does not report it, set aside as matched otherwise. |
| Collaboration.CSBooking.UpdateNext | indico/MaKaC/plugins/Collaboration/CERNMCU/collaboration.py:339-344 | One matched pair: without fault, exactly its matched-pair calls are made. Only a raised failure ends the loop; the re-add's soft error is dropped. |
| Collaboration.CSBooking.UpdateMatched | indico/MaKaC/plugins/Collaboration/CERNMCU/collaboration.py:338-344 | The second loop over every matched pair in the visiting order. Without fault the log grows by exactly their calls. Only a raised failure ends it. |
| Collaboration.CSBooking.RemoveStale | indico/MaKaC/plugins/Collaboration/CERNMCU/collaboration.py:346-350 | The third loop removes every stale name once, in the visiting order. The first fault is raised. |
| Collaboration.CSBooking.Reconciled | indico/MaKaC/plugins/Collaboration/CERNMCU/collaboration.py:352-353 | After a clean modification the booking is created and its start eligibility recomputed. |
| Collaboration.CSBooking.RemoveAndConclude | indico/MaKaC/plugins/Collaboration/CERNMCU/collaboration.py:346-353 | The third loop, then the booking marked created when it went through; otherwise a failure raised by the last call, carrying that call's fault code. |
| Collaboration.CSBooking.ReconcileRest | indico/MaKaC/plugins/Collaboration/CERNMCU/collaboration.py:338-353 | The second and third loops: without fault, the matched-pair calls and then the stale removals, and the booking marked created; otherwise a failure raised by the last call, carrying that call's fault code. |
| Collaboration.CSBooking.ReconcileWith | indico/MaKaC/plugins/Collaboration/CERNMCU/collaboration.py:326-353 | Without fault, the log grows by exactly the reconciliation's calls, for orders that visit every participant, pair and stale name, and the booking is created. A raised failure carries the fault code of the last call; a soft error is an add's. |
| Collaboration.CSBooking.ModifyId | indico/MaKaC/plugins/Collaboration/CERNMCU/collaboration.py:303-306 | Modify sends the id the booking was created with, or the user's id. |
| Collaboration.CSBooking.ModifyFault | indico/MaKaC/plugins/Collaboration/CERNMCU/collaboration.py:356-358 | A modify fault that is not retried is settled as the table says, recorded, and changes nothing else. A duplicate generated id instead runs `_create` again, within the tries left: only a Done run creates the booking, any other leaves the creation fields, and a raised failure comes from the run's last call. |
| Collaboration.CSBooking.Reconcile | indico/MaKaC/plugins/Collaboration/CERNMCU/collaboration.py:325-358 | The participant query comes first. A faulting query call is handled as a modify fault, as ModifyFault states. After a clean query: without a later fault, the reconciliation's calls against what the query gathered follow and the booking is created; otherwise the outcome comes from the last call: a raised failure carries that call's fault code, and a returned soft error is an add's, settled as an add fault. |
| Collaboration.CSBooking.Modify | indico/MaKaC/plugins/Collaboration/CERNMCU/collaboration.py:293-364 | A booking not created is created instead: the outcome that create returns is dropped, so Done is returned, but a failure it raises goes through, raised by the last call; the booking is created exactly when that create returned Done. Otherwise one modify call under the old name. A fault of that call is handled as ModifyFault states. Without it, the booking takes the id sent and its name as old name, and the participant part follows as Reconcile states: without any fault, the enumeration and the reconciliation's calls, the booking created; a faulting query handled as a modify fault; any other ending coming from the last call, a raised failure carrying that call's fault code and a soft error being an add's. |
| Collaboration.CSBooking.ConnectAll | indico/MaKaC/plugins/Collaboration/CERNMCU/collaboration.py:371-385 | Each participant of the list is connected in order. Done exactly when no call faulted. The first fault ends the loop and is raised as a start failure. |
| Collaboration.CSBooking.DisconnectAll | indico/MaKaC/plugins/Collaboration/CERNMCU/collaboration.py:397-408 | Each participant is disconnected in order, passing over the faults a stop ignores. Done exactly when every fault was such a fault. Any other fault ends the loop and is raised. |
| Collaboration.CSBooking.StartChecked | indico/MaKaC/plugins/Collaboration/CERNMCU/collaboration.py:368-390 | A booking that cannot start raises "cannot start" with no call. Otherwise all participants are connected, and on success it is marked started, no longer startable and stoppable. |
| Collaboration.CSBooking.Start | indico/MaKaC/plugins/Collaboration/CERNMCU/collaboration.py:366-390 | The status check comes first and its fault is raised. A created booking is eligible exactly inside its window when not started. On success the participants sorted by id were connected and the booking is started. Participants are only ever dropped (the adoption of unknown remote participants being left out), so their ids stay filed under themselves and below the counter. |
| Collaboration.CSBooking.StopChecked | indico/MaKaC/plugins/Collaboration/CERNMCU/collaboration.py:394-423 | A booking that cannot stop raises "cannot be stopped" with no call. Otherwise all participants are disconnected, and on success it is marked stopped, startable and no longer started. |
| Collaboration.CSBooking.Stop | indico/MaKaC/plugins/Collaboration/CERNMCU/collaboration.py:392-423 | The status check comes first and its fault is raised. A booking it finds startable cannot be stopped. On success the participants sorted by id were disconnected and the booking is stopped. Participants are only ever dropped (the adoption of unknown remote participants being left out), so their ids stay filed under themselves and below the counter. |

## Left out

- The XML-RPC transport, `MCU.getInstance()`, socket errors and `handleSocketError`: the unit is an oracle whose calls answer or fail with a scripted fault code.
- Logging, the `_()` translations (status messages are an enumeration), `unicodeToUtf8`, `DictPickler` (`getParticipants`) and the persistence flag `_p_changed`.
- `_faultString`: only the fault code is recorded.
- Time zones and `datetime`: instants are integer seconds; the unit's UTC offset, the conversion of the unit's start time (`datetimeFromMCUTime`/`setAdjustedDate`) and the event's booking window (`getMinStartDate`/`getMaxEndDate`) are given functions and constants.
- The participant classes, `getParticipantName`, `getDisplayName`, `validIP`, `Counter` and `getNewConferenceId` are given functions or a counter; `unicodeLength` and `unicodeSlice` are sequence length and prefix.
- The adoption of unknown remote participants in `queryConference` (lines 602-627): it parses names by splitting on 'b' and 'c', keys the result with a stale loop variable, and can fail with a `TypeError`. Only the removal of vanished local participants is modelled.
- `int()` is modelled on ASCII: decimal digits other than 0-9 and Unicode whitespace, which `int()` and `strip()` also accept in unicode input, are not.
- The re-check of a custom id that already became a number fails in `strip` with an `AttributeError`, not with the plug-in's own exception; the model reports it as the error CustomIdNotText.
- Termination of the enumeration loops relies on the unit omitting the cursor on its last page; the pages are a finite sequence and a cursor past the end reads an empty page.
- `getParticipantList` unsorted (the dictionary's values in unspecified order), `_notifyOnView`, `_getTitle`, `getPin`, `setHasPin` and `getMCUStartTime` are not separate members: the unsorted list is not used by the modelled operations, and the others are one-line reads.
- Collaboration.CSBooking.Modify: for a booking not yet created, the contract ties the result to the nested create's outcome and states that a raised failure came from the last call; the rest of what that create did is stated by Create's contract and not repeated. A retried modify or query fault is stated as ModifyFault states it, not as the full create run.
- Collaboration.CSBooking.ModifyFault: on a retried duplicate id, the contract states the id bounds, the out-of-ids condition, creation exactly on Done and where a raised failure came from, not the full run that Create states.
- Collaboration.CSBooking.UpdateMatched: when a re-add's soft error is dropped the loop goes on, but the contract then states only that the log grew and, if the loop stops, that the last call raised; Reconcile, ReconcileWith and Modify state the log only when no call faulted.
- Collaboration.CSBooking.Start: when the status check finds the booking no longer created, the contract does not say what eligibility is left over from before (the flag keeps its old value).
- Collaboration.CSBooking.Stop: the contract does not state when a booking can be stopped, only that a startable one cannot; the flag comes from earlier starts.
- Collaboration.CSBooking.CheckStatus: the contract does not restate the adopted fields; QueryConference states them.
