/** The cursor protocol of the unit's enumerations and what an enumeration of
    participants collects. */
module Enumeration {
  import opened McuTypes

  /** The unit's answer to an enumerate call. A call without cursor reads the first
      page; the answer for page `k` carries the cursor `k + 1` exactly when a further
      page exists; a cursor past the last page reads an empty page without cursor. */
  function PageAnswer<T>(pages: seq<seq<T>>, cursor: Option<nat>): (a: Answer<T>)
    ensures a.enumerateId.Some? ==> 0 < a.enumerateId.value < |pages|
  {
    var k := if cursor.Some? then cursor.value else 0;
    Answer(if k < |pages| then pages[k] else [], if k + 1 < |pages| then Some(k + 1) else None)
  }

  /** The cursor sent with the `k`-th call of an enumeration. */
  function CursorAt(k: nat): Option<nat>
  {
    if k == 0 then None else Some(k)
  }

  /** How many calls a complete enumeration makes: one per page, and one for no pages. */
  function PageCount<T>(pages: seq<seq<T>>): nat
  {
    if |pages| == 0 then 1 else |pages|
  }

  /** The first `n` calls of a participant enumeration. */
  function ParticipantEnumerateCalls(n: nat): (calls: seq<Call>)
    ensures |calls| == n
  {
    if n == 0 then [] else ParticipantEnumerateCalls(n - 1) + [ParticipantEnumerate(CursorAt(n - 1))]
  }

  /** The first `n` calls of a conference enumeration. */
  function ConferenceEnumerateCalls(n: nat): (calls: seq<Call>)
    ensures |calls| == n
  {
    if n == 0 then [] else ConferenceEnumerateCalls(n - 1) + [ConferenceEnumerate(CursorAt(n - 1))]
  }

  /** The `k`-th call of a participant enumeration carries cursor `k`, the first none. */
  lemma {:induction false} ParticipantCallsAt(n: nat)
    ensures forall k :: 0 <= k < n ==> ParticipantEnumerateCalls(n)[k] == ParticipantEnumerate(CursorAt(k))
  {
    if n > 0 {
      ParticipantCallsAt(n - 1);
      assert forall k :: 0 <= k < n - 1 ==> ParticipantEnumerateCalls(n)[k] == ParticipantEnumerateCalls(n - 1)[k];
    }
  }

  /** The `k`-th call of a conference enumeration carries cursor `k`, the first none. */
  lemma {:induction false} ConferenceCallsAt(n: nat)
    ensures forall k :: 0 <= k < n ==> ConferenceEnumerateCalls(n)[k] == ConferenceEnumerate(CursorAt(k))
  {
    if n > 0 {
      ConferenceCallsAt(n - 1);
      assert forall k :: 0 <= k < n - 1 ==> ConferenceEnumerateCalls(n)[k] == ConferenceEnumerateCalls(n - 1)[k];
    }
  }

  /** A further call extends the log of a conference enumeration by the call for the next cursor. */
  lemma ConferenceCallsStep(log0: seq<Call>, k: nat)
    ensures log0 + ConferenceEnumerateCalls(k) + [ConferenceEnumerate(CursorAt(k))] == log0 + ConferenceEnumerateCalls(k + 1)
  {
    assert ConferenceEnumerateCalls(k + 1) == ConferenceEnumerateCalls(k) + [ConferenceEnumerate(CursorAt(k))];
  }

  /** A further call extends the log of a participant enumeration by the call for the next cursor. */
  lemma ParticipantCallsStep(log0: seq<Call>, k: nat)
    ensures log0 + ParticipantEnumerateCalls(k) + [ParticipantEnumerate(CursorAt(k))] == log0 + ParticipantEnumerateCalls(k + 1)
  {
    assert ParticipantEnumerateCalls(k + 1) == ParticipantEnumerateCalls(k) + [ParticipantEnumerate(CursorAt(k))];
  }

  /** An answer without cursor ends the enumeration: the calls so far are all it makes. */
  lemma LastPage<T>(pages: seq<seq<T>>, k: nat)
    requires k == 0 || k < |pages|
    requires PageAnswer(pages, CursorAt(k)).enumerateId.None?
    ensures k + 1 == PageCount(pages)
  {
  }

  /** A record reports a participant of conference `conf`. */
  predicate Reports(r: ParticipantRecord, conf: string)
  {
    r.conferenceName == conf && r.participantName != []
  }

  /** The dictionary of `queryParticipants` after reading `items`: every record of the
      conference with a non-empty name, a later record overwriting an earlier one. */
  function Absorb(acc: map<string, RemoteParticipant>, items: seq<ParticipantRecord>, conf: string)
    : map<string, RemoteParticipant>
  {
    if items == [] then acc
    else
      var r := items[|items| - 1];
      var prev := Absorb(acc, items[..|items| - 1], conf);
      if Reports(r, conf) then prev[r.participantName := RemoteParticipant(r.displayName, r.address)] else prev
  }

  /** The dictionary after reading every page in turn. */
  function Gathered(pages: seq<seq<ParticipantRecord>>, conf: string): map<string, RemoteParticipant>
  {
    if pages == [] then map[] else Absorb(Gathered(pages[..|pages| - 1], conf), pages[|pages| - 1], conf)
  }

  /** The dictionary after the first `k` enumerate calls. */
  function GatheredUpTo(pages: seq<seq<ParticipantRecord>>, conf: string, k: nat): map<string, RemoteParticipant>
  {
    Gathered(pages[..if k < |pages| then k else |pages|], conf)
  }

  /** Each call absorbs the page it reads; a complete enumeration gathers every page. */
  lemma GatheredStep(pages: seq<seq<ParticipantRecord>>, conf: string, k: nat)
    ensures GatheredUpTo(pages, conf, k + 1) == Absorb(GatheredUpTo(pages, conf, k), PageAt(pages, k), conf)
    ensures GatheredUpTo(pages, conf, PageCount(pages)) == Gathered(pages, conf)
  {
    if k < |pages| {
      assert pages[..k + 1][..k] == pages[..k];
    }
    assert pages[..|pages|] == pages;
  }

  /** A record of `items` reports `name` for `conf`, and none after it does. */
  predicate LastReport(items: seq<ParticipantRecord>, conf: string, name: string, j: int)
  {
    0 <= j < |items| && Reports(items[j], conf) && items[j].participantName == name &&
    forall j' :: j < j' < |items| ==> !(Reports(items[j'], conf) && items[j'].participantName == name)
  }

  /** A name is in the dictionary exactly when it was there before or some record reports it,
      and then it holds the last such record's display name and address. */
  lemma {:induction false} AbsorbContents(acc: map<string, RemoteParticipant>, items: seq<ParticipantRecord>,
                                          conf: string, name: string)
    ensures name in Absorb(acc, items, conf) <==>
              name in acc || exists j :: 0 <= j < |items| && Reports(items[j], conf) && items[j].participantName == name
    ensures forall j :: LastReport(items, conf, name, j) ==>
              name in Absorb(acc, items, conf) &&
              Absorb(acc, items, conf)[name] == RemoteParticipant(items[j].displayName, items[j].address)
    ensures (forall j :: 0 <= j < |items| ==> !(Reports(items[j], conf) && items[j].participantName == name)) ==>
              (name in acc ==> name in Absorb(acc, items, conf) && Absorb(acc, items, conf)[name] == acc[name])
    decreases |items|
  {
    if items != [] {
      var init := items[..|items| - 1];
      var r := items[|items| - 1];
      AbsorbContents(acc, init, conf, name);
      assert forall j :: 0 <= j < |init| ==> init[j] == items[j];
      forall j | LastReport(items, conf, name, j)
        ensures name in Absorb(acc, items, conf)
        ensures Absorb(acc, items, conf)[name] == RemoteParticipant(items[j].displayName, items[j].address)
      {
        if j < |items| - 1 {
          assert LastReport(init, conf, name, j);
        }
      }
      if exists j :: 0 <= j < |items| && Reports(items[j], conf) && items[j].participantName == name {
        var j :| 0 <= j < |items| && Reports(items[j], conf) && items[j].participantName == name;
        if j < |items| - 1 {
          assert init[j] == items[j];
        }
      }
    }
  }

  /** The participant names collected from all pages are exactly those some record of the
      conference reports. */
  lemma {:induction false} GatheredNames(pages: seq<seq<ParticipantRecord>>, conf: string, name: string)
    ensures name in Gathered(pages, conf) <==>
              exists p, j :: 0 <= p < |pages| && 0 <= j < |pages[p]| &&
                Reports(pages[p][j], conf) && pages[p][j].participantName == name
    decreases |pages|
  {
    if pages != [] {
      var init := pages[..|pages| - 1];
      var last := pages[|pages| - 1];
      GatheredNames(init, conf, name);
      AbsorbContents(Gathered(init, conf), last, conf, name);
      if name in Gathered(pages, conf) {
        if name in Gathered(init, conf) {
          var p, j :| 0 <= p < |init| && 0 <= j < |init[p]| && Reports(init[p][j], conf) && init[p][j].participantName == name;
          assert pages[p] == init[p];
        } else {
          var j :| 0 <= j < |last| && Reports(last[j], conf) && last[j].participantName == name;
          assert pages[|pages| - 1][j] == last[j];
        }
      } else {
        forall p, j | 0 <= p < |pages| && 0 <= j < |pages[p]|
          ensures !(Reports(pages[p][j], conf) && pages[p][j].participantName == name)
        {
          if p < |pages| - 1 {
            assert pages[p] == init[p];
          }
        }
      }
    }
  }

  /** The position of the first record of `items` for conference `name`. */
  function FirstNamed(items: seq<ConferenceRecord>, name: string): (r: Option<nat>)
    ensures r.Some? ==> r.value < |items| && items[r.value].conferenceName == name
    ensures r.Some? ==> forall j :: 0 <= j < r.value ==> items[j].conferenceName != name
    ensures r.None? ==> forall j :: 0 <= j < |items| ==> items[j].conferenceName != name
  {
    if items == [] then None
    else if items[0].conferenceName == name then Some(0)
    else
      match FirstNamed(items[1..], name)
      case None => None
      case Some(j) => Some(j + 1)
  }

  /** The page read by the `k`-th enumerate call. */
  function PageAt<T>(pages: seq<seq<T>>, k: nat): seq<T>
  {
    if k < |pages| then pages[k] else []
  }

  /** The first record of `items` for conference `name`, if any. */
  function FoundOn(items: seq<ConferenceRecord>, name: string): (r: Option<ConferenceRecord>)
    ensures r.Some? <==> FirstNamed(items, name).Some?
    ensures r.Some? ==> r.value == items[FirstNamed(items, name).value] && r.value.conferenceName == name
  {
    var j := FirstNamed(items, name);
    if j.Some? then Some(items[j.value]) else None
  }

  /** The conference search from page `k` on: the record found (the first of its name on
      the first page holding one) and how many pages have been read by then. */
  function LocateFrom(pages: seq<seq<ConferenceRecord>>, name: string, k: nat): (Option<ConferenceRecord>, nat)
    decreases |pages| - k
  {
    var found := FoundOn(PageAt(pages, k), name);
    if found.Some? then (found, k + 1)
    else if k + 1 < |pages| then LocateFrom(pages, name, k + 1)
    else (None, k + 1)
  }

  /** One step of the search, in terms of the unit's answer to the `k`-th call: the page
      read decides, or its cursor leads on to the next page and the search goes on there. */
  lemma LocateStep(pages: seq<seq<ConferenceRecord>>, name: string, k: nat)
    requires k == 0 || k < |pages|
    ensures var a := PageAnswer(pages, CursorAt(k));
      && (FoundOn(a.items, name).Some? || a.enumerateId.None? ==>
            LocateFrom(pages, name, k).0 == FoundOn(a.items, name) && LocateFrom(pages, name, k).1 == k + 1)
      && (FoundOn(a.items, name).None? && a.enumerateId.Some? ==>
            a.enumerateId == CursorAt(k + 1) && k + 1 < |pages| && LocateFrom(pages, name, k + 1) == LocateFrom(pages, name, k))
  {
    assert PageAnswer(pages, CursorAt(k)).items == PageAt(pages, k);
  }

  /** The search from page `k` reads at least that page and never more pages than exist. */
  lemma {:induction false} LocateReads(pages: seq<seq<ConferenceRecord>>, name: string, k: nat)
    requires k == 0 || k < |pages|
    ensures k < LocateFrom(pages, name, k).1 <= PageCount(pages)
    decreases |pages| - k
  {
    if FirstNamed(PageAt(pages, k), name).None? && k + 1 < |pages| {
      LocateReads(pages, name, k + 1);
    }
  }

  /** The search finds a record exactly when some page from `k` on holds one of that name. */
  lemma {:induction false} LocateFinds(pages: seq<seq<ConferenceRecord>>, name: string, k: nat)
    requires k == 0 || k < |pages|
    ensures LocateFrom(pages, name, k).0.Some? <==>
              exists p, j :: k <= p < |pages| && 0 <= j < |pages[p]| && pages[p][j].conferenceName == name
    decreases |pages| - k
  {
    if FoundOn(PageAt(pages, k), name).Some? {
      var j := FirstNamed(pages[k], name).value;
      assert pages[k][j].conferenceName == name;
    } else {
      if k + 1 < |pages| {
        LocateFinds(pages, name, k + 1);
      }
      assert k < |pages| ==> PageAt(pages, k) == pages[k];
    }
  }

  /** The record found is the first of its name on the last page read, and no earlier page
      read holds one. */
  lemma {:induction false} LocateFindsFirst(pages: seq<seq<ConferenceRecord>>, name: string, k: nat)
    requires k == 0 || k < |pages|
    ensures var (found, read) := LocateFrom(pages, name, k);
      found.Some? ==>
        && 0 < read <= |pages|
        && found == FoundOn(pages[read - 1], name)
        && forall p, j :: k <= p < read - 1 && 0 <= j < |pages[p]| ==> pages[p][j].conferenceName != name
    decreases |pages| - k
  {
    if FoundOn(PageAt(pages, k), name).None? && k + 1 < |pages| {
      LocateFindsFirst(pages, name, k + 1);
      assert PageAt(pages, k) == pages[k];
    }
  }
}
