/** The participant part of a modification: the calls that bring the unit's
    participant list in line with the booking's, in the three phases the booking
    runs them (adds, then matched pairs, then removals). */
module Reconcile {
  import opened McuTypes
  import opened Validation

  /** The calls `addParticipant` makes for `p`: the add, then a connect when the
      conference is running. */
  function AddCalls(conf: string, naming: Naming, p: Participant, started: bool): seq<Call>
  {
    [ParticipantAdd(conf, naming.participantName(p), naming.displayName(p), p.details.ip)]
    + (if started then [ParticipantConnect(conf, naming.participantName(p))] else [])
  }

  /** The add calls for the participants listed by `order`, one after the other. */
  function AddEach(conf: string, naming: Naming, local: map<int, Participant>, order: seq<int>, started: bool)
    : seq<Call>
    requires forall k :: k in order ==> k in local
  {
    if order == [] then []
    else
      var k := order[|order| - 1];
      AddEach(conf, naming, local, order[..|order| - 1], started) + AddCalls(conf, naming, local[k], started)
  }

  /** The two sides being reconciled: the booking's conference name and participants,
      the naming rules, what the unit reports, and whether the conference is running. */
  datatype Sides = Sides(conf: string, naming: Naming, local: map<int, Participant>,
                         remote: map<string, RemoteParticipant>, started: bool)

  function LocalName(s: Sides, k: int): string
    requires k in s.local
  {
    s.naming.participantName(s.local[k])
  }

  /** First phase: in the visiting order, an add for every local participant the
      unit does not report. */
  function AddPhase(s: Sides, order: seq<int>): seq<Call>
    requires forall k :: k in order ==> k in s.local
  {
    if order == [] then []
    else
      var k := order[|order| - 1];
      AddPhase(s, order[..|order| - 1])
      + (if LocalName(s, k) in s.remote then [] else AddCalls(s.conf, s.naming, s.local[k], s.started))
  }

  /** The pairs present on both sides, keyed by participant name, as the first phase
      collects them (a later participant of the same name would overwrite an earlier one). */
  function Matched(s: Sides, order: seq<int>): (m: map<string, Participant>)
    requires forall k :: k in order ==> k in s.local
    ensures forall n :: n in m ==> n in s.remote && s.naming.participantName(m[n]) == n
    ensures forall n :: n in m ==> exists k :: k in order && m[n] == s.local[k]
    ensures forall k :: k in order && LocalName(s, k) in s.remote ==> LocalName(s, k) in m
  {
    if order == [] then map[]
    else
      var k := order[|order| - 1];
      var prev := Matched(s, order[..|order| - 1]);
      if LocalName(s, k) in s.remote then prev[LocalName(s, k) := s.local[k]] else prev
  }

  function ScopeFor(started: bool): Scope
  {
    if started then ActiveState else ConfiguredState
  }

  /** Second phase, for one matched pair: remove and re-add on an address change,
      otherwise a display-name update when that differs, otherwise nothing. */
  function MatchCalls(s: Sides, name: string, lp: Participant): seq<Call>
    requires name in s.remote
  {
    if s.remote[name].ip != lp.details.ip then
      [ParticipantRemove(s.conf, name)] + AddCalls(s.conf, s.naming, lp, s.started)
    else if s.remote[name].displayName != s.naming.displayName(lp) then
      [ParticipantModify(s.conf, name, s.naming.displayName(lp), ScopeFor(s.started))]
    else []
  }

  /** Second phase over the matched names in their visiting order. */
  function UpdatePhase(s: Sides, existing: map<string, Participant>, order: seq<string>): seq<Call>
    requires forall n :: n in order ==> n in existing && n in s.remote
  {
    if order == [] then []
    else
      var n := order[|order| - 1];
      UpdatePhase(s, existing, order[..|order| - 1]) + MatchCalls(s, n, existing[n])
  }

  /** Third phase: a remove for every name in `order`. */
  function RemovePhase(conf: string, order: seq<string>): seq<Call>
  {
    if order == [] then [] else RemovePhase(conf, order[..|order| - 1]) + [ParticipantRemove(conf, order[|order| - 1])]
  }

  /** One more stale name visited adds its removal at the end. */
  lemma RemovePhaseSnoc(conf: string, order: seq<string>, n: string)
    ensures RemovePhase(conf, order + [n]) == RemovePhase(conf, order) + [ParticipantRemove(conf, n)]
  {
    assert (order + [n])[..|order|] == order;
  }

  /** All calls of a reconciliation, given the orders in which the three loops
      visit the local participants, the matched names and the stale names. */
  function Plan(s: Sides, localOrder: seq<int>, matchedOrder: seq<string>, staleOrder: seq<string>): seq<Call>
    requires forall k :: k in localOrder ==> k in s.local
    requires forall n :: n in matchedOrder ==> n in Matched(s, localOrder)
  {
    AddPhase(s, localOrder) + UpdatePhase(s, Matched(s, localOrder), matchedOrder) + RemovePhase(s.conf, staleOrder)
  }

  /** The participant a call is about, if any. */
  function Subject(c: Call): Option<string>
  {
    match c
    case ParticipantAdd(_, n, _, _) => Some(n)
    case ParticipantModify(_, n, _, _) => Some(n)
    case ParticipantRemove(_, n) => Some(n)
    case ParticipantConnect(_, n) => Some(n)
    case ParticipantDisconnect(_, n) => Some(n)
    case _ => None
  }

  /** The calls of `calls` about participant `n`, in order. */
  function About(calls: seq<Call>, n: string): seq<Call>
  {
    if calls == [] then []
    else About(calls[..|calls| - 1], n) + (if Subject(calls[|calls| - 1]) == Some(n) then [calls[|calls| - 1]] else [])
  }

  lemma {:induction false} AboutAppend(a: seq<Call>, b: seq<Call>, n: string)
    ensures About(a + b, n) == About(a, n) + About(b, n)
    decreases |b|
  {
    if b == [] {
      assert a + b == a;
    } else {
      var init := b[..|b| - 1];
      assert (a + b)[..|a + b| - 1] == a + init;
      assert (a + b)[|a + b| - 1] == b[|b| - 1];
      AboutAppend(a, init, n);
      var t := if Subject(b[|b| - 1]) == Some(n) then [b[|b| - 1]] else [];
      assert About(b, n) == About(init, n) + t;
      assert About(a + b, n) == About(a + init, n) + t;
    }
  }

  lemma AboutAddCalls(conf: string, naming: Naming, p: Participant, started: bool, n: string)
    ensures About(AddCalls(conf, naming, p, started), n)
            == if naming.participantName(p) == n then AddCalls(conf, naming, p, started) else []
  {
    var add := [ParticipantAdd(conf, naming.participantName(p), naming.displayName(p), p.details.ip)];
    assert About(add, n) == if naming.participantName(p) == n then add else [] by {
      assert add[..0] == [];
    }
    if started {
      var connect := [ParticipantConnect(conf, naming.participantName(p))];
      assert About(connect, n) == if naming.participantName(p) == n then connect else [] by {
        assert connect[..0] == [];
      }
      AboutAppend(add, connect, n);
    } else {
      assert AddCalls(conf, naming, p, started) == add;
    }
  }

  lemma AboutMatchCalls(s: Sides, name: string, lp: Participant, n: string)
    requires name in s.remote && s.naming.participantName(lp) == name
    ensures About(MatchCalls(s, name, lp), n) == if name == n then MatchCalls(s, name, lp) else []
  {
    var add := AddCalls(s.conf, s.naming, lp, s.started);
    AboutAddCalls(s.conf, s.naming, lp, s.started, n);
    if s.remote[name].ip != lp.details.ip {
      var remove := [ParticipantRemove(s.conf, name)];
      assert About(remove, n) == if name == n then remove else [] by {
        assert remove[..0] == [];
      }
      AboutAppend(remove, add, n);
    } else if s.remote[name].displayName != s.naming.displayName(lp) {
      var update := [ParticipantModify(s.conf, name, s.naming.displayName(lp), ScopeFor(s.started))];
      assert update[..0] == [];
    }
  }

  /** Within the first phase, a name no local participant carries gets no call. */
  lemma {:induction false} AddPhaseAboutStranger(s: Sides, order: seq<int>, n: string)
    requires forall k :: k in order ==> k in s.local
    requires forall k :: k in order ==> LocalName(s, k) != n
    ensures About(AddPhase(s, order), n) == []
    decreases |order|
  {
    if order != [] {
      var init := order[..|order| - 1];
      var last := order[|order| - 1];
      AddPhaseAboutStranger(s, init, n);
      var tail := if LocalName(s, last) in s.remote then [] else AddCalls(s.conf, s.naming, s.local[last], s.started);
      AboutAppend(AddPhase(s, init), tail, n);
      AboutAddCalls(s.conf, s.naming, s.local[last], s.started, n);
    }
  }

  /** Within the first phase, the calls about the name of a visited participant are
      its adds when the unit does not report it, and none otherwise. */
  lemma {:induction false} AddPhaseAbout(s: Sides, order: seq<int>, k: int)
    requires forall k' :: k' in order ==> k' in s.local
    requires Distinct(order) && NamesDistinct(s.local, s.naming)
    requires k in order
    ensures About(AddPhase(s, order), LocalName(s, k))
            == if LocalName(s, k) in s.remote then [] else AddCalls(s.conf, s.naming, s.local[k], s.started)
    decreases |order|
  {
    var n := LocalName(s, k);
    var init := order[..|order| - 1];
    var last := order[|order| - 1];
    DistinctInit(order);
    var tail := if LocalName(s, last) in s.remote then [] else AddCalls(s.conf, s.naming, s.local[last], s.started);
    AboutAppend(AddPhase(s, init), tail, n);
    AboutAddCalls(s.conf, s.naming, s.local[last], s.started, n);
    if k == last {
      AddPhaseAboutStranger(s, init, n);
    } else {
      AddPhaseAbout(s, init, k);
    }
  }

  /** Within the second phase, the calls about one name are those of its matched pair. */
  lemma {:induction false} UpdatePhaseAbout(s: Sides, existing: map<string, Participant>, order: seq<string>, n: string)
    requires forall m :: m in order ==> m in existing && m in s.remote
    requires forall m :: m in existing ==> s.naming.participantName(existing[m]) == m
    requires Distinct(order)
    ensures About(UpdatePhase(s, existing, order), n) == if n in order then MatchCalls(s, n, existing[n]) else []
    decreases |order|
  {
    if order != [] {
      var init := order[..|order| - 1];
      var last := order[|order| - 1];
      DistinctInit(order);
      UpdatePhaseAbout(s, existing, init, n);
      AboutAppend(UpdatePhase(s, existing, init), MatchCalls(s, last, existing[last]), n);
      AboutMatchCalls(s, last, existing[last], n);
    }
  }

  /** Within the third phase, a name gets one remove exactly when it is listed. */
  lemma {:induction false} RemovePhaseAbout(conf: string, order: seq<string>, n: string)
    requires Distinct(order)
    ensures About(RemovePhase(conf, order), n) == if n in order then [ParticipantRemove(conf, n)] else []
    decreases |order|
  {
    if order != [] {
      var init := order[..|order| - 1];
      var last := order[|order| - 1];
      DistinctInit(order);
      RemovePhaseAbout(conf, init, n);
      var remove := [ParticipantRemove(conf, last)];
      assert remove[..0] == [];
      AboutAppend(RemovePhase(conf, init), remove, n);
    }
  }

  /** With distinct participant names, a matched name holds the one local participant of that name. */
  lemma MatchedIsTheLocalParticipant(s: Sides, order: seq<int>, k: int)
    requires forall k' :: k' in order ==> k' in s.local
    requires NamesDistinct(s.local, s.naming)
    requires k in order && LocalName(s, k) in s.remote
    ensures LocalName(s, k) in Matched(s, order) && Matched(s, order)[LocalName(s, k)] == s.local[k]
  {
    var m := Matched(s, order);
    var k' :| k' in order && m[LocalName(s, k)] == s.local[k'];
    assert LocalName(s, k') == LocalName(s, k);
  }

  /** A name is matched exactly when a local participant carries it and the unit reports it. */
  lemma MatchedNames(s: Sides, order: seq<int>, n: string)
    requires forall k :: k in order ==> k in s.local
    ensures n in Matched(s, order) ==> n in s.remote && exists k :: k in order && LocalName(s, k) == n
  {
    if n in Matched(s, order) {
      var k :| k in order && Matched(s, order)[n] == s.local[k];
      assert LocalName(s, k) == n;
    }
  }

  /** The orders in which the three loops of a reconciliation visit their collections:
      every local participant, then every matched name, then every stale remote name. */
  predicate Visits(s: Sides, localOrder: seq<int>, matchedOrder: seq<string>, staleOrder: seq<string>)
  {
    && IsOrdering(localOrder, s.local.Keys)
    && IsOrdering(matchedOrder, Matched(s, localOrder).Keys)
    && IsOrdering(staleOrder, s.remote.Keys - Matched(s, localOrder).Keys)
  }

  /** The three phases, run one after the other from `log0`, make up the plan. */
  lemma PlanAssembled(s: Sides, localOrder: seq<int>, matchedOrder: seq<string>, staleOrder: seq<string>,
                      log0: seq<Call>, mid: seq<Call>, log: seq<Call>)
    requires IsOrdering(localOrder, s.local.Keys)
    requires IsOrdering(matchedOrder, Matched(s, localOrder).Keys)
    requires IsOrdering(staleOrder, s.remote.Keys - Matched(s, localOrder).Keys)
    requires mid == log0 + AddPhase(s, localOrder)
    requires log == mid + UpdatePhase(s, Matched(s, localOrder), matchedOrder) + RemovePhase(s.conf, staleOrder)
    ensures Visits(s, localOrder, matchedOrder, staleOrder)
    ensures log == log0 + Plan(s, localOrder, matchedOrder, staleOrder)
  {
  }

  /** The calls about one name, phase by phase. */
  lemma AboutPlan(s: Sides, localOrder: seq<int>, matchedOrder: seq<string>, staleOrder: seq<string>, n: string)
    requires Visits(s, localOrder, matchedOrder, staleOrder)
    ensures About(Plan(s, localOrder, matchedOrder, staleOrder), n)
            == About(AddPhase(s, localOrder), n)
               + (if n in Matched(s, localOrder) then MatchCalls(s, n, Matched(s, localOrder)[n]) else [])
               + (if n in s.remote && n !in Matched(s, localOrder) then [ParticipantRemove(s.conf, n)] else [])
  {
    var e := Matched(s, localOrder);
    var adds := AddPhase(s, localOrder);
    var updates := UpdatePhase(s, e, matchedOrder);
    AboutAppend(adds + updates, RemovePhase(s.conf, staleOrder), n);
    AboutAppend(adds, updates, n);
    UpdatePhaseAbout(s, e, matchedOrder, n);
    RemovePhaseAbout(s.conf, staleOrder, n);
  }

  /** A local participant the unit does not report gets exactly its adds. */
  lemma ReconcileAddsMissing(s: Sides, localOrder: seq<int>, matchedOrder: seq<string>, staleOrder: seq<string>, k: int)
    requires NamesDistinct(s.local, s.naming) && Visits(s, localOrder, matchedOrder, staleOrder)
    requires k in s.local && LocalName(s, k) !in s.remote
    ensures About(Plan(s, localOrder, matchedOrder, staleOrder), LocalName(s, k))
            == AddCalls(s.conf, s.naming, s.local[k], s.started)
  {
    AboutPlan(s, localOrder, matchedOrder, staleOrder, LocalName(s, k));
    AddPhaseAbout(s, localOrder, k);
  }

  /** A participant on both sides gets exactly the calls of its matched pair. */
  lemma ReconcileUpdatesMatched(s: Sides, localOrder: seq<int>, matchedOrder: seq<string>, staleOrder: seq<string>, k: int)
    requires NamesDistinct(s.local, s.naming) && Visits(s, localOrder, matchedOrder, staleOrder)
    requires k in s.local && LocalName(s, k) in s.remote
    ensures About(Plan(s, localOrder, matchedOrder, staleOrder), LocalName(s, k))
            == MatchCalls(s, LocalName(s, k), s.local[k])
  {
    AboutPlan(s, localOrder, matchedOrder, staleOrder, LocalName(s, k));
    AddPhaseAbout(s, localOrder, k);
    MatchedIsTheLocalParticipant(s, localOrder, k);
  }

  /** A name the unit reports and no local participant carries gets exactly one remove. */
  lemma ReconcileRemovesStale(s: Sides, localOrder: seq<int>, matchedOrder: seq<string>, staleOrder: seq<string>, n: string)
    requires Visits(s, localOrder, matchedOrder, staleOrder)
    requires n in s.remote && forall k :: k in s.local ==> LocalName(s, k) != n
    ensures About(Plan(s, localOrder, matchedOrder, staleOrder), n) == [ParticipantRemove(s.conf, n)]
  {
    AboutPlan(s, localOrder, matchedOrder, staleOrder, n);
    AddPhaseAboutStranger(s, localOrder, n);
    MatchedNames(s, localOrder, n);
  }

  /** A name on neither side gets no call. */
  lemma ReconcileLeavesOthers(s: Sides, localOrder: seq<int>, matchedOrder: seq<string>, staleOrder: seq<string>, n: string)
    requires Visits(s, localOrder, matchedOrder, staleOrder)
    requires n !in s.remote && forall k :: k in s.local ==> LocalName(s, k) != n
    ensures About(Plan(s, localOrder, matchedOrder, staleOrder), n) == []
  {
    AboutPlan(s, localOrder, matchedOrder, staleOrder, n);
    AddPhaseAboutStranger(s, localOrder, n);
  }

  /** The second-phase calls of one matched pair, case by case. */
  lemma MatchCallsCases(s: Sides, name: string, lp: Participant)
    requires name in s.remote
    ensures s.remote[name].ip != lp.details.ip ==>
              MatchCalls(s, name, lp)[0] == ParticipantRemove(s.conf, name) &&
              MatchCalls(s, name, lp)[1..] == AddCalls(s.conf, s.naming, lp, s.started)
    ensures s.remote[name].ip == lp.details.ip && s.remote[name].displayName != s.naming.displayName(lp) ==>
              MatchCalls(s, name, lp) == [ParticipantModify(s.conf, name, s.naming.displayName(lp), ScopeFor(s.started))]
    ensures s.remote[name].ip == lp.details.ip && s.remote[name].displayName == s.naming.displayName(lp) ==>
              MatchCalls(s, name, lp) == []
  {
  }
}
