/** The booking's participant dictionary: re-keying on a bulk replace, and the id order. */
module ParticipantMap {
  import opened McuTypes

  /** The dictionary and the id counter after a bulk replace. */
  datatype Rekeyed = Rekeyed(participants: map<int, Participant>, counter: int)

  /** An entry keeps its id when it names a key of the previous dictionary. */
  predicate Reuses(oldKeys: set<int>, e: ParticipantEntry)
  {
    e.participantId.Some? && e.participantId.value in oldKeys
  }

  /** The replace processed entry by entry: a kept id is reused, any other entry takes the
      counter's next value; a later entry with the same id overwrites an earlier one. */
  function Rekey(oldKeys: set<int>, counter: int, entries: seq<ParticipantEntry>): Rekeyed
    decreases |entries|
  {
    if entries == [] then Rekeyed(map[], counter)
    else
      var prev := Rekey(oldKeys, counter, entries[..|entries| - 1]);
      var e := entries[|entries| - 1];
      if Reuses(oldKeys, e) then
        Rekeyed(prev.participants[e.participantId.value := Participant(e.participantId.value, e.details)], prev.counter)
      else
        Rekeyed(prev.participants[prev.counter := Participant(prev.counter, e.details)], prev.counter + 1)
  }

  /** How many entries take a fresh id. */
  function FreshCount(oldKeys: set<int>, entries: seq<ParticipantEntry>): nat
  {
    if entries == [] then 0
    else FreshCount(oldKeys, entries[..|entries| - 1]) + (if Reuses(oldKeys, entries[|entries| - 1]) then 0 else 1)
  }

  /** The previous ids that some entry keeps. */
  function KeptIds(oldKeys: set<int>, entries: seq<ParticipantEntry>): set<int>
  {
    set i | 0 <= i < |entries| && Reuses(oldKeys, entries[i]) :: entries[i].participantId.value
  }

  /** The ids handed out from the counter: `[counter, counter + n)`. */
  function FreshIds(counter: int, n: nat): (ids: set<int>)
    ensures forall k :: k in ids <==> counter <= k < counter + n
  {
    if n == 0 then {} else FreshIds(counter, n - 1) + {counter + n - 1}
  }

  /** The counter advances once per entry without a kept id, and every participant is
      filed under its own id. */
  lemma {:induction false} RekeyCounter(oldKeys: set<int>, counter: int, entries: seq<ParticipantEntry>)
    ensures Rekey(oldKeys, counter, entries).counter == counter + FreshCount(oldKeys, entries)
    ensures forall k :: k in Rekey(oldKeys, counter, entries).participants ==>
              Rekey(oldKeys, counter, entries).participants[k].id == k
    decreases |entries|
  {
    if entries != [] {
      RekeyCounter(oldKeys, counter, entries[..|entries| - 1]);
    }
  }

  /** The new dictionary holds exactly the kept ids and one fresh id per other entry. */
  lemma {:induction false} RekeyKeys(oldKeys: set<int>, counter: int, entries: seq<ParticipantEntry>)
    ensures Rekey(oldKeys, counter, entries).participants.Keys
            == KeptIds(oldKeys, entries) + FreshIds(counter, FreshCount(oldKeys, entries))
    decreases |entries|
  {
    if entries != [] {
      var init := entries[..|entries| - 1];
      var e := entries[|entries| - 1];
      RekeyKeys(oldKeys, counter, init);
      RekeyCounter(oldKeys, counter, init);
      var n := FreshCount(oldKeys, init);
      assert forall i :: 0 <= i < |init| ==> init[i] == entries[i];
      if Reuses(oldKeys, e) {
        assert KeptIds(oldKeys, entries) == KeptIds(oldKeys, init) + {e.participantId.value};
      } else {
        assert KeptIds(oldKeys, entries) == KeptIds(oldKeys, init);
        assert FreshIds(counter, n + 1) == FreshIds(counter, n) + {counter + n};
      }
    }
  }

  /** Every participant of the new dictionary is built from one of the supplied entries. */
  lemma {:induction false} RekeyDetails(oldKeys: set<int>, counter: int, entries: seq<ParticipantEntry>)
    ensures forall k :: k in Rekey(oldKeys, counter, entries).participants ==>
              exists i :: 0 <= i < |entries| && Rekey(oldKeys, counter, entries).participants[k].details == entries[i].details
    decreases |entries|
  {
    if entries != [] {
      var init := entries[..|entries| - 1];
      RekeyDetails(oldKeys, counter, init);
      var prev := Rekey(oldKeys, counter, init);
      var r := Rekey(oldKeys, counter, entries);
      forall k | k in r.participants
        ensures exists i :: 0 <= i < |entries| && r.participants[k].details == entries[i].details
      {
        if k in prev.participants && r.participants[k] == prev.participants[k] {
          var i :| 0 <= i < |init| && prev.participants[k].details == init[i].details;
          assert entries[i] == init[i];
        } else {
          assert r.participants[k].details == entries[|entries| - 1].details;
        }
      }
    }
  }

  /** The fresh id the `i`-th entry takes when it keeps none. */
  function FreshIdOf(oldKeys: set<int>, counter: int, entries: seq<ParticipantEntry>, i: nat): int
    requires i <= |entries|
  {
    counter + FreshCount(oldKeys, entries[..i])
  }

  /** An entry without a kept id ends up under its fresh id, and that id was not in use before. */
  lemma {:induction false} FreshEntryKept(oldKeys: set<int>, counter: int, entries: seq<ParticipantEntry>, i: nat)
    requires forall k :: k in oldKeys ==> k < counter
    requires i < |entries| && !Reuses(oldKeys, entries[i])
    ensures FreshIdOf(oldKeys, counter, entries, i) !in oldKeys
    ensures FreshIdOf(oldKeys, counter, entries, i) in Rekey(oldKeys, counter, entries).participants
    ensures Rekey(oldKeys, counter, entries).participants[FreshIdOf(oldKeys, counter, entries, i)]
            == Participant(FreshIdOf(oldKeys, counter, entries, i), entries[i].details)
    decreases |entries|
  {
    var id := FreshIdOf(oldKeys, counter, entries, i);
    var init := entries[..|entries| - 1];
    RekeyCounter(oldKeys, counter, init);
    if i == |entries| - 1 {
      assert entries[..i] == init;
    } else {
      assert init[..i] == entries[..i];
      assert init[i] == entries[i];
      FreshEntryKept(oldKeys, counter, init, i);
      FreshCountMonotone(oldKeys, init, i + 1);
      assert init[..i + 1][..i] == init[..i];
      assert id < Rekey(oldKeys, counter, init).counter;
    }
  }

  lemma {:induction false} FreshCountMonotone(oldKeys: set<int>, entries: seq<ParticipantEntry>, j: nat)
    requires j <= |entries|
    ensures FreshCount(oldKeys, entries[..j]) <= FreshCount(oldKeys, entries)
    ensures 0 < j && !Reuses(oldKeys, entries[j - 1]) ==> FreshCount(oldKeys, entries[..j - 1]) < FreshCount(oldKeys, entries)
    decreases |entries|
  {
    if j < |entries| {
      var init := entries[..|entries| - 1];
      assert init[..j] == entries[..j];
      if 0 < j {
        assert init[..j - 1] == entries[..j - 1];
        assert init[j - 1] == entries[j - 1];
      }
      FreshCountMonotone(oldKeys, init, j);
    } else {
      assert entries[..j] == entries;
      if 0 < j {
        assert entries[..j - 1] == entries[..|entries| - 1];
      }
    }
  }

  /** A kept id holds the details of the last entry that names it. */
  lemma {:induction false} LastKeptEntryWins(oldKeys: set<int>, counter: int, entries: seq<ParticipantEntry>, i: nat)
    requires forall k :: k in oldKeys ==> k < counter
    requires i < |entries| && Reuses(oldKeys, entries[i])
    requires forall j :: i < j < |entries| ==> entries[j].participantId != entries[i].participantId
    ensures entries[i].participantId.value in Rekey(oldKeys, counter, entries).participants
    ensures Rekey(oldKeys, counter, entries).participants[entries[i].participantId.value]
            == Participant(entries[i].participantId.value, entries[i].details)
    decreases |entries|
  {
    var init := entries[..|entries| - 1];
    if i < |entries| - 1 {
      assert init[i] == entries[i];
      forall j | i < j < |init| ensures init[j].participantId != init[i].participantId {
        assert init[j] == entries[j];
      }
      LastKeptEntryWins(oldKeys, counter, init, i);
      RekeyCounter(oldKeys, counter, init);
      var e := entries[|entries| - 1];
      var prev := Rekey(oldKeys, counter, init);
      if !Reuses(oldKeys, e) {
        assert entries[i].participantId.value < counter <= prev.counter;
      }
    }
  }

  /** All ids stay below the counter across a replace, and the fresh ids are new ones. */
  lemma RekeyKeepsIdsBelowCounter(oldKeys: set<int>, counter: int, entries: seq<ParticipantEntry>)
    requires forall k :: k in oldKeys ==> k < counter
    ensures counter <= Rekey(oldKeys, counter, entries).counter
    ensures forall k :: k in Rekey(oldKeys, counter, entries).participants ==> k < Rekey(oldKeys, counter, entries).counter
    ensures forall k :: k in Rekey(oldKeys, counter, entries).participants && k !in KeptIds(oldKeys, entries) ==>
              k !in oldKeys
  {
    RekeyCounter(oldKeys, counter, entries);
    RekeyKeys(oldKeys, counter, entries);
  }

  /** The smallest element of a non-empty set. */
  function MinOf(ks: set<int>): (m: int)
    requires ks != {}
    ensures m in ks && forall k :: k in ks ==> m <= k
  {
    MinExists(ks);
    var m :| m in ks && forall k :: k in ks ==> m <= k;
    m
  }

  lemma MinExists(ks: set<int>)
    requires ks != {}
    ensures exists m :: m in ks && forall k :: k in ks ==> m <= k
  {
    var m := MinWitness(ks);
  }

  lemma {:induction false} MinWitness(ks: set<int>) returns (m: int)
    requires ks != {}
    ensures m in ks && forall k :: k in ks ==> m <= k
    decreases ks
  {
    var x := Choose(ks);
    if ks == {x} {
      m := x;
    } else {
      var rest := MinWitness(ks - {x});
      m := if x < rest then x else rest;
      forall k | k in ks ensures m <= k {
        if k != x {
          assert k in ks - {x};
        }
      }
    }
  }

  /** The ids in ascending order, as `keys.sort()` leaves them. */
  function SortedKeys(ks: set<int>): (s: seq<int>)
    ensures |s| == |ks|
    ensures forall k :: k in ks <==> k in s
    ensures forall i, j :: 0 <= i < j < |s| ==> s[i] < s[j]
    decreases ks
  {
    if ks == {} then []
    else
      var m := MinOf(ks);
      [m] + SortedKeys(ks - {m})
  }

  /** `getParticipantList(sorted = True)`: the participant with the smallest id first. */
  function SortedParticipants(ps: map<int, Participant>): seq<Participant>
    decreases ps.Keys
  {
    if ps.Keys == {} then []
    else
      var m := MinOf(ps.Keys);
      [ps[m]] + SortedParticipants(ps - {m})
  }

  /** Removing a present key from a map removes exactly one entry. */
  lemma WithoutKey(ps: map<int, Participant>, m: int)
    requires m in ps
    ensures (ps - {m}).Keys == ps.Keys - {m}
    ensures |ps - {m}| == |ps| - 1
  {
    var rest := ps - {m};
    assert rest.Keys == ps.Keys - {m};
    assert |rest| == |rest.Keys| && |ps| == |ps.Keys|;
  }

  /** The sorted list holds every participant once, in ascending order of id: its
      i-th element is the participant under the i-th smallest id. */
  lemma {:induction false} SortedParticipantsInOrder(ps: map<int, Participant>)
    ensures |SortedParticipants(ps)| == |ps|
    ensures forall i :: 0 <= i < |SortedParticipants(ps)| ==>
              SortedKeys(ps.Keys)[i] in ps && SortedParticipants(ps)[i] == ps[SortedKeys(ps.Keys)[i]]
    ensures forall i, j :: 0 <= i < j < |SortedParticipants(ps)| ==> SortedKeys(ps.Keys)[i] < SortedKeys(ps.Keys)[j]
    ensures forall k :: k in ps <==> k in SortedKeys(ps.Keys)
    decreases ps.Keys
  {
    assert |ps.Keys| == |ps|;
    if ps.Keys != {} {
      var m := MinOf(ps.Keys);
      var rest := ps - {m};
      WithoutKey(ps, m);
      SortedParticipantsInOrder(rest);
      var keys := SortedKeys(ps.Keys);
      assert keys == [m] + SortedKeys(rest.Keys);
      forall i | 0 < i < |SortedParticipants(ps)|
        ensures keys[i] in ps && SortedParticipants(ps)[i] == ps[keys[i]]
      {
        assert SortedParticipants(ps)[i] == SortedParticipants(rest)[i - 1];
        assert keys[i] == SortedKeys(rest.Keys)[i - 1];
      }
    }
  }
}
