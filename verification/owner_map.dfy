/**
 The owner map: for each owner line, the set of member lines recorded under it.
 Recording is a fold over a trace of (owner, member) visits; `Merged` is an
 independent, order-free description of what the fold builds.
 */
module OwnerMap {

  type Lines = map<int, set<int>>

  /** A visit of one leaf: its resolved owner line and its own begin line. */
  type Visit = (int, int)

  /** Every key belongs to its own member set, so no set is empty. */
  ghost predicate SelfOwned(m: Lines)
  {
    forall k :: k in m ==> k in m[k]
  }

  /** The map after recording `member` under `owner`, seeding a new key with `{owner}`. */
  function WithMember(m: Lines, owner: int, member: int): Lines
  {
    var lines := if owner in m then m[owner] else {owner};
    m[owner := lines + {member}]
  }

  /** Records the visits of `trace` one after the other. */
  function RecordAll(m: Lines, trace: seq<Visit>): Lines
    decreases |trace|
  {
    if trace == [] then m else RecordAll(WithMember(m, trace[0].0, trace[0].1), trace[1..])
  }

  /** Owner lines named by a trace. */
  ghost function Owners(trace: seq<Visit>): set<int>
  {
    set v | v in trace :: v.0
  }

  /** Member lines a trace records under `owner`. */
  ghost function MembersOf(trace: seq<Visit>, owner: int): set<int>
  {
    set v | v in trace && v.0 == owner :: v.1
  }

  /**
   What recording `trace` into `m` yields, stated without order: the keys of `m`
   and the owners of the trace; for each, its old set (or itself, if new) with
   every member the trace names for it.
   */
  ghost function Merged(m: Lines, trace: seq<Visit>): Lines
  {
    map k | k in m.Keys + Owners(trace) :: (if k in m then m[k] else {k}) + MembersOf(trace, k)
  }

  /**
   Recording one leaf touches only its owner's entry, which becomes the old set
   (or `{owner}` when new) plus the member; every other entry is unchanged.
   */
  lemma WithMemberChangesOnlyOwner(m: Lines, owner: int, member: int)
    ensures WithMember(m, owner, member).Keys == m.Keys + {owner}
    ensures forall k :: k in m && k != owner ==> WithMember(m, owner, member)[k] == m[k]
    ensures owner in m ==> WithMember(m, owner, member)[owner] == m[owner] + {member}
    ensures owner !in m ==> WithMember(m, owner, member)[owner] == {owner, member}
  {
  }

  /** Recording a member that is already there changes nothing. */
  lemma WithPresentMemberIsNoOp(m: Lines, owner: int, member: int)
    requires owner in m && member in m[owner]
    ensures WithMember(m, owner, member) == m
  {
    assert m[owner] + {member} == m[owner];
  }

  /** Recording keeps every key in its own set. */
  lemma WithMemberKeepsSelfOwned(m: Lines, owner: int, member: int)
    requires SelfOwned(m)
    ensures SelfOwned(WithMember(m, owner, member))
  {
  }

  /** Owners and members of a trace split at its first visit. */
  lemma OwnersAndMembersOfCons(v: Visit, rest: seq<Visit>)
    ensures Owners([v] + rest) == {v.0} + Owners(rest)
    ensures forall k :: MembersOf([v] + rest, k) == (if k == v.0 then {v.1} else {}) + MembersOf(rest, k)
  {
    assert forall w :: w in [v] + rest <==> w == v || w in rest;
  }

  /** Merging after recording one visit is merging the longer trace. */
  lemma MergedAfterOneVisit(m: Lines, v: Visit, rest: seq<Visit>)
    ensures Merged(WithMember(m, v.0, v.1), rest) == Merged(m, [v] + rest)
  {
    var m' := WithMember(m, v.0, v.1);
    OwnersAndMembersOfCons(v, rest);
    assert m'.Keys + Owners(rest) == m.Keys + Owners([v] + rest);
    forall k | k in m.Keys + Owners([v] + rest)
      ensures Merged(m', rest)[k] == Merged(m, [v] + rest)[k]
    {
    }
  }

  /** Recording a trace gives exactly the merged map, whatever the order of the visits. */
  lemma {:induction false} RecordAllIsMerged(m: Lines, trace: seq<Visit>)
    ensures RecordAll(m, trace) == Merged(m, trace)
    decreases |trace|
  {
    if trace == [] {
      assert Owners(trace) == {};
      forall k | k in m
        ensures Merged(m, trace)[k] == m[k]
      {
        assert MembersOf(trace, k) == {};
      }
      assert Merged(m, trace) == m;
    } else {
      RecordAllIsMerged(WithMember(m, trace[0].0, trace[0].1), trace[1..]);
      MergedAfterOneVisit(m, trace[0], trace[1..]);
      assert [trace[0]] + trace[1..] == trace;
    }
  }

  /** Appending visits is recording the first part, then the second. */
  lemma {:induction false} RecordAllAppend(m: Lines, first: seq<Visit>, second: seq<Visit>)
    ensures RecordAll(m, first + second) == RecordAll(RecordAll(m, first), second)
    decreases |first|
  {
    if first != [] {
      assert (first + second)[1..] == first[1..] + second;
      RecordAllAppend(WithMember(m, first[0].0, first[0].1), first[1..], second);
    } else {
      assert first + second == second;
    }
  }

  /** Recording keeps every key in its own set. */
  lemma RecordAllKeepsSelfOwned(m: Lines, trace: seq<Visit>)
    requires SelfOwned(m)
    ensures SelfOwned(RecordAll(m, trace))
  {
    RecordAllIsMerged(m, trace);
  }

  /** Two traces with the same visits, in any order or multiplicity, record the same map. */
  lemma RecordAllOrderFree(m: Lines, trace1: seq<Visit>, trace2: seq<Visit>)
    requires forall v :: v in trace1 <==> v in trace2
    ensures RecordAll(m, trace1) == RecordAll(m, trace2)
  {
    RecordAllIsMerged(m, trace1);
    RecordAllIsMerged(m, trace2);
    assert Owners(trace1) == Owners(trace2);
    assert forall k :: MembersOf(trace1, k) == MembersOf(trace2, k);
  }

  /** Recording the same trace a second time changes nothing. */
  lemma RecordAllTwiceIsOnce(m: Lines, trace: seq<Visit>)
    ensures RecordAll(RecordAll(m, trace), trace) == RecordAll(m, trace)
  {
    var once := RecordAll(m, trace);
    RecordAllIsMerged(m, trace);
    RecordAllIsMerged(once, trace);
    assert once.Keys + Owners(trace) == once.Keys;
    forall k | k in once
      ensures (if k in once then once[k] else {k}) + MembersOf(trace, k) == once[k]
    {
    }
  }

  /** A pair the emission writes: a key and one of its members other than the key itself. */
  predicate Emits(m: Lines, p: (int, int))
  {
    p.0 in m && p.1 in m[p.0] && p.1 != p.0
  }

  /**
   Given the key set, the non-self pairs determine the map: two self-owned
   maps with the same keys and the same emitted pairs are equal. An owner whose
   set holds only itself emits nothing, so the key set is needed.
   */
  lemma EmittedPairsDetermineMap(m1: Lines, m2: Lines)
    requires SelfOwned(m1) && SelfOwned(m2)
    requires m1.Keys == m2.Keys
    requires forall p :: Emits(m1, p) <==> Emits(m2, p)
    ensures m1 == m2
  {
    forall k | k in m1
      ensures m1[k] == m2[k]
    {
      forall x | x in m1[k]
        ensures x in m2[k]
      {
        if x != k { assert Emits(m1, (k, x)); }
      }
      forall x | x in m2[k]
        ensures x in m1[k]
      {
        if x != k { assert Emits(m2, (k, x)); }
      }
    }
  }
}
