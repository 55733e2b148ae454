/** The discovered-server registry as a value: a finite map from a server's
    GUID to the last reply received from it. The HUD keeps one of these in a
    field and updates it with Upsert (a reply arrives) or replaces it with the
    empty map (a Clear). */
module Registry {
  import opened DiscoveryTypes

  type Registry = map<string, DiscoveryInfo>

  /** Every entry is filed under the GUID its own advertisement carries. */
  ghost predicate WellKeyed(reg: Registry) {
    forall g :: g in reg ==> Guid(reg[g]) == g
  }

  /** Dictionary indexer assignment `reg[guid] = info`: insert, or replace the
      whole entry for that GUID; no other key is touched. */
  function Upsert(reg: Registry, info: DiscoveryInfo): (r: Registry)
    ensures Guid(info) in r && r[Guid(info)] == info
    ensures r.Keys == reg.Keys + {Guid(info)}
    ensures forall g :: g in reg && g != Guid(info) ==> r[g] == reg[g]
    ensures |r| == if Guid(info) in reg then |reg| else |reg| + 1
    ensures WellKeyed(reg) ==> WellKeyed(r)
  {
    reg[Guid(info) := info]
  }

  /** The registry after the replies arrive one by one, in order. Each step
      is the update Upsert performs (UpsertAllSteps), written out here so that
      proofs about runs of replies do not carry Upsert's contract along. */
  function UpsertAll(reg: Registry, replies: seq<DiscoveryInfo>): Registry {
    if replies == [] then reg
    else
      var last := replies[|replies| - 1];
      UpsertAll(reg, replies[..|replies| - 1])[Guid(last) := last]
  }

  /** A run of replies is one Upsert per reply. */
  lemma UpsertAllSteps(reg: Registry, replies: seq<DiscoveryInfo>, info: DiscoveryInfo)
    ensures UpsertAll(reg, replies + [info]) == Upsert(UpsertAll(reg, replies), info)
  {
  }

  /** The GUIDs the replies carry. */
  function GuidsOf(replies: seq<DiscoveryInfo>): set<string> {
    set i | 0 <= i < |replies| :: Guid(replies[i])
  }

  /** No two replies carry the same GUID. */
  ghost predicate DistinctGuids(replies: seq<DiscoveryInfo>) {
    forall i, j :: 0 <= i < j < |replies| ==> Guid(replies[i]) != Guid(replies[j])
  }

  /** The GUIDs of a run are those of all but the last reply, plus the last one's. */
  lemma GuidsOfSnoc(replies: seq<DiscoveryInfo>)
    requires replies != []
    ensures GuidsOf(replies) == GuidsOf(replies[..|replies| - 1]) + {Guid(replies[|replies| - 1])}
  {
  }

  /** The keys after a run of replies are the old keys plus the replies' GUIDs. */
  lemma {:induction false} UpsertAllKeys(reg: Registry, replies: seq<DiscoveryInfo>)
    ensures UpsertAll(reg, replies).Keys == reg.Keys + GuidsOf(replies)
  {
    if replies != [] {
      UpsertAllKeys(reg, replies[..|replies| - 1]);
      GuidsOfSnoc(replies);
    }
  }

  /** Cardinality: replies with pairwise distinct GUIDs, none already known,
      each add exactly one entry. From the empty registry left by a Clear,
      N such replies give exactly N entries. */
  lemma {:induction false} DistinctRepliesCount(reg: Registry, replies: seq<DiscoveryInfo>)
    requires DistinctGuids(replies)
    requires reg.Keys !! GuidsOf(replies)
    ensures |UpsertAll(reg, replies)| == |reg| + |replies|
  {
    if replies != [] {
      var n := |replies| - 1;
      var prefix := replies[..n];
      GuidsOfSnoc(replies);
      assert DistinctGuids(prefix) by {
        forall i, j | 0 <= i < j < |prefix|
          ensures Guid(prefix[i]) != Guid(prefix[j])
        {
          assert prefix[i] == replies[i] && prefix[j] == replies[j];
        }
      }
      assert UpsertAll(reg, replies) == UpsertAll(reg, prefix)[Guid(replies[n]) := replies[n]];
      DistinctRepliesCount(reg, prefix);
      UpsertAllKeys(reg, prefix);
      forall i | 0 <= i < n
        ensures Guid(prefix[i]) != Guid(replies[n])
      {
        assert prefix[i] == replies[i];
      }
    }
  }

  /** Identity, not arrival count, decides the size: however many replies one
      GUID sends, the registry ends as if only the last had arrived, and that
      GUID occupies a single entry. */
  lemma {:induction false} RepeatedRepliesKeepLast(reg: Registry, replies: seq<DiscoveryInfo>, g: string)
    requires replies != []
    requires forall i :: 0 <= i < |replies| ==> Guid(replies[i]) == g
    ensures UpsertAll(reg, replies) == reg[g := replies[|replies| - 1]]
    ensures |UpsertAll(reg, replies)| == if g in reg then |reg| else |reg| + 1
  {
    var n := |replies| - 1;
    var prefix := replies[..n];
    if n == 0 {
      assert prefix == [];
    } else {
      assert forall i :: 0 <= i < |prefix| ==> Guid(prefix[i]) == g by {
        forall i | 0 <= i < |prefix|
          ensures Guid(prefix[i]) == g
        {
          assert prefix[i] == replies[i];
        }
      }
      RepeatedRepliesKeepLast(reg, prefix, g);
      assert reg[g := prefix[n - 1]][g := replies[n]] == reg[g := replies[n]];
    }
    assert UpsertAll(reg, replies) == UpsertAll(reg, prefix)[g := replies[n]];
  }

  /** Last write wins: a reply that no later reply overrides is what the
      registry holds for its GUID. */
  lemma {:induction false} LastReplyWins(reg: Registry, replies: seq<DiscoveryInfo>, i: nat)
    requires i < |replies|
    requires forall j :: i < j < |replies| ==> Guid(replies[j]) != Guid(replies[i])
    ensures Guid(replies[i]) in UpsertAll(reg, replies)
    ensures UpsertAll(reg, replies)[Guid(replies[i])] == replies[i]
  {
    var n := |replies| - 1;
    var prefix := replies[..n];
    var before := UpsertAll(reg, prefix);
    assert UpsertAll(reg, replies) == before[Guid(replies[n]) := replies[n]];
    if i < n {
      assert prefix[i] == replies[i];
      forall j | i < j < |prefix|
        ensures Guid(prefix[j]) != Guid(prefix[i])
      {
        assert prefix[j] == replies[j];
      }
      LastReplyWins(reg, prefix, i);
      assert Guid(replies[n]) != Guid(replies[i]);
    }
  }

  /** A GUID no reply carries keeps its old entry, or stays absent. */
  lemma {:induction false} OtherGuidsUntouched(reg: Registry, replies: seq<DiscoveryInfo>, g: string)
    requires g !in GuidsOf(replies)
    ensures g in UpsertAll(reg, replies) <==> g in reg
    ensures g in reg ==> UpsertAll(reg, replies)[g] == reg[g]
  {
    if replies != [] {
      GuidsOfSnoc(replies);
      OtherGuidsUntouched(reg, replies[..|replies| - 1], g);
    }
  }

  /** Replies only ever add entries filed under their own GUID. */
  lemma {:induction false} UpsertAllWellKeyed(reg: Registry, replies: seq<DiscoveryInfo>)
    requires WellKeyed(reg)
    ensures WellKeyed(UpsertAll(reg, replies))
  {
    if replies != [] {
      UpsertAllWellKeyed(reg, replies[..|replies| - 1]);
    }
  }
}
