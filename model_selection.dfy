/** Slot-keyed model selection of src/hooks/use-model-selection.ts; the same
    transitions are written out again in src/contexts/arena-context.tsx:62-91. */
module ModelSelection {
  import opened Util
  import opened Models

  /** `prev.filter((m) => m.slot !== slot)` */
  function WithoutSlot(s: seq<SelectedModel>, slot: Slot): (r: seq<SelectedModel>)
    ensures forall i :: 0 <= i < |r| ==> r[i].slot != slot
    ensures |r| <= |s|
  {
    if |s| == 0 then []
    else (if s[0].slot != slot then [s[0]] else []) + WithoutSlot(s[1..], slot)
  }

  /** The entries of one slot, in order. */
  function OfSlot(s: seq<SelectedModel>, slot: Slot): (r: seq<SelectedModel>)
    ensures |r| <= |s|
  {
    if |s| == 0 then []
    else (if s[0].slot == slot then [s[0]] else []) + OfSlot(s[1..], slot)
  }

  /** `.sort((a, b) => a.slot - b.slot)`: `Array.prototype.sort` is stable, so with the
      three slot values the result is the slot-1 entries, then slot 2, then slot 3, each
      group in its original order. */
  function SortBySlot(s: seq<SelectedModel>): seq<SelectedModel> {
    OfSlot(s, 1) + OfSlot(s, 2) + OfSlot(s, 3)
  }

  /** Every entry of a slot group has that slot, and comes from the input. */
  lemma {:induction false} OfSlotMembers(s: seq<SelectedModel>, k: Slot)
    ensures forall i :: 0 <= i < |OfSlot(s, k)| ==> OfSlot(s, k)[i].slot == k && OfSlot(s, k)[i] in s
  {
    if |s| > 0 {
      OfSlotMembers(s[1..], k);
    }
  }

  predicate SortedBySlot(s: seq<SelectedModel>) {
    forall i, j :: 0 <= i < j < |s| ==> s[i].slot <= s[j].slot
  }

  predicate DistinctSlots(s: seq<SelectedModel>) {
    forall i, j :: 0 <= i < j < |s| ==> s[i].slot != s[j].slot
  }

  lemma {:induction false} OfSlotAppend(a: seq<SelectedModel>, b: seq<SelectedModel>, k: Slot)
    ensures OfSlot(a + b, k) == OfSlot(a, k) + OfSlot(b, k)
  {
    if |a| == 0 {
      assert a + b == b;
    } else {
      var head := if a[0].slot == k then [a[0]] else [];
      assert (a + b)[0] == a[0] && (a + b)[1..] == a[1..] + b;
      assert OfSlot(a + b, k) == head + OfSlot(a[1..] + b, k);
      OfSlotAppend(a[1..], b, k);
      assert head + (OfSlot(a[1..], k) + OfSlot(b, k)) == (head + OfSlot(a[1..], k)) + OfSlot(b, k);
    }
  }

  lemma {:induction false} WithoutSlotAppend(a: seq<SelectedModel>, b: seq<SelectedModel>, k: Slot)
    ensures WithoutSlot(a + b, k) == WithoutSlot(a, k) + WithoutSlot(b, k)
  {
    if |a| == 0 {
      assert a + b == b;
    } else {
      assert (a + b)[1..] == a[1..] + b;
      WithoutSlotAppend(a[1..], b, k);
    }
  }

  /** Removing a slot keeps every other slot's entries, in order, and leaves none of that slot. */
  lemma {:induction false} OfSlotWithout(s: seq<SelectedModel>, slot: Slot, k: Slot)
    ensures OfSlot(WithoutSlot(s, slot), k) == if k == slot then [] else OfSlot(s, k)
  {
    if |s| > 0 {
      OfSlotWithout(s[1..], slot, k);
      OfSlotAppend(if s[0].slot != slot then [s[0]] else [], WithoutSlot(s[1..], slot), k);
    }
  }

  /** The slot groups of a sequence together hold exactly its elements. */
  lemma SortBySlotPermutation(s: seq<SelectedModel>)
    ensures multiset(SortBySlot(s)) == multiset(s)
  {
    GroupsPartition(s);
  }

  lemma GroupsPartition(s: seq<SelectedModel>)
    ensures multiset(OfSlot(s, 1)) + multiset(OfSlot(s, 2)) + multiset(OfSlot(s, 3)) == multiset(s)
  {
    var w1 := WithoutSlot(s, 1);
    var w2 := WithoutSlot(w1, 2);
    SplitBySlot(s, 1);
    SplitBySlot(w1, 2);
    OfSlotWithout(s, 1, 2);
    OfSlotWithout(s, 1, 3);
    OfSlotWithout(w1, 2, 3);
    OfSlotWithout(s, 1, 1);
    OfSlotWithout(w1, 2, 1);
    OfSlotWithout(w1, 2, 2);
    OnlySlotThree(w2);
  }

  /** A sequence falls apart into one slot's group and the rest. */
  lemma {:induction false} SplitBySlot(s: seq<SelectedModel>, k: Slot)
    ensures multiset(OfSlot(s, k)) + multiset(WithoutSlot(s, k)) == multiset(s)
  {
    if |s| > 0 {
      var x, t := s[0], s[1..];
      SplitBySlot(t, k);
      assert s == [x] + t;
      if x.slot == k {
        assert OfSlot(s, k) == [x] + OfSlot(t, k);
        assert WithoutSlot(s, k) == WithoutSlot(t, k);
      } else {
        assert OfSlot(s, k) == OfSlot(t, k);
        assert WithoutSlot(s, k) == [x] + WithoutSlot(t, k);
      }
    }
  }

  /** With no slot 1 and no slot 2 entries, everything is in slot 3. */
  lemma {:induction false} OnlySlotThree(s: seq<SelectedModel>)
    requires OfSlot(s, 1) == [] && OfSlot(s, 2) == []
    ensures OfSlot(s, 3) == s
  {
    if |s| > 0 {
      OnlySlotThree(s[1..]);
    }
  }

  /** The sort by slot yields a sequence ordered by slot that keeps each slot's group as
      it was (stability). */
  lemma SortBySlotSorted(s: seq<SelectedModel>)
    ensures SortedBySlot(SortBySlot(s))
    ensures forall k: Slot :: OfSlot(SortBySlot(s), k) == OfSlot(s, k)
  {
    var a, b, c := OfSlot(s, 1), OfSlot(s, 2), OfSlot(s, 3);
    OfSlotMembers(s, 1);
    OfSlotMembers(s, 2);
    OfSlotMembers(s, 3);
    BandsSorted(a, b, c);
    forall k: Slot ensures OfSlot(a + b + c, k) == OfSlot(s, k) {
      OfSlotAppend(a + b, c, k);
      OfSlotAppend(a, b, k);
      OfSlotOfSlot(s, 1, k);
      OfSlotOfSlot(s, 2, k);
      OfSlotOfSlot(s, 3, k);
    }
  }

  /** Three bands of slot 1, slot 2 and slot 3 entries, concatenated, are sorted by slot. */
  lemma BandsSorted(a: seq<SelectedModel>, b: seq<SelectedModel>, c: seq<SelectedModel>)
    requires forall i :: 0 <= i < |a| ==> a[i].slot == 1
    requires forall i :: 0 <= i < |b| ==> b[i].slot == 2
    requires forall i :: 0 <= i < |c| ==> c[i].slot == 3
    ensures SortedBySlot(a + b + c)
  {
    var r := a + b + c;
    assert forall i :: 0 <= i < |r| ==> r[i].slot == (if i < |a| then 1 else if i < |a| + |b| then 2 else 3) by {
      forall i | 0 <= i < |r| ensures r[i].slot == (if i < |a| then 1 else if i < |a| + |b| then 2 else 3) {
        if i < |a| { assert r[i] == a[i]; }
        else if i < |a| + |b| { assert r[i] == b[i - |a|]; }
        else { assert r[i] == c[i - |a| - |b|]; }
      }
    }
  }

  lemma {:induction false} OfSlotOfSlot(s: seq<SelectedModel>, j: Slot, k: Slot)
    ensures OfSlot(OfSlot(s, j), k) == if j == k then OfSlot(s, k) else []
  {
    if |s| > 0 {
      OfSlotOfSlot(s[1..], j, k);
      OfSlotAppend(if s[0].slot == j then [s[0]] else [], OfSlot(s[1..], j), k);
    }
  }

  /** Each of the three slots has at most one entry. */
  predicate AtMostOnePerSlot(s: seq<SelectedModel>) {
    |OfSlot(s, 1)| <= 1 && |OfSlot(s, 2)| <= 1 && |OfSlot(s, 3)| <= 1
  }

  /** Slots are distinct exactly when each slot has at most one entry. */
  lemma DistinctSlotsByCount(s: seq<SelectedModel>)
    ensures DistinctSlots(s) <==> AtMostOnePerSlot(s)
  {
    if DistinctSlots(s) {
      DistinctCountsAtMostOne(s);
    }
    if AtMostOnePerSlot(s) {
      CountsAtMostOneDistinct(s);
    }
  }

  lemma {:induction false} DistinctCountsAtMostOne(s: seq<SelectedModel>)
    requires DistinctSlots(s)
    ensures AtMostOnePerSlot(s)
  {
    if |s| > 0 {
      var t := s[1..];
      assert DistinctSlots(t) by {
        forall i, j | 0 <= i < j < |t| ensures t[i].slot != t[j].slot {
          assert t[i] == s[i + 1] && t[j] == s[j + 1];
        }
      }
      DistinctCountsAtMostOne(t);
      forall i | 0 <= i < |t| ensures t[i].slot != s[0].slot {
        assert t[i] == s[i + 1];
      }
      OfSlotMissing(t, s[0].slot);
      forall k: Slot ensures |OfSlot(s, k)| <= 1 {
        assert OfSlot(s, k) == (if s[0].slot == k then [s[0]] else []) + OfSlot(t, k);
      }
      assert |OfSlot(s, 1)| <= 1 && |OfSlot(s, 2)| <= 1 && |OfSlot(s, 3)| <= 1;
    }
  }

  lemma {:induction false} CountsAtMostOneDistinct(s: seq<SelectedModel>)
    requires AtMostOnePerSlot(s)
    ensures DistinctSlots(s)
  {
    if |s| > 0 {
      var t := s[1..];
      forall k: Slot ensures |OfSlot(t, k)| <= 1 {
        assert OfSlot(s, k) == (if s[0].slot == k then [s[0]] else []) + OfSlot(t, k);
        assert |OfSlot(s, k)| <= 1;
      }
      CountsAtMostOneDistinct(t);
      assert OfSlot(s, s[0].slot) == [s[0]] + OfSlot(t, s[0].slot);
      assert OfSlot(t, s[0].slot) == [];
      forall i, j | 0 <= i < j < |s| ensures s[i].slot != s[j].slot {
        if i == 0 {
          OfSlotEmpty(t, s[0].slot, j - 1);
          assert s[j] == t[j - 1];
        } else {
          assert s[i] == t[i - 1] && s[j] == t[j - 1];
        }
      }
    }
  }

  /** No later element has slot k when the slot group of k is empty. */
  lemma {:induction false} OfSlotEmpty(s: seq<SelectedModel>, k: Slot, j: nat)
    requires OfSlot(s, k) == [] && j < |s|
    ensures s[j].slot != k
  {
    if j > 0 {
      OfSlotEmpty(s[1..], k, j - 1);
    }
  }

  /** A slot that appears nowhere has an empty group. */
  lemma {:induction false} OfSlotMissing(s: seq<SelectedModel>, k: Slot)
    requires forall i :: 0 <= i < |s| ==> s[i].slot != k
    ensures OfSlot(s, k) == []
  {
    if |s| > 0 {
      OfSlotMissing(s[1..], k);
    }
  }

  /** `selectModel(slot, modelId)` */
  function SelectModel(prev: seq<SelectedModel>, slot: Slot, modelId: string): seq<SelectedModel> {
    var filtered := WithoutSlot(prev, slot);
    if modelId != "" then SortBySlot(filtered + [SelectedModel(slot, modelId)]) else filtered
  }

  /** `clearModel(slot)` */
  function ClearModel(prev: seq<SelectedModel>, slot: Slot): seq<SelectedModel> {
    WithoutSlot(prev, slot)
  }

  /** `clearAllModels()` */
  function ClearAllModels(prev: seq<SelectedModel>): (r: seq<SelectedModel>)
    ensures !HasModels(r)
  {
    []
  }

  /** `selectedModels.length > 0` */
  predicate HasModels(s: seq<SelectedModel>) {
    |s| > 0
  }

  /** Selecting a non-empty id leaves exactly one entry for the slot, holding that id;
      every other slot keeps its entries in order; the result is sorted by slot; and
      distinct slots stay distinct. */
  lemma SelectModelEffect(prev: seq<SelectedModel>, slot: Slot, modelId: string)
    requires modelId != ""
    ensures OfSlot(SelectModel(prev, slot, modelId), slot) == [SelectedModel(slot, modelId)]
    ensures forall k: Slot :: k != slot ==> OfSlot(SelectModel(prev, slot, modelId), k) == OfSlot(prev, k)
    ensures SortedBySlot(SelectModel(prev, slot, modelId))
    ensures DistinctSlots(prev) ==> DistinctSlots(SelectModel(prev, slot, modelId))
  {
    var filtered := WithoutSlot(prev, slot);
    var added := filtered + [SelectedModel(slot, modelId)];
    SortBySlotSorted(added);
    forall k: Slot ensures OfSlot(added, k) == if k == slot then [SelectedModel(slot, modelId)] else OfSlot(prev, k) {
      OfSlotAppend(filtered, [SelectedModel(slot, modelId)], k);
      OfSlotWithout(prev, slot, k);
    }
    if DistinctSlots(prev) {
      DistinctSlotsByCount(prev);
      DistinctSlotsByCount(SelectModel(prev, slot, modelId));
    }
  }

  /** Clearing a slot, or selecting the empty id for it, removes exactly that slot's
      entries and keeps the rest in their order. */
  lemma ClearModelEffect(prev: seq<SelectedModel>, slot: Slot)
    ensures SelectModel(prev, slot, "") == ClearModel(prev, slot)
    ensures OfSlot(ClearModel(prev, slot), slot) == []
    ensures forall k: Slot :: k != slot ==> OfSlot(ClearModel(prev, slot), k) == OfSlot(prev, k)
    ensures forall i :: 0 <= i < |prev| && prev[i].slot != slot ==> prev[i] in ClearModel(prev, slot)
  {
    forall k: Slot { OfSlotWithout(prev, slot, k); }
    forall i | 0 <= i < |prev| && prev[i].slot != slot ensures prev[i] in ClearModel(prev, slot) {
      WithoutSlotKeeps(prev, slot, i);
    }
  }

  lemma {:induction false} WithoutSlotKeeps(s: seq<SelectedModel>, slot: Slot, i: nat)
    requires i < |s| && s[i].slot != slot
    ensures s[i] in WithoutSlot(s, slot)
  {
    if i > 0 {
      WithoutSlotKeeps(s[1..], slot, i - 1);
    }
  }

  /** The head of a slot group is what `find((m) => m.slot === slot)` returns: the first
      entry with that slot. */
  lemma {:induction false} OfSlotHeadIsFirst(s: seq<SelectedModel>, k: Slot)
    requires OfSlot(s, k) != []
    ensures exists i :: 0 <= i < |s| && s[i] == OfSlot(s, k)[0] && forall j :: 0 <= j < i ==> s[j].slot != k
  {
    if s[0].slot != k {
      OfSlotHeadIsFirst(s[1..], k);
      var i :| 0 <= i < |s[1..]| && s[1..][i] == OfSlot(s[1..], k)[0] && forall j :: 0 <= j < i ==> s[1..][j].slot != k;
      assert s[i + 1] == OfSlot(s, k)[0];
      forall j | 0 <= j < i + 1 ensures s[j].slot != k {
        if j > 0 { assert s[j] == s[1..][j - 1]; }
      }
    }
  }

  /** `getModelForSlot(slot)`: the registry entry of the first selection in that slot;
      `None` for an empty slot or an id the registry does not know. */
  function GetModelForSlot(s: seq<SelectedModel>, slot: Slot): (r: Option<ModelDefinition>)
    ensures r.None? <==> OfSlot(s, slot) == [] || !IsRegistered(OfSlot(s, slot)[0].modelId)
    ensures r.Some? ==> r.value in AVAILABLE_MODELS && r.value.id == OfSlot(s, slot)[0].modelId
  {
    var group := OfSlot(s, slot);
    if group == [] then None else FindModel(group[0].modelId)
  }
}
