/**
 * Door deduplication (`validate_plan`): keep the first door for every
 * unordered pair of room names and drop the later ones.
 */
module Doors {
  import opened Text
  import opened Models

  /** `tuple(sorted([from_room, to_room]))`: the two names, smaller first. */
  datatype PairKey = PairKey(low: string, high: string)

  /**
   * The key of a door. `sorted` swaps the two names exactly when
   * `to_room < from_room`.
   */
  function Key(d: DoorLayout): (k: PairKey)
    ensures (k.low == d.fromRoom && k.high == d.toRoom) || (k.low == d.toRoom && k.high == d.fromRoom)
    ensures !StrLess(k.high, k.low)
  {
    StrLessAsymmetric(d.toRoom, d.fromRoom);
    if StrLess(d.toRoom, d.fromRoom) then PairKey(d.toRoom, d.fromRoom) else PairKey(d.fromRoom, d.toRoom)
  }

  /** Two doors connect the same two rooms, whichever way round they are written. */
  predicate SamePair(a: DoorLayout, b: DoorLayout) {
    (a.fromRoom == b.fromRoom && a.toRoom == b.toRoom) || (a.fromRoom == b.toRoom && a.toRoom == b.fromRoom)
  }

  /** The sorted-tuple key identifies exactly the unordered pair of names. */
  lemma KeyIsUnorderedPair(a: DoorLayout, b: DoorLayout)
    ensures Key(a) == Key(b) <==> SamePair(a, b)
  {
    StrLessTotal(a.fromRoom, a.toRoom);
    StrLessTotal(b.fromRoom, b.toRoom);
    StrLessAsymmetric(a.fromRoom, a.toRoom);
    StrLessAsymmetric(b.fromRoom, b.toRoom);
    StrLessIrreflexive(a.fromRoom);
    StrLessIrreflexive(b.fromRoom);
  }

  /** The keys of a door list (the `seen` set once the whole list is read). */
  function KeySet(doors: seq<DoorLayout>): set<PairKey> {
    set i | 0 <= i < |doors| :: Key(doors[i])
  }

  /** No earlier door in the list has the key of door `i`. */
  predicate IsFirst(doors: seq<DoorLayout>, i: nat)
    requires i < |doors|
  {
    forall j :: 0 <= j < i ==> Key(doors[j]) != Key(doors[i])
  }

  /** No two doors of the list share a key. */
  predicate NoDuplicateKeys(doors: seq<DoorLayout>) {
    forall i, j :: 0 <= i < j < |doors| ==> Key(doors[i]) != Key(doors[j])
  }

  /**
   * The deduplicated list: every door that is the first of its key, in input
   * order. A non-empty door list always keeps at least its first door.
   */
  function Dedup(doors: seq<DoorLayout>): (r: seq<DoorLayout>)
    ensures r == [] <==> doors == []
    decreases |doors|
  {
    if doors == [] then []
    else
      var n := |doors| - 1;
      Dedup(doors[..n]) + (if IsFirst(doors, n) then [doors[n]] else [])
  }

  /** Extending a list by one door keeps the first-occurrence status of the earlier doors. */
  lemma IsFirstPrefix(doors: seq<DoorLayout>, n: nat, i: nat)
    requires i < n <= |doors|
    ensures IsFirst(doors[..n], i) <==> IsFirst(doors, i)
  {
    assert forall j :: 0 <= j <= i ==> doors[..n][j] == doors[j];
  }

  /** The keys of a prefix grown by one door are the old keys and that door's key. */
  lemma KeySetSnoc(doors: seq<DoorLayout>, i: nat)
    requires i < |doors|
    ensures KeySet(doors[..i + 1]) == KeySet(doors[..i]) + {Key(doors[i])}
  {
    assert forall j :: 0 <= j < i ==> doors[..i + 1][j] == doors[..i][j];
    assert doors[..i + 1][i] == doors[i];
  }

  /** A door's key was seen before exactly when the door is not the first of its key. */
  lemma SeenIffNotFirst(doors: seq<DoorLayout>, i: nat)
    requires i < |doors|
    ensures Key(doors[i]) in KeySet(doors[..i]) <==> !IsFirst(doors[..i + 1], i)
  {
    var key := Key(doors[i]);
    if key in KeySet(doors[..i]) {
      var j :| 0 <= j < i && Key(doors[..i][j]) == key;
      assert doors[..i + 1][j] == doors[..i][j];
    }
    if !IsFirst(doors[..i + 1], i) {
      var j :| 0 <= j < i && Key(doors[..i + 1][j]) == key;
      assert doors[..i][j] == doors[..i + 1][j];
    }
  }

  /** A single door has its own key and no other. */
  lemma KeySetSingleton(d: DoorLayout)
    ensures KeySet([d]) == {Key(d)}
  {
    assert [d][0] == d;
    assert Key([d][0]) in KeySet([d]);
  }

  /** The keys of a concatenation are the keys of its two parts. */
  lemma KeySetAppend(a: seq<DoorLayout>, b: seq<DoorLayout>)
    ensures KeySet(a + b) == KeySet(a) + KeySet(b)
  {
    var out := a + b;
    assert forall i :: 0 <= i < |a| ==> out[i] == a[i];
    assert forall i :: 0 <= i < |b| ==> out[|a| + i] == b[i];
  }

  /** First occurrences within all but the last door are first occurrences in the whole list. */
  lemma FirstsCarryOver(doors: seq<DoorLayout>, before: seq<nat>)
    requires doors != []
    requires Selects(doors[..|doors| - 1], Dedup(doors[..|doors| - 1]), before)
    ensures forall k :: 0 <= k < |before| ==> IsFirst(doors, before[k]) && doors[before[k]] == doors[..|doors| - 1][before[k]]
    ensures forall i :: 0 <= i < |doors| - 1 && IsFirst(doors, i) ==> i in before
  {
    var n := |doors| - 1;
    forall k | 0 <= k < |before|
      ensures IsFirst(doors, before[k]) && doors[before[k]] == doors[..n][before[k]]
    {
      IsFirstPrefix(doors, n, before[k]);
    }
    forall i | 0 <= i < n && IsFirst(doors, i)
      ensures i in before
    {
      IsFirstPrefix(doors, n, i);
    }
  }

  /**
   * `out` is the selection of `doors` at positions `idx`: strictly
   * increasing, each the first door of its key, and every first door included.
   */
  ghost predicate Selects(doors: seq<DoorLayout>, out: seq<DoorLayout>, idx: seq<nat>) {
    && |idx| == |out|
    && (forall k :: 0 <= k < |idx| ==> idx[k] < |doors| && out[k] == doors[idx[k]] && IsFirst(doors, idx[k]))
    && (forall k, l :: 0 <= k < l < |idx| ==> idx[k] < idx[l])
    && (forall i :: 0 <= i < |doors| && IsFirst(doors, i) ==> i in idx)
  }

  /** The inductive step when the last door is the first of its key: its position is added. */
  lemma SelectionGrows(doors: seq<DoorLayout>, before: seq<nat>) returns (idx: seq<nat>)
    requires doors != [] && IsFirst(doors, |doors| - 1)
    requires Selects(doors[..|doors| - 1], Dedup(doors[..|doors| - 1]), before)
    ensures Selects(doors, Dedup(doors), idx)
  {
    var n := |doors| - 1;
    var kept := Dedup(doors[..n]);
    FirstsCarryOver(doors, before);
    idx := before + [n];
    var out := kept + [doors[n]];
    assert Dedup(doors) == out;
    forall k | 0 <= k < |idx|
      ensures idx[k] < |doors| && out[k] == doors[idx[k]] && IsFirst(doors, idx[k])
    {
      if k < |before| {
        assert idx[k] == before[k] && out[k] == kept[k];
      }
    }
    forall i | 0 <= i < |doors| && IsFirst(doors, i)
      ensures i in idx
    {
      if i < n {
        assert i in before;
      } else {
        assert idx[|before|] == n;
      }
    }
  }

  /** The inductive step when the last door repeats an earlier key: the selection is unchanged. */
  lemma SelectionStays(doors: seq<DoorLayout>, before: seq<nat>)
    requires doors != [] && !IsFirst(doors, |doors| - 1)
    requires Selects(doors[..|doors| - 1], Dedup(doors[..|doors| - 1]), before)
    ensures Selects(doors, Dedup(doors), before)
  {
    var n := |doors| - 1;
    var kept := Dedup(doors[..n]);
    FirstsCarryOver(doors, before);
    assert Dedup(doors) == kept;
    forall k | 0 <= k < |before|
      ensures before[k] < |doors| && kept[k] == doors[before[k]] && IsFirst(doors, before[k])
    {
    }
    forall i | 0 <= i < |doors| && IsFirst(doors, i)
      ensures i in before
    {
      assert i != n;
    }
  }

  /**
   * The output is a selection of the input: positions `idx`, strictly
   * increasing, each the first door of its key, and every first door is
   * selected. So the output keeps the input's order, keeps exactly the first
   * occurrence of each pair, and is a subsequence of the input.
   */
  lemma {:induction false} DedupSelectsFirstOccurrences(doors: seq<DoorLayout>) returns (idx: seq<nat>)
    ensures |idx| == |Dedup(doors)|
    ensures forall k :: 0 <= k < |idx| ==> idx[k] < |doors| && Dedup(doors)[k] == doors[idx[k]] && IsFirst(doors, idx[k])
    ensures forall k, l :: 0 <= k < l < |idx| ==> idx[k] < idx[l]
    ensures forall i :: 0 <= i < |doors| && IsFirst(doors, i) ==> i in idx
    decreases |doors|
  {
    if doors == [] {
      idx := [];
    } else {
      var before := DedupSelectsFirstOccurrences(doors[..|doors| - 1]);
      if IsFirst(doors, |doors| - 1) {
        idx := SelectionGrows(doors, before);
      } else {
        SelectionStays(doors, before);
        idx := before;
      }
    }
  }

  /**
   * No pair is lost and none is invented: the output has exactly the
   * input's keys.
   */
  lemma {:induction false} DedupKeepsEveryPair(doors: seq<DoorLayout>)
    ensures KeySet(Dedup(doors)) == KeySet(doors)
    decreases |doors|
  {
    if doors != [] {
      var n := |doors| - 1;
      var prefix := doors[..n];
      DedupKeepsEveryPair(prefix);
      KeySetSnoc(doors, n);
      SeenIffNotFirst(doors, n);
      assert doors[..n + 1] == doors;
      var key := Key(doors[n]);
      assert KeySet(doors) == KeySet(prefix) + {key};
      var rest := if IsFirst(doors, n) then [doors[n]] else [];
      assert Dedup(doors) == Dedup(prefix) + rest;
      KeySetAppend(Dedup(prefix), rest);
      if IsFirst(doors, n) {
        KeySetSingleton(doors[n]);
      } else {
        assert KeySet(rest) == {};
        assert key in KeySet(prefix);
      }
    }
  }

  /** After deduplication no two doors share the same unordered pair of rooms. */
  lemma {:induction false} DedupHasNoDuplicateKeys(doors: seq<DoorLayout>)
    ensures NoDuplicateKeys(Dedup(doors))
    decreases |doors|
  {
    if doors != [] {
      var n := |doors| - 1;
      var prefix := doors[..n];
      DedupHasNoDuplicateKeys(prefix);
      if IsFirst(doors, n) {
        DedupKeepsEveryPair(prefix);
        var kept := Dedup(prefix);
        forall i | 0 <= i < |kept|
          ensures Key(kept[i]) != Key(doors[n])
        {
          assert Key(kept[i]) in KeySet(kept);
          var j :| 0 <= j < n && Key(prefix[j]) == Key(kept[i]);
          assert prefix[j] == doors[j];
        }
      }
    }
  }

  /** A list without duplicate pairs passes through unchanged. */
  lemma {:induction false} DedupOfDistinct(doors: seq<DoorLayout>)
    requires NoDuplicateKeys(doors)
    ensures Dedup(doors) == doors
    decreases |doors|
  {
    if doors != [] {
      var n := |doors| - 1;
      assert NoDuplicateKeys(doors[..n]);
      DedupOfDistinct(doors[..n]);
      assert doors == doors[..n] + [doors[n]];
    }
  }

  /** Running deduplication again changes nothing. */
  lemma DedupIdempotent(doors: seq<DoorLayout>)
    ensures Dedup(Dedup(doors)) == Dedup(doors)
  {
    DedupHasNoDuplicateKeys(doors);
    DedupOfDistinct(Dedup(doors));
  }

  /** Deduplication never adds doors. */
  lemma {:induction false} DedupShrinks(doors: seq<DoorLayout>)
    ensures |Dedup(doors)| <= |doors|
    decreases |doors|
  {
    if doors != [] {
      DedupShrinks(doors[..|doors| - 1]);
    }
  }

  /** Two doors joining the same two rooms make the output strictly shorter. */
  lemma {:induction false} DedupDropsADuplicate(doors: seq<DoorLayout>, i: nat, j: nat)
    requires i < j < |doors| && Key(doors[i]) == Key(doors[j])
    ensures |Dedup(doors)| < |doors|
    decreases |doors|
  {
    var n := |doors| - 1;
    var prefix := doors[..n];
    var rest := if IsFirst(doors, n) then [doors[n]] else [];
    assert Dedup(doors) == Dedup(prefix) + rest;
    DedupShrinks(prefix);
    if IsFirst(doors, n) {
      assert j < n;
      assert prefix[i] == doors[i] && prefix[j] == doors[j];
      DedupDropsADuplicate(prefix, i, j);
    }
  }

  /**
   * Doors are removed (and the warning is printed) exactly when two doors
   * of the input connect the same two rooms.
   */
  lemma DedupRemovesIffDuplicates(doors: seq<DoorLayout>)
    ensures |Dedup(doors)| < |doors| <==> !NoDuplicateKeys(doors)
  {
    if NoDuplicateKeys(doors) {
      DedupOfDistinct(doors);
    } else {
      var i, j :| 0 <= i < j < |doors| && Key(doors[i]) == Key(doors[j]);
      DedupDropsADuplicate(doors, i, j);
    }
  }

  /** The door list A-B, B-A, A-C leaves A-B and A-C: the reversed B-A is a duplicate. */
  lemma ReversedDuplicateIsDropped(ab: DoorLayout, ba: DoorLayout, ac: DoorLayout)
    requires ab.fromRoom == "A" && ab.toRoom == "B"
    requires ba.fromRoom == "B" && ba.toRoom == "A"
    requires ac.fromRoom == "A" && ac.toRoom == "C"
    ensures Dedup([ab, ba, ac]) == [ab, ac]
  {
    var doors := [ab, ba, ac];
    assert Key(ab) == PairKey("A", "B");
    assert Key(ba) == PairKey("A", "B");
    assert Key(ac) == PairKey("A", "C");
    var two, one := doors[..2], doors[..1];
    assert two == [ab, ba] && one == [ab] && two[..1] == one && one[..0] == [];
    assert Dedup(one) == [ab] by {
      assert IsFirst(one, 0);
    }
    assert Dedup(two) == [ab] by {
      assert Key(two[0]) == Key(two[1]);
      assert !IsFirst(two, 1);
    }
    assert IsFirst(doors, 2);
  }

  /**
   * The loop of `validate_plan`: walk the doors in order, growing the
   * `seen` key set and the `filtered` list; `removedCount` is what was
   * dropped.
   */
  method DedupDoors(doors: seq<DoorLayout>) returns (filtered: seq<DoorLayout>, removedCount: int)
    ensures filtered == Dedup(doors)
    ensures removedCount == |doors| - |filtered| && removedCount >= 0
    ensures removedCount > 0 <==> !NoDuplicateKeys(doors)
  {
    var seen: set<PairKey> := {};
    filtered := [];
    for i := 0 to |doors|
      invariant seen == KeySet(doors[..i])
      invariant filtered == Dedup(doors[..i])
    {
      var key := Key(doors[i]);
      assert doors[..i + 1][..i] == doors[..i];
      SeenIffNotFirst(doors, i);
      KeySetSnoc(doors, i);
      if key !in seen {
        seen := seen + {key};
        filtered := filtered + [doors[i]];
      }
    }
    assert doors[..|doors|] == doors;
    removedCount := |doors| - |filtered|;
    DedupShrinks(doors);
    DedupRemovesIffDuplicates(doors);
  }
}
