/** The pre-paging baseline: one contiguous reservation per sequence, first fit,
    with coalescing of free slots. All reservations have the same length. */
module Contiguous {
  import opened Lists

  datatype Slot = Slot(start: nat, size: nat, owner: Option<string>) {
    function End(): nat {
      start + size
    }

    predicate IsFree() {
      owner.None?
    }
  }

  /** The slots follow one another without gap or overlap. */
  ghost predicate Contiguous(slots: seq<Slot>) {
    && (forall i :: 0 <= i < |slots| ==> slots[i].size > 0)
    && (forall i, j :: 0 <= i && j == i + 1 && j < |slots| ==> slots[i].End() == slots[j].start)
  }

  ghost predicate Tiles(slots: seq<Slot>, capacity: nat) {
    Contiguous(slots) && slots != [] && slots[0].start == 0 && slots[|slots| - 1].End() == capacity
  }

  /** Every reservation has length `len`, and every slot starts at a multiple of it. */
  ghost predicate Aligned(slots: seq<Slot>, len: pos) {
    forall i :: 0 <= i < |slots| ==>
      slots[i].start % len == 0 && (!slots[i].IsFree() ==> slots[i].size == len)
  }

  ghost predicate NoFreePair(slots: seq<Slot>) {
    forall i, j :: 0 <= i && j == i + 1 && j < |slots| ==> !(slots[i].IsFree() && slots[j].IsFree())
  }

  ghost predicate Sound(slots: seq<Slot>, capacity: nat, len: pos) {
    Tiles(slots, capacity) && Aligned(slots, len) && NoFreePair(slots)
  }

  // ---- the operations

  /** The first slot that can hold the reservation, or the number of slots. */
  function FirstFit(slots: seq<Slot>, len: nat): (i: nat)
    ensures i <= |slots|
    ensures i < |slots| ==> slots[i].IsFree() && slots[i].size >= len
    ensures forall j :: 0 <= j < i ==> !(slots[j].IsFree() && slots[j].size >= len)
  {
    if slots == [] then 0
    else if slots[0].IsFree() && slots[0].size >= len then 0
    else 1 + FirstFit(slots[1..], len)
  }

  /** Reserve the front of slot `i`; what is left over stays free. */
  function Reserve(slots: seq<Slot>, i: nat, len: nat, id: string): seq<Slot>
    requires i < |slots| && slots[i].size >= len
  {
    var s := slots[i];
    slots[..i] + [Slot(s.start, len, Some(id))]
    + (if s.size > len then [Slot(s.start + len, s.size - len, None)] else []) + slots[i + 1..]
  }

  function Vacated(s: Slot, id: string): Slot {
    if s.owner == Some(id) then s.(owner := None) else s
  }

  function Vacate(slots: seq<Slot>, id: string): (r: seq<Slot>)
    ensures |r| == |slots|
    ensures forall i :: 0 <= i < |slots| ==> r[i] == Vacated(slots[i], id)
  {
    if slots == [] then [] else [Vacated(slots[0], id)] + Vacate(slots[1..], id)
  }

  /** Tuple order: by start, then size. */
  function Insert(s: Slot, sorted: seq<Slot>): seq<Slot> {
    if sorted == [] || s.start < sorted[0].start || (s.start == sorted[0].start && s.size <= sorted[0].size)
    then [s] + sorted
    else [sorted[0]] + Insert(s, sorted[1..])
  }

  function Sorted(slots: seq<Slot>): seq<Slot> {
    if slots == [] then [] else Insert(slots[0], Sorted(slots[1..]))
  }

  predicate Fuses(merged: seq<Slot>, s: Slot) {
    merged != [] && merged[|merged| - 1].IsFree() && s.IsFree() && merged[|merged| - 1].End() == s.start
  }

  function Fuse(merged: seq<Slot>, s: Slot): seq<Slot>
    requires merged != []
  {
    var last := merged[|merged| - 1];
    merged[..|merged| - 1] + [Slot(last.start, last.size + s.size, None)]
  }

  function Extend(merged: seq<Slot>, s: Slot): seq<Slot> {
    if Fuses(merged, s) then Fuse(merged, s) else merged + [s]
  }

  function Merge(merged: seq<Slot>, slots: seq<Slot>): seq<Slot>
    decreases |slots|
  {
    if slots == [] then merged else Merge(Extend(merged, slots[0]), slots[1..])
  }

  function Coalesced(slots: seq<Slot>): seq<Slot> {
    Merge([], Sorted(slots))
  }

  function Freed(slots: seq<Slot>, id: string): seq<Slot> {
    Coalesced(Vacate(slots, id))
  }

  function Allocated(slots: seq<Slot>, len: nat, id: string): seq<Slot> {
    var i := FirstFit(slots, len);
    if i < |slots| then Reserve(slots, i, len, id) else slots
  }

  // ---- what the slots hold

  function Owned(slots: seq<Slot>): seq<Slot> {
    if slots == [] then []
    else (if slots[0].IsFree() then [] else [slots[0]]) + Owned(slots[1..])
  }

  function FreeTotal(slots: seq<Slot>): nat {
    if slots == [] then 0
    else (if slots[0].IsFree() then slots[0].size else 0) + FreeTotal(slots[1..])
  }

  function Others(owned: seq<Slot>, id: string): seq<Slot> {
    if owned == [] then []
    else (if owned[0].owner == Some(id) then [] else [owned[0]]) + Others(owned[1..], id)
  }

  lemma {:induction false} OwnedAppend(a: seq<Slot>, b: seq<Slot>)
    ensures Owned(a + b) == Owned(a) + Owned(b)
  {
    if a == [] {
      assert a + b == b;
    } else {
      assert (a + b)[1..] == a[1..] + b;
      OwnedAppend(a[1..], b);
    }
  }

  lemma {:induction false} FreeAppend(a: seq<Slot>, b: seq<Slot>)
    ensures FreeTotal(a + b) == FreeTotal(a) + FreeTotal(b)
  {
    if a == [] {
      assert a + b == b;
    } else {
      assert (a + b)[1..] == a[1..] + b;
      FreeAppend(a[1..], b);
    }
  }

  // ---- coalescing

  lemma {:induction false} SortedTiles(slots: seq<Slot>)
    requires Contiguous(slots)
    ensures Sorted(slots) == slots
  {
    if |slots| > 1 {
      assert Contiguous(slots[1..]) by {
        assert forall i :: 0 <= i < |slots[1..]| ==> slots[1..][i] == slots[i + 1];
      }
      SortedTiles(slots[1..]);
      assert slots[0].End() == slots[1].start;
    } else if |slots| == 1 {
      assert Sorted(slots[1..]) == [];
    }
  }

  lemma ExtendOwned(merged: seq<Slot>, s: Slot)
    ensures Owned(Extend(merged, s)) == Owned(merged) + Owned([s])
    ensures FreeTotal(Extend(merged, s)) == FreeTotal(merged) + FreeTotal([s])
  {
    OwnedAppend(merged, [s]);
    FreeAppend(merged, [s]);
    if Fuses(merged, s) {
      var init, last := merged[..|merged| - 1], merged[|merged| - 1];
      assert merged == init + [last];
      OwnedAppend(init, [last]);
      FreeAppend(init, [last]);
      var fused := Slot(last.start, last.size + s.size, None);
      OwnedAppend(init, [fused]);
      FreeAppend(init, [fused]);
      assert FreeTotal([fused]) == FreeTotal([last]) + FreeTotal([s]);
    }
  }

  /** What extending the merged slots does to the whole list. */
  lemma ExtendShape(merged: seq<Slot>, slots: seq<Slot>)
    requires slots != []
    ensures
      var all, now, n := merged + slots, Extend(merged, slots[0]) + slots[1..], |merged|;
      if Fuses(merged, slots[0]) then
        && |now| == |all| - 1
        && (forall i :: 0 <= i < n - 1 ==> now[i] == all[i])
        && now[n - 1] == Slot(all[n - 1].start, all[n - 1].size + all[n].size, None)
        && (forall i :: n <= i < |now| ==> now[i] == all[i + 1])
      else now == all
  {
  }

  lemma ExtendTiles(merged: seq<Slot>, slots: seq<Slot>, capacity: nat, len: pos)
    requires slots != [] && Tiles(merged + slots, capacity) && Aligned(merged + slots, len) && NoFreePair(merged)
    ensures Tiles(Extend(merged, slots[0]) + slots[1..], capacity)
    ensures Aligned(Extend(merged, slots[0]) + slots[1..], len)
    ensures NoFreePair(Extend(merged, slots[0]))
  {
    ExtendShape(merged, slots);
    var all, now := merged + slots, Extend(merged, slots[0]) + slots[1..];
    if Fuses(merged, slots[0]) {
      FusedTiles(all, now, |merged|, capacity, len);
    }
    ExtendNoPair(merged, slots, capacity);
  }

  lemma FusedTiles(all: seq<Slot>, now: seq<Slot>, n: nat, capacity: nat, len: pos)
    requires Tiles(all, capacity) && Aligned(all, len)
    requires 0 < n < |all| && |now| == |all| - 1 && all[n - 1].IsFree()
    requires forall i :: 0 <= i < n - 1 ==> now[i] == all[i]
    requires now[n - 1] == Slot(all[n - 1].start, all[n - 1].size + all[n].size, None)
    requires forall i :: n <= i < |now| ==> now[i] == all[i + 1]
    ensures Tiles(now, capacity) && Aligned(now, len)
  {
    assert Aligned(now, len) by {
      hide Contiguous, Tiles;
    }
    forall i, j | 0 <= i && j == i + 1 && j < |now| ensures now[i].End() == now[j].start {
      if j < n {
        assert all[i].End() == all[j].start;
      } else {
        assert all[i + 1].End() == all[j + 1].start;
        assert all[n - 1].End() == all[n].start;
      }
    }
    assert now[|now| - 1].End() == capacity by {
      assert all[n - 1].End() == all[n].start;
    }
  }

  lemma ExtendNoPair(merged: seq<Slot>, slots: seq<Slot>, capacity: nat)
    requires slots != [] && Tiles(merged + slots, capacity) && NoFreePair(merged)
    ensures NoFreePair(Extend(merged, slots[0]))
  {
    var all, n, m := merged + slots, |merged|, Extend(merged, slots[0]);
    assert all[n] == slots[0];
    if merged != [] {
      assert all[n - 1] == merged[n - 1];
      assert all[n - 1].End() == all[n].start;
    }
    hide Contiguous;
    forall i, j | 0 <= i && j == i + 1 && j < |m| ensures !(m[i].IsFree() && m[j].IsFree()) {
      assert m[i] == merged[i];
      assert j < n ==> (m[j].IsFree() <==> merged[j].IsFree());
    }
  }

  /** Merging keeps the tiling, leaves no two free neighbours, and touches no reservation. */
  lemma {:induction false} MergeTiles(merged: seq<Slot>, slots: seq<Slot>, capacity: nat, len: pos)
    requires Tiles(merged + slots, capacity) && Aligned(merged + slots, len) && NoFreePair(merged)
    ensures Sound(Merge(merged, slots), capacity, len)
    ensures Owned(Merge(merged, slots)) == Owned(merged) + Owned(slots)
    ensures FreeTotal(Merge(merged, slots)) == FreeTotal(merged) + FreeTotal(slots)
    decreases |slots|
  {
    hide Tiles, Aligned, NoFreePair, Extend;
    if slots == [] {
      assert merged + slots == merged;
    } else {
      ExtendTiles(merged, slots, capacity, len);
      MergeTiles(Extend(merged, slots[0]), slots[1..], capacity, len);
      ExtendOwned(merged, slots[0]);
      assert slots == [slots[0]] + slots[1..];
      OwnedAppend([slots[0]], slots[1..]);
      FreeAppend([slots[0]], slots[1..]);
    }
  }

  /** With no two free neighbours there is nothing to merge. */
  lemma {:induction false} MergeIdle(merged: seq<Slot>, slots: seq<Slot>)
    requires NoFreePair(merged + slots)
    ensures Merge(merged, slots) == merged + slots
    decreases |slots|
  {
    if slots == [] {
      assert merged + slots == merged;
    } else {
      var all, n := merged + slots, |merged|;
      assert all[n] == slots[0];
      assert merged != [] ==> all[n - 1] == merged[n - 1];
      assert (merged + [slots[0]]) + slots[1..] == all;
      MergeIdle(merged + [slots[0]], slots[1..]);
    }
  }

  lemma {:induction false} MergeSplit(merged: seq<Slot>, a: seq<Slot>, b: seq<Slot>)
    ensures Merge(merged, a + b) == Merge(Merge(merged, a), b)
    decreases |a|
  {
    if a == [] {
      assert a + b == b;
    } else {
      assert (a + b)[1..] == a[1..] + b;
      MergeSplit(Extend(merged, a[0]), a[1..], b);
    }
  }

  // ---- every operation keeps the tiling

  lemma {:induction false} OwnedVacate(slots: seq<Slot>, id: string)
    ensures Owned(Vacate(slots, id)) == Others(Owned(slots), id)
  {
    if slots != [] {
      OwnedVacate(slots[1..], id);
      var v := Vacate(slots, id);
      assert v[0] == Vacated(slots[0], id) && v[1..] == Vacate(slots[1..], id);
      if !slots[0].IsFree() {
        assert Owned(slots) == [slots[0]] + Owned(slots[1..]);
        assert Owned(slots)[1..] == Owned(slots[1..]);
      } else {
        assert v[0].IsFree();
        assert Owned(slots) == Owned(slots[1..]) && Owned(v) == Owned(v[1..]);
      }
    }
  }

  lemma VacateTiles(slots: seq<Slot>, id: string, capacity: nat, len: pos)
    requires Tiles(slots, capacity) && Aligned(slots, len)
    ensures Tiles(Vacate(slots, id), capacity) && Aligned(Vacate(slots, id), len)
  {
    hide Vacate;
    var v := Vacate(slots, id);
    assert v[0] == Vacated(slots[0], id) && v[|v| - 1] == Vacated(slots[|v| - 1], id);
    assert Aligned(v, len) by {
      hide Contiguous, Tiles;
    }
    forall i, j | 0 <= i && j == i + 1 && j < |v| ensures v[i].End() == v[j].start {
      assert slots[i].End() == slots[j].start;
    }
  }

  /** Freeing keeps the tiling and gives up exactly the reservations of `id`. */
  lemma FreeSound(slots: seq<Slot>, id: string, capacity: nat, len: pos)
    requires Sound(slots, capacity, len)
    ensures Sound(Freed(slots, id), capacity, len)
    ensures Owned(Freed(slots, id)) == Others(Owned(slots), id)
  {
    var v := Vacate(slots, id);
    VacateTiles(slots, id, capacity, len);
    SortedTiles(v);
    assert [] + v == v;
    MergeTiles([], v, capacity, len);
    OwnedVacate(slots, id);
  }

  lemma AlignedPlus(a: nat, len: pos)
    requires a % len == 0
    ensures (a + len) % len == 0
  {
    DivModUnique(a + len, len, a / len + 1, 0);
  }

  lemma ReserveSound(slots: seq<Slot>, i: nat, len: pos, id: string, capacity: nat)
    requires Sound(slots, capacity, len)
    requires i < |slots| && slots[i].IsFree() && slots[i].size >= len
    ensures Sound(Reserve(slots, i, len, id), capacity, len)
  {
    hide *;
    SoundParts(slots, capacity, len);
    ReserveContiguous(slots, i, len, id, capacity);
    ReserveAligned(slots, i, len, id);
    ReserveNoPair(slots, i, len, id);
    SoundParts(Reserve(slots, i, len, id), capacity, len);
  }

  lemma SoundParts(slots: seq<Slot>, capacity: nat, len: pos)
    ensures Sound(slots, capacity, len) <==> Tiles(slots, capacity) && Aligned(slots, len) && NoFreePair(slots)
  {
  }

  lemma ReserveContiguous(slots: seq<Slot>, i: nat, len: pos, id: string, capacity: nat)
    requires Sound(slots, capacity, len)
    requires i < |slots| && slots[i].IsFree() && slots[i].size >= len
    ensures Tiles(Reserve(slots, i, len, id), capacity)
  {
    hide Aligned, NoFreePair;
    var r, s := Reserve(slots, i, len, id), slots[i];
    var k := |r| - |slots|;
    assert r[i] == Slot(s.start, len, Some(id));
    assert forall j :: 0 <= j < i ==> r[j] == slots[j];
    assert forall j :: i + k < j < |r| ==> r[j] == slots[j - k];
    forall a, b | 0 <= a && b == a + 1 && b < |r| ensures r[a].End() == r[b].start {
      if b <= i {
        assert slots[a].End() == slots[b].start;
      } else if a >= i + k {
        assert slots[a - k].End() == slots[b - k].start;
      }
    }
  }

  lemma ReserveAligned(slots: seq<Slot>, i: nat, len: pos, id: string)
    requires Aligned(slots, len) && i < |slots| && slots[i].size >= len
    ensures Aligned(Reserve(slots, i, len, id), len)
  {
    AlignedPlus(slots[i].start, len);
    var r := Reserve(slots, i, len, id);
    var k := |r| - |slots|;
    assert forall j :: 0 <= j < i ==> r[j] == slots[j];
    assert forall j :: i + k < j < |r| ==> r[j] == slots[j - k];
  }

  lemma ReserveNoPair(slots: seq<Slot>, i: nat, len: pos, id: string)
    requires NoFreePair(slots) && i < |slots| && slots[i].IsFree() && slots[i].size >= len
    ensures NoFreePair(Reserve(slots, i, len, id))
  {
    var r := Reserve(slots, i, len, id);
    var k := |r| - |slots|;
    assert forall j :: 0 <= j < i ==> r[j] == slots[j];
    assert forall j :: i + k < j < |r| ==> r[j] == slots[j - k];
    forall a, b | 0 <= a && b == a + 1 && b < |r| && r[a].IsFree()
      ensures !r[b].IsFree()
    {
      if b < i {
        assert slots[a].IsFree();
      } else if a >= i + k {
        assert slots[a - k].IsFree();
        assert !slots[b - k].IsFree();
      }
    }
  }

  lemma Around(front: seq<Slot>, mid: seq<Slot>, back: seq<Slot>)
    ensures Owned(front + mid + back) == Owned(front) + Owned(mid) + Owned(back)
    ensures FreeTotal(front + mid + back) == FreeTotal(front) + FreeTotal(mid) + FreeTotal(back)
  {
    OwnedAppend(front + mid, back);
    FreeAppend(front + mid, back);
    OwnedAppend(front, mid);
    FreeAppend(front, mid);
  }

  /** A reservation adds one owned slot and uses up `len` free tokens. */
  lemma ReserveOwned(slots: seq<Slot>, i: nat, len: pos, id: string)
    requires i < |slots| && slots[i].IsFree() && slots[i].size >= len
    ensures Owned(Reserve(slots, i, len, id))
         == Owned(slots[..i]) + [Slot(slots[i].start, len, Some(id))] + Owned(slots[i + 1..])
    ensures Owned(slots) == Owned(slots[..i]) + Owned(slots[i + 1..])
    ensures FreeTotal(Reserve(slots, i, len, id)) == FreeTotal(slots) - len
  {
    hide Owned, FreeTotal, Reserve;
    var s := slots[i];
    var taken := Slot(s.start, len, Some(id));
    var rest := if s.size > len then [Slot(s.start + len, s.size - len, None)] else [];
    ReserveParts(slots, i, len, id);
    Pieces(s, taken, rest);
    Around(slots[..i], [s], slots[i + 1..]);
    Around(slots[..i], [taken] + rest, slots[i + 1..]);
  }

  lemma ReserveParts(slots: seq<Slot>, i: nat, len: nat, id: string)
    requires i < |slots| && slots[i].size >= len
    ensures slots == slots[..i] + [slots[i]] + slots[i + 1..]
    ensures
      var s := slots[i];
      var rest := if s.size > len then [Slot(s.start + len, s.size - len, None)] else [];
      Reserve(slots, i, len, id) == slots[..i] + ([Slot(s.start, len, Some(id))] + rest) + slots[i + 1..]
  {
  }

  lemma Pieces(s: Slot, taken: Slot, rest: seq<Slot>)
    requires s.IsFree() && !taken.IsFree() && taken.size <= s.size
    requires rest == [] ==> taken.size == s.size
    requires rest != [] ==> |rest| == 1 && rest[0].IsFree() && rest[0].size == s.size - taken.size
    ensures Owned([s]) == [] && FreeTotal([s]) == s.size
    ensures Owned([taken] + rest) == [taken] && FreeTotal([taken] + rest) == s.size - taken.size
  {
    assert ([taken] + rest)[1..] == rest;
    if rest != [] {
      assert rest[1..] == [];
    }
  }

  // ---- no fragmentation

  lemma {:induction false} SpanLength(slots: seq<Slot>, len: pos)
    requires slots != [] && Contiguous(slots) && Aligned(slots, len)
    ensures FreeTotal(slots) + |Owned(slots)| * len == slots[|slots| - 1].End() - slots[0].start
  {
    var rest := slots[1..];
    assert forall i :: 0 <= i < |rest| ==> rest[i] == slots[i + 1];
    var here := if slots[0].IsFree() then 0 else 1;
    assert |Owned(slots)| == here + |Owned(rest)|;
    assert |Owned(slots)| * len == here * len + |Owned(rest)| * len;
    if rest == [] {
      assert FreeTotal(rest) == 0 && |Owned(rest)| == 0;
    } else {
      assert slots[0].End() == slots[1].start;
      SpanLength(rest, len);
    }
  }

  /** A free slot with a successor holds at least one reservation. */
  lemma InnerSlotFits(slots: seq<Slot>, i: nat, len: pos)
    requires Contiguous(slots) && Aligned(slots, len) && i + 1 < |slots|
    ensures slots[i].size >= len
  {
    var a, b := slots[i].start, slots[i + 1].start;
    assert slots[i].End() == b;
    if b - a < len {
      DivModUnique(b, len, a / len, b - a);
    }
  }

  lemma {:induction false} FreeTotalIsLast(slots: seq<Slot>)
    requires slots != [] && forall i :: 0 <= i < |slots| - 1 ==> !slots[i].IsFree()
    ensures FreeTotal(slots) == if slots[|slots| - 1].IsFree() then slots[|slots| - 1].size else 0
  {
    if |slots| == 1 {
      assert FreeTotal(slots[1..]) == 0;
    } else {
      FreeTotalIsLast(slots[1..]);
    }
  }

  lemma {:induction false} SlotInTotal(slots: seq<Slot>, i: nat)
    requires i < |slots| && slots[i].IsFree()
    ensures FreeTotal(slots) >= slots[i].size
  {
    if i > 0 {
      SlotInTotal(slots[1..], i - 1);
    }
  }

  /** First fit fails exactly when the free tokens are too few altogether:
      uniform reservations never lose a request to fragmentation. */
  lemma FitsExactlyWhenEnoughFree(slots: seq<Slot>, capacity: nat, len: pos)
    requires Sound(slots, capacity, len)
    ensures FirstFit(slots, len) < |slots| <==> FreeTotal(slots) >= len
    ensures FirstFit(slots, len) < |slots| <==> |Owned(slots)| < capacity / len
  {
    var i := FirstFit(slots, len);
    if i < |slots| {
      SlotInTotal(slots, i);
    } else {
      forall j | 0 <= j < |slots| - 1 ensures !slots[j].IsFree() {
        InnerSlotFits(slots, j, len);
      }
      FreeTotalIsLast(slots);
    }
    CapacitySplit(slots, capacity, len);
  }

  lemma CapacitySplit(slots: seq<Slot>, capacity: nat, len: pos)
    requires Sound(slots, capacity, len)
    ensures FreeTotal(slots) == capacity - |Owned(slots)| * len
    ensures FreeTotal(slots) / len == capacity / len - |Owned(slots)|
    ensures FreeTotal(slots) % len == capacity % len
    ensures FreeTotal(slots) >= len <==> |Owned(slots)| < capacity / len
  {
    SpanLength(slots, len);
    SplitQuotient(FreeTotal(slots), |Owned(slots)|, capacity, len);
  }

  lemma SplitQuotient(free: nat, held: nat, capacity: nat, len: pos)
    requires free + held * len == capacity
    ensures free / len == capacity / len - held
    ensures free % len == capacity % len
    ensures free >= len <==> held < capacity / len
  {
    var q, r := free / len, free % len;
    assert (q + held) * len == q * len + held * len;
    DivModUnique(capacity, len, q + held, r);
    if q >= 1 {
      MulAtLeast(q, len);
    }
  }

  function AllocateAll(slots: seq<Slot>, len: nat, ids: seq<string>): seq<Slot>
    decreases |ids|
  {
    if ids == [] then slots else AllocateAll(Allocated(slots, len, ids[0]), len, ids[1..])
  }

  /** However the free space is scattered, it takes exactly FreeTotal / len further
      reservations; only capacity % len tokens can never be used. */
  lemma {:induction false} FreeSpaceIsAllUsable(slots: seq<Slot>, capacity: nat, len: pos, ids: seq<string>)
    requires Sound(slots, capacity, len)
    ensures Sound(AllocateAll(slots, len, ids), capacity, len)
    ensures |Owned(AllocateAll(slots, len, ids))| ==
            |Owned(slots)| + (if |ids| <= FreeTotal(slots) / len then |ids| else FreeTotal(slots) / len)
    decreases |ids|
  {
    hide Sound, FirstFit, Owned, FreeTotal, Allocated;
    CapacitySplit(slots, capacity, len);
    if ids != [] {
      AllocateSound(slots, capacity, len, ids[0]);
      FitsExactlyWhenEnoughFree(slots, capacity, len);
      var next := Allocated(slots, len, ids[0]);
      CapacitySplit(next, capacity, len);
      FreeSpaceIsAllUsable(next, capacity, len, ids[1..]);
    }
  }

  lemma AllocateSound(slots: seq<Slot>, capacity: nat, len: pos, id: string)
    requires Sound(slots, capacity, len)
    ensures Sound(Allocated(slots, len, id), capacity, len)
    ensures |Owned(Allocated(slots, len, id))| == |Owned(slots)| + if FirstFit(slots, len) < |slots| then 1 else 0
  {
    var i := FirstFit(slots, len);
    if i < |slots| {
      ReserveSound(slots, i, len, id, capacity);
      ReserveOwned(slots, i, len, id);
    }
  }

  // ---- round trip

  /** Freeing a reservation just made restores the slots exactly. */
  lemma AllocateThenFree(slots: seq<Slot>, capacity: nat, len: pos, id: string)
    requires Sound(slots, capacity, len)
    requires forall i :: 0 <= i < |slots| ==> slots[i].owner != Some(id)
    ensures Freed(Allocated(slots, len, id), id) == slots
  {
    var i := FirstFit(slots, len);
    if i < |slots| {
      ReserveThenVacate(slots, i, len, id);
      ReserveSound(slots, i, len, id, capacity);
      var v := Vacate(Reserve(slots, i, len, id), id);
      VacateTiles(Reserve(slots, i, len, id), id, capacity, len);
      SortedTiles(v);
      MergeRestores(slots, i, len);
    } else {
      assert Vacate(slots, id) == slots;
      SortedTiles(slots);
      assert [] + slots == slots;
      MergeIdle([], slots);
    }
  }

  /** Slot `i` cut into two free pieces. */
  function Cut(slots: seq<Slot>, i: nat, len: nat): seq<Slot>
    requires i < |slots| && slots[i].size >= len
  {
    var s := slots[i];
    slots[..i] + [Slot(s.start, len, None)]
    + (if s.size > len then [Slot(s.start + len, s.size - len, None)] else []) + slots[i + 1..]
  }

  lemma ReserveThenVacate(slots: seq<Slot>, i: nat, len: nat, id: string)
    requires i < |slots| && slots[i].size >= len
    requires forall j :: 0 <= j < |slots| ==> slots[j].owner != Some(id)
    ensures Vacate(Reserve(slots, i, len, id), id) == Cut(slots, i, len)
  {
  }

  lemma MergeRestores(slots: seq<Slot>, i: nat, len: pos)
    requires NoFreePair(slots) && i < |slots| && slots[i].IsFree() && slots[i].size >= len
    ensures Merge([], Cut(slots, i, len)) == slots
  {
    if slots[i].size > len {
      MergeCut(slots, i, len);
      MergeSame(slots[..i] + [slots[i]], slots[i + 1..], slots);
    } else {
      CutWhole(slots, i, len);
      MergeSame([], slots, slots);
    }
  }

  lemma MergeSame(a: seq<Slot>, b: seq<Slot>, slots: seq<Slot>)
    requires a + b == slots && NoFreePair(slots)
    ensures Merge(a, b) == slots
  {
    MergeIdle(a, b);
  }

  lemma CutWhole(slots: seq<Slot>, i: nat, len: nat)
    requires i < |slots| && slots[i].IsFree() && slots[i].size == len
    ensures Cut(slots, i, len) == slots
  {
  }

  lemma MergeCut(slots: seq<Slot>, i: nat, len: pos)
    requires NoFreePair(slots) && i < |slots| && slots[i].IsFree() && slots[i].size > len
    ensures Merge([], Cut(slots, i, len)) == Merge(slots[..i] + [slots[i]], slots[i + 1..])
  {
    hide NoFreePair;
    var s, front, back := slots[i], slots[..i], slots[i + 1..];
    var head, tail := Slot(s.start, len, None), Slot(s.start + len, s.size - len, None);
    assert Cut(slots, i, len) == (front + [head]) + ([tail] + back);
    NoPairPrefix(slots, i, head);
    assert [] + (front + [head]) == front + [head];
    MergeIdle([], front + [head]);
    MergeSplit([], front + [head], [tail] + back);
    assert ([tail] + back)[1..] == back;
    assert Extend(front + [head], tail) == front + [s];
  }

  lemma NoPairPrefix(slots: seq<Slot>, i: nat, head: Slot)
    requires NoFreePair(slots) && i < |slots| && slots[i].IsFree() && head.IsFree()
    ensures NoFreePair(slots[..i] + [head])
  {
    var p := slots[..i] + [head];
    forall a, b | 0 <= a && b == a + 1 && b < |p| ensures !(p[a].IsFree() && p[b].IsFree()) {
      assert p[a] == slots[a];
      assert p[b].IsFree() ==> slots[b].IsFree();
    }
  }

  // ---- the allocator object

  /** The write to the slot and the insertion after it. */
  lemma TwoWrites(slots: seq<Slot>, i: nat, len: nat, id: string)
    requires i < |slots| && slots[i].size >= len
    ensures
      var s := slots[i];
      var first := slots[i := Slot(s.start, len, Some(id))];
      Reserve(slots, i, len, id) ==
      if s.size > len then first[..i + 1] + [Slot(s.start + len, s.size - len, None)] + first[i + 1..] else first
  {
  }

  lemma FitStep(slots: seq<Slot>, len: nat, i: nat)
    requires i < |slots|
    ensures FirstFit(slots[i..], len)
         == if slots[i].IsFree() && slots[i].size >= len then 0 else 1 + FirstFit(slots[i + 1..], len)
    ensures FirstFit(slots[|slots|..], len) == 0
  {
    assert slots[i..][1..] == slots[i + 1..];
  }

  class ContiguousAllocator {
    const capacity: pos
    const reserveLen: pos
    var slots: seq<Slot>
    var rejections: nat

    ghost predicate Valid()
      reads this
    {
      Sound(slots, capacity, reserveLen)
    }

    constructor (capacity: pos, reserveLen: pos)
      ensures Valid() && this.capacity == capacity && this.reserveLen == reserveLen
      ensures slots == [Slot(0, capacity, None)] && rejections == 0
    {
      this.capacity := capacity;
      this.reserveLen := reserveLen;
      slots := [Slot(0, capacity, None)];
      rejections := 0;
    }

    /** First fit; refuses only when the free tokens are too few in total. */
    method Allocate(id: string) returns (start: Option<nat>)
      requires Valid()
      modifies this
      ensures Valid()
      ensures slots == Allocated(old(slots), reserveLen, id)
      ensures start.Some? <==> FreeTotal(old(slots)) >= reserveLen
      ensures start.Some? ==>
                Slot(start.value, reserveLen, Some(id)) in Owned(slots) && rejections == old(rejections)
      ensures start.Some? ==> exists i ::
                && 0 <= i < |old(slots)| && old(slots)[i].IsFree() && old(slots)[i].size >= reserveLen
                && old(slots)[i].start == start.value
                && (forall j :: 0 <= j < i ==> !(old(slots)[j].IsFree() && old(slots)[j].size >= reserveLen))
                && Owned(slots) == Owned(old(slots)[..i]) + [Slot(start.value, reserveLen, Some(id))]
                                   + Owned(old(slots)[i + 1..])
      ensures start.None? ==> slots == old(slots) && rejections == old(rejections) + 1
    {
      hide Sound, FreeTotal, Owned, Reserve, FirstFit;
      assert slots[0..] == slots && slots[|slots|..] == [];
      AllocateSound(slots, capacity, reserveLen, id);
      FitsExactlyWhenEnoughFree(slots, capacity, reserveLen);
      var i := 0;
      while i < |slots|
        invariant i <= |slots| && slots == old(slots) && rejections == old(rejections)
        invariant FirstFit(slots, reserveLen) == i + FirstFit(slots[i..], reserveLen)
        invariant forall j :: 0 <= j < i ==> !(slots[j].IsFree() && slots[j].size >= reserveLen)
      {
        var s := slots[i];
        FitStep(slots, reserveLen, i);
        if s.owner == None && s.size >= reserveLen {
          ReserveOwned(slots, i, reserveLen, id);
          TwoWrites(slots, i, reserveLen, id);
          slots := slots[i := Slot(s.start, reserveLen, Some(id))];
          if s.size > reserveLen {
            slots := slots[..i + 1] + [Slot(s.start + reserveLen, s.size - reserveLen, None)] + slots[i + 1..];
          }
          return Some(s.start);
        }
        i := i + 1;
      }
      rejections := rejections + 1;
      return None;
    }

    method FreeOwner(id: string)
      requires Valid()
      modifies this
      ensures Valid() && rejections == old(rejections)
      ensures slots == Freed(old(slots), id)
      ensures Owned(slots) == Others(Owned(old(slots)), id)
    {
      FreeSound(slots, id, capacity, reserveLen);
      VacateTiles(slots, id, capacity, reserveLen);
      var i := 0;
      while i < |slots|
        invariant i <= |slots| == |old(slots)| && rejections == old(rejections)
        invariant forall j :: 0 <= j < i ==> slots[j] == Vacated(old(slots)[j], id)
        invariant forall j :: i <= j < |slots| ==> slots[j] == old(slots)[j]
      {
        if slots[i].owner == Some(id) {
          slots := slots[i := slots[i].(owner := None)];
        }
        i := i + 1;
      }
      assert slots == Vacate(old(slots), id);
      Coalesce();
    }

    method Coalesce()
      modifies this
      ensures slots == Coalesced(old(slots)) && rejections == old(rejections)
    {
      var merged: seq<Slot> := [];
      var sorted := Sorted(slots);
      assert sorted[0..] == sorted;
      for i := 0 to |sorted|
        invariant Merge(merged, sorted[i..]) == Merge([], sorted)
        invariant slots == old(slots) && rejections == old(rejections)
      {
        var s := sorted[i];
        assert sorted[i..][0] == s && sorted[i..][1..] == sorted[i + 1..];
        ghost var next := Extend(merged, s);
        if merged != [] && merged[|merged| - 1].IsFree() && s.IsFree() && merged[|merged| - 1].End() == s.start {
          var last := merged[|merged| - 1];
          merged := merged[|merged| - 1 := Slot(last.start, last.size + s.size, None)];
        } else {
          merged := merged + [s];
        }
        assert merged == next;
      }
      slots := merged;
    }
  }

  // ---- whole runs

  datatype Request = Take(id: string) | Give(id: string)

  function Serve(slots: seq<Slot>, len: nat, reqs: seq<Request>): seq<Slot>
    decreases |reqs|
  {
    if reqs == [] then slots
    else Serve(match reqs[0]
               case Take(id) => Allocated(slots, len, id)
               case Give(id) => Freed(slots, id), len, reqs[1..])
  }

  /** After any history a reservation is refused exactly when as many are held as
      the memory can hold at all. */
  lemma {:induction false} EveryRun(slots: seq<Slot>, capacity: nat, len: pos, reqs: seq<Request>)
    requires Sound(slots, capacity, len)
    ensures Sound(Serve(slots, len, reqs), capacity, len)
    ensures FirstFit(Serve(slots, len, reqs), len) == |Serve(slots, len, reqs)|
       <==> |Owned(Serve(slots, len, reqs))| == capacity / len
    decreases |reqs|
  {
    hide Sound, FirstFit, Owned, FreeTotal, Allocated, Freed;
    if reqs == [] {
      FitsExactlyWhenEnoughFree(slots, capacity, len);
      CapacitySplit(slots, capacity, len);
    } else {
      match reqs[0]
      case Take(id) =>
        AllocateSound(slots, capacity, len, id);
        EveryRun(Allocated(slots, len, id), capacity, len, reqs[1..]);
      case Give(id) =>
        FreeSound(slots, id, capacity, len);
        EveryRun(Freed(slots, id), capacity, len, reqs[1..]);
    }
  }

  lemma ServeCons(slots: seq<Slot>, len: nat, a: Request, rest: seq<Request>)
    ensures Serve(slots, len, [a] + rest) == Serve(Serve(slots, len, [a]), len, rest)
  {
    hide Allocated, Freed;
    assert ([a] + rest)[1..] == rest && [a][1..] == [];
  }

  /** The first slot that fits is taken. */
  lemma TakeServed(slots: seq<Slot>, len: nat, id: string, i: nat)
    requires i < |slots| && slots[i].IsFree() && slots[i].size >= len
    requires forall j :: 0 <= j < i ==> !(slots[j].IsFree() && slots[j].size >= len)
    ensures FirstFit(slots, len) == i && Serve(slots, len, [Take(id)]) == Reserve(slots, i, len, id)
  {
    hide FirstFit, Reserve;
    assert [Take(id)][1..] == [];
    assert Serve(slots, len, [Take(id)]) == Serve(Allocated(slots, len, id), len, []);
  }

  lemma GiveServed(slots: seq<Slot>, len: nat, id: string, after: seq<Slot>)
    requires Vacate(slots, id) == after && Contiguous(after) && NoFreePair(after)
    ensures Serve(slots, len, [Give(id)]) == after
  {
    hide Vacate, Sorted, Merge, Contiguous, NoFreePair;
    assert [Give(id)][1..] == [] && [] + after == after;
    SortedTiles(after);
    MergeIdle([], after);
    assert Serve(slots, len, [Give(id)]) == Serve(Freed(slots, id), len, []);
  }

  /** Three slots of one token: the middle one is held, the first by `a` or nobody. */
  function Scattered(a: Option<string>): seq<Slot> {
    [Slot(0, 1, a), Slot(1, 1, Some("b")), Slot(2, 1, None)]
  }

  lemma ScatteredTakes()
    ensures
      var one := Serve([Slot(0, 3, None)], 1, [Take("a")]);
      one == [Slot(0, 1, Some("a")), Slot(1, 2, None)] && Serve(one, 1, [Take("b")]) == Scattered(Some("a"))
  {
    hide Serve, FirstFit;
    var whole, one := [Slot(0, 3, None)], [Slot(0, 1, Some("a")), Slot(1, 2, None)];
    TakeServed(whole, 1, "a", 0);
    assert Reserve(whole, 0, 1, "a") == one;
    TakeServed(one, 1, "b", 1);
    assert Reserve(one, 1, 1, "b") == Scattered(Some("a"));
  }

  lemma ScatteredGives()
    ensures Serve(Scattered(Some("a")), 1, [Give("a")]) == Scattered(None)
  {
    hide Serve, Vacate;
    assert Vacate(Scattered(Some("a")), "a") == Scattered(None);
    GiveServed(Scattered(Some("a")), 1, "a", Scattered(None));
  }

  lemma ScatteredRun()
    ensures Serve([Slot(0, 3, None)], 1, [Take("a"), Take("b"), Give("a")]) == Scattered(None)
  {
    hide Serve, Scattered;
    var whole, one := [Slot(0, 3, None)], Serve([Slot(0, 3, None)], 1, [Take("a")]);
    ScatteredTakes();
    ScatteredGives();
    ServeCons(whole, 1, Take("a"), [Take("b"), Give("a")]);
    ServeCons(one, 1, Take("b"), [Give("a")]);
    assert [Take("b")] + [Give("a")] == [Take("b"), Give("a")];
    assert [Take("a")] + [Take("b"), Give("a")] == [Take("a"), Take("b"), Give("a")];
  }

  lemma ScatteredFree()
    ensures FreeTotal(Scattered(None)) == 2
  {
    assert Scattered(None)[1..] == [Slot(1, 1, Some("b")), Slot(2, 1, None)];
    assert Scattered(None)[1..][1..] == [Slot(2, 1, None)] && [Slot(2, 1, None)][1..] == [];
    assert FreeTotal([Slot(2, 1, None)]) == 1 && FreeTotal([Slot(1, 1, Some("b")), Slot(2, 1, None)]) == 1;
  }

  /** Three calls on a memory of three tokens, reserved one at a time, scatter it: two
      tokens are free and no free run is longer than one. The gap between the two is
      reported as externally wasted, yet two further reservations succeed. */
  lemma ReportedWasteIsUsable()
    ensures
      var slots := Serve([Slot(0, 3, None)], 1, [Take("a"), Take("b"), Give("a")]);
      && FreeTotal(slots) == 2 && (forall i :: 0 <= i < |slots| && slots[i].IsFree() ==> slots[i].size <= 1)
      && FirstFit(slots, 1) < |slots|
      && FirstFit(Serve(slots, 1, [Take("c")]), 1) < |Serve(slots, 1, [Take("c")])|
  {
    hide Serve, FirstFit, FreeTotal;
    ScatteredRun();
    ScatteredFree();
    TakeServed(Scattered(None), 1, "c", 0);
    assert Reserve(Scattered(None), 0, 1, "c") == Scattered(Some("c"));
    TakeServed(Scattered(Some("c")), 1, "d", 2);
  }
}
