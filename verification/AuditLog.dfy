/** The audit log of `access_control`: a ring of 500 slots that stands for an unbounded log. */
module AuditLog {
  import opened Chain

  const CAPACITY: nat := 500
  const MAX_PAGE: nat := 50

  datatype Entry = Entry(sequence: nat, timestamp: nat, actor: Address, action: nat)

  // ── Specification ────────────────────────────────────────────────────────────

  function Min(a: nat, b: nat): nat { if a < b then a else b }

  /** The newest entries still retained, newest first. */
  function Retained(log: seq<Entry>): (r: seq<Entry>)
    ensures |r| == Min(|log|, CAPACITY)
  {
    seq(Min(|log|, CAPACITY), i requires 0 <= i < Min(|log|, CAPACITY) => log[|log| - 1 - i])
  }

  function PageSize(requested: nat): nat {
    if requested < 1 then 1 else Min(requested, MAX_PAGE)
  }

  function Page(log: seq<Entry>, page: nat, size: nat): seq<Entry> {
    var stored := |Retained(log)|;
    Retained(log)[Min(page * size, stored)..Min(page * size + size, stored)]
  }

  function Pages(log: seq<Entry>, count: nat, size: nat): seq<Entry> {
    if count == 0 then [] else Pages(log, count - 1, size) + Page(log, count - 1, size)
  }

  /** Reading pages in order gives the retained log from its newest entry on: no gap, no repeat. */
  lemma {:induction false} PagesConcatenate(log: seq<Entry>, count: nat, size: nat)
    requires size >= 1
    ensures Pages(log, count, size) == Retained(log)[..Min(count * size, |Retained(log)|)]
    ensures count * size >= |Retained(log)| ==> Pages(log, count, size) == Retained(log)
  {
    if count > 0 {
      PagesConcatenate(log, count - 1, size);
      assert count * size == (count - 1) * size + size;
    }
  }

  /** An appended entry becomes the newest one and pushes out the oldest of a full ring. */
  lemma AppendRetained(log: seq<Entry>, e: Entry)
    ensures Retained(log + [e]) == [e] + Retained(log)[..Min(|log|, CAPACITY - 1)]
  {
  }

  /** The slot arithmetic of the two implementations: walking back `offset` slots from the head reaches
      the slot of the entry `offset` places before the newest, and two retained entries share no slot. */
  lemma SlotOfOffset(total: nat, offset: nat)
    requires offset < Min(total, CAPACITY)
    ensures (total % CAPACITY + CAPACITY - 1 - offset) % CAPACITY == (total - 1 - offset) % CAPACITY
  {
    var q := total / CAPACITY;
    assert total == q * CAPACITY + total % CAPACITY;
    assert (total % CAPACITY + CAPACITY - 1 - offset) == (total - 1 - offset) + (1 - q) * CAPACITY;
  }

  // ── The ring ─────────────────────────────────────────────────────────────────

  class AuditRing {
    var entries: map<nat, Entry>
    var head: nat
    var total: nat

    /** Everything ever appended. */
    ghost var log: seq<Entry>

    ghost predicate Valid()
      reads this
    {
      && total == |log|
      && head == total % CAPACITY
      && (forall slot: nat :: slot in entries <==> slot < Min(total, CAPACITY))
      && (forall i :: 0 <= i < |log| ==> log[i].sequence == i)
      && (forall i :: 0 <= total - CAPACITY <= i < total || 0 <= i < total <= CAPACITY ==>
        i % CAPACITY in entries && entries[i % CAPACITY] == log[i])
    }

    constructor ()
      ensures Valid() && log == []
    {
      entries, head, total, log := map[], 0, 0, [];
    }

    method Append(actor: Address, action: nat, now: nat)
      requires Valid()
      modifies this
      ensures Valid() && log == old(log) + [Entry(|old(log)|, now, actor, action)]
    {
      var entry := Entry(total, now, actor, action);
      entries := entries[head := entry];
      head := (head + 1) % CAPACITY;
      total := total + 1;
      log := log + [entry];
      forall i | 0 <= total - CAPACITY <= i < total || 0 <= i < total <= CAPACITY
        ensures i % CAPACITY in entries && entries[i % CAPACITY] == log[i]
      {
        if i < total - 1 {
          DistinctSlots(i, total - 1);
        }
      }
    }

    lemma SlotHolds(offset: nat)
      requires Valid() && offset < Min(total, CAPACITY)
      ensures var slot := (head + CAPACITY - 1 - offset) % CAPACITY;
        slot in entries && entries[slot] == Retained(log)[offset]
    {
      SlotOfOffset(total, offset);
      assert log[total - 1 - offset] == Retained(log)[offset];
    }

    method GetAuditLog(page: nat, requested: nat) returns (results: seq<Entry>)
      requires Valid() && page <= U32_MAX
      ensures results == Page(log, page, PageSize(requested))
    {
      var size := PageSize(requested);
      var stored := Min(total, CAPACITY);
      var skip := page * size; // at most 50 * (2^32 - 1): the saturating product is exact
      results := [];
      var i := 0;
      while i < size
        invariant 0 <= i <= size
        invariant results == Retained(log)[Min(skip, stored)..Min(skip + i, stored)]
      {
        var offset := skip + i;
        if offset >= stored { break; }
        SlotHolds(offset);
        var slot := (head + CAPACITY - 1 - offset) % CAPACITY;
        if slot in entries {
          results := results + [entries[slot]];
        }
        i := i + 1;
      }
    }
  }

  lemma DistinctSlots(i: nat, j: nat)
    requires i < j < i + CAPACITY
    ensures i % CAPACITY != j % CAPACITY
  {
    assert i == i / CAPACITY * CAPACITY + i % CAPACITY;
    assert j == j / CAPACITY * CAPACITY + j % CAPACITY;
  }
}
