/** The slots a tool frame keeps: bounded, the empty ones dropped, sorted, and the first twelve of them. */
module ToolSlots {
  import opened Text

  const MAX_SLOT_KEY := 48
  const MAX_SLOT_VALUE := 256
  const MAX_SLOTS := 12

  type Slot = (string, string)

  /** By key, then by value. */
  predicate SlotAtMost(a: Slot, b: Slot) {
    if a.0 == b.0 then AtMost(a.1, b.1) else AtMost(a.0, b.0)
  }

  lemma SlotOrder(a: Slot, b: Slot, c: Slot)
    ensures SlotAtMost(a, b) || SlotAtMost(b, a)
    ensures SlotAtMost(a, b) && SlotAtMost(b, c) ==> SlotAtMost(a, c)
  {
    AtMostIsOrder(a.0, b.0);
    AtMostIsOrder(a.1, b.1);
    AtMostIsOrder(b.0, c.0);
    if AtMost(a.0, b.0) && AtMost(b.0, c.0) {
      AtMostIsTransitive(a.0, b.0, c.0);
      AtMostIsOrder(a.0, c.0);
    }
    if AtMost(a.1, b.1) && AtMost(b.1, c.1) {
      AtMostIsTransitive(a.1, b.1, c.1);
    }
  }

  ghost predicate IsSorted(slots: seq<Slot>) {
    forall i, j | 0 <= i < j < |slots| :: SlotAtMost(slots[i], slots[j])
  }

  function Insert(slot: Slot, sorted: seq<Slot>): (r: seq<Slot>)
    ensures multiset(r) == multiset{slot} + multiset(sorted)
  {
    if sorted == [] || SlotAtMost(slot, sorted[0]) then [slot] + sorted
    else
      assert sorted == [sorted[0]] + sorted[1..];
      [sorted[0]] + Insert(slot, sorted[1..])
  }

  function Sort(slots: seq<Slot>): (r: seq<Slot>)
    ensures multiset(r) == multiset(slots)
  {
    if slots == [] then []
    else
      assert slots == slots[..|slots| - 1] + [slots[|slots| - 1]];
      Insert(slots[|slots| - 1], Sort(slots[..|slots| - 1]))
  }

  lemma {:induction false} InsertedIsSorted(slot: Slot, sorted: seq<Slot>)
    requires IsSorted(sorted)
    ensures IsSorted(Insert(slot, sorted))
  {
    if sorted == [] {
    } else if SlotAtMost(slot, sorted[0]) {
      forall j | 0 <= j < |sorted| ensures SlotAtMost(slot, sorted[j]) {
        SlotOrder(slot, sorted[0], sorted[j]);
      }
    } else {
      var rest := Insert(slot, sorted[1..]);
      InsertedIsSorted(slot, sorted[1..]);
      SlotOrder(slot, sorted[0], sorted[0]);
      forall j | 0 <= j < |rest| ensures SlotAtMost(sorted[0], rest[j]) {
        assert rest[j] in multiset(rest);
        assert rest[j] == slot || rest[j] in sorted[1..];
      }
    }
  }

  lemma {:induction false} SortIsSorted(slots: seq<Slot>)
    ensures IsSorted(Sort(slots))
  {
    if slots != [] {
      SortIsSorted(slots[..|slots| - 1]);
      InsertedIsSorted(slots[|slots| - 1], Sort(slots[..|slots| - 1]));
    }
  }

  /** The slots with both parts bounded, without those of which a part is empty then. */
  function Usable(lex: Lexicon, slots: seq<Slot>): (r: seq<Slot>)
    ensures forall slot | slot in r ::
              0 < |slot.0| <= MAX_SLOT_KEY && 0 < |slot.1| <= MAX_SLOT_VALUE
  {
    if slots == [] then []
    else
      var last := slots[|slots| - 1];
      var key, value := Bounded(lex.isSpace, last.0, MAX_SLOT_KEY), Bounded(lex.isSpace, last.1, MAX_SLOT_VALUE);
      Usable(lex, slots[..|slots| - 1]) + if key == "" || value == "" then [] else [(key, value)]
  }

  /** A slot is usable exactly when it is a given one whose parts are not empty once they are bounded. */
  lemma {:induction false} UsableExactlyWhen(lex: Lexicon, slots: seq<Slot>, slot: Slot)
    ensures slot in Usable(lex, slots) <==>
            && slot.0 != "" && slot.1 != ""
            && exists i :: 0 <= i < |slots| && slot.0 == Bounded(lex.isSpace, slots[i].0, MAX_SLOT_KEY)
                           && slot.1 == Bounded(lex.isSpace, slots[i].1, MAX_SLOT_VALUE)
  {
    hide Bounded;
    if slots != [] {
      var front := slots[..|slots| - 1];
      UsableExactlyWhen(lex, front, slot);
      assert forall i | 0 <= i < |front| :: slots[i] == front[i];
    }
  }

  function KeptSlots(lex: Lexicon, slots: seq<Slot>): seq<Slot> {
    var sorted := Sort(Usable(lex, slots));
    if |sorted| <= MAX_SLOTS then sorted else sorted[..MAX_SLOTS]
  }

  /** The first of a sorted list are the least of it. */
  lemma FirstAreLeast(sorted: seq<Slot>, n: nat)
    requires IsSorted(sorted) && n <= |sorted|
    ensures IsSorted(sorted[..n]) && multiset(sorted) == multiset(sorted[..n]) + multiset(sorted[n..])
    ensures forall slot, left | slot in sorted[..n] && left in sorted[n..] :: SlotAtMost(slot, left)
  {
    hide SlotAtMost;
    assert sorted == sorted[..n] + sorted[n..];
    forall slot, left | slot in sorted[..n] && left in sorted[n..] ensures SlotAtMost(slot, left) {
      var i :| 0 <= i < n && sorted[i] == slot;
      var j :| n <= j < |sorted| && sorted[j] == left;
    }
  }

  /** The slots kept are the least of the usable ones, in order, as many as fit. */
  lemma {:induction false} KeptSlotsAreLeast(lex: Lexicon, slots: seq<Slot>)
    ensures var usable, kept := Usable(lex, slots), KeptSlots(lex, slots);
      && IsSorted(kept) && multiset(kept) <= multiset(usable)
      && |kept| == (if |usable| <= MAX_SLOTS then |usable| else MAX_SLOTS)
      && forall slot, left | slot in kept && left in multiset(usable) - multiset(kept) :: SlotAtMost(slot, left)
  {
    hide Usable, Sort, IsSorted, SlotAtMost;
    var usable := Usable(lex, slots);
    var sorted := Sort(usable);
    SortIsSorted(usable);
    assert |sorted| == |multiset(sorted)| == |usable|;
    FirstAreLeast(sorted, |KeptSlots(lex, slots)|);
  }
}
