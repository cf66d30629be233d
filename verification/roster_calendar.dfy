/** The roster calendar's shift change: the upsert of the roster entry of one
    (user, date) slot, refused when that slot is locked. It builds a new roster
    and leaves the old one as it was. */
module RosterCalendar {
  import opened Wrappers
  import opened Seqs

  datatype RosterEntry = RosterEntry(id: string, userId: string, date: string, shiftId: string, isLocked: bool)

  function AtSlot(userId: string, date: string): RosterEntry -> bool {
    (e: RosterEntry) => e.userId == userId && e.date == date
  }

  function OutsideSlot(userId: string, date: string): RosterEntry -> bool {
    (e: RosterEntry) => !(e.userId == userId && e.date == date)
  }

  /** The first entry of the slot is locked. */
  predicate SlotLocked(roster: seq<RosterEntry>, userId: string, date: string): (locked: bool)
    ensures locked ==> exists i :: 0 <= i < |roster| && AtSlot(userId, date)(roster[i]) && roster[i].isLocked
  {
    var existing := FirstIndex(roster, AtSlot(userId, date));
    existing.Some? && roster[existing.value].isLocked
  }

  /** The lock consulted is that of the slot's first entry, and only that one. */
  lemma SlotLockedAtFirst(roster: seq<RosterEntry>, userId: string, date: string, i: nat)
    requires i < |roster| && AtSlot(userId, date)(roster[i])
    requires forall j :: 0 <= j < i ==> !AtSlot(userId, date)(roster[j])
    ensures SlotLocked(roster, userId, date) <==> roster[i].isLocked
  {
    FirstIndexAt(roster, AtSlot(userId, date), i);
  }

  /** The entry a shift change writes: it keeps the id of the slot's first
      entry, or takes `freshId` (the clock-derived id) when the slot is empty. */
  function NewEntry(roster: seq<RosterEntry>, userId: string, date: string, shiftId: string, freshId: string): (e: RosterEntry)
    ensures AtSlot(userId, date)(e) && e.shiftId == shiftId && !e.isLocked
  {
    var existing := FirstIndex(roster, AtSlot(userId, date));
    RosterEntry(if existing.Some? then roster[existing.value].id else freshId, userId, date, shiftId, false)
  }

  /** The roster after a shift change: unchanged when the slot is locked;
      otherwise every entry of the slot is dropped and the new one appended. */
  function HandleShiftChange(roster: seq<RosterEntry>, userId: string, date: string, shiftId: string, freshId: string)
    : (r: seq<RosterEntry>)
    ensures SlotLocked(roster, userId, date) ==> r == roster
    ensures !SlotLocked(roster, userId, date) ==> |r| > 0 && r[|r| - 1] == NewEntry(roster, userId, date, shiftId, freshId)
  {
    if SlotLocked(roster, userId, date) then roster
    else Filter(roster, OutsideSlot(userId, date)) + [NewEntry(roster, userId, date, shiftId, freshId)]
  }

  /** After an accepted change the slot holds exactly one entry, the new one:
      every earlier entry of the slot, duplicates included, is gone. */
  lemma SlotHoldsOneEntry(roster: seq<RosterEntry>, userId: string, date: string, shiftId: string, freshId: string)
    requires !SlotLocked(roster, userId, date)
    ensures Filter(HandleShiftChange(roster, userId, date, shiftId, freshId), AtSlot(userId, date))
         == [NewEntry(roster, userId, date, shiftId, freshId)]
  {
    var kept := Filter(roster, OutsideSlot(userId, date));
    var e := NewEntry(roster, userId, date, shiftId, freshId);
    FilterAppend(kept, [e], AtSlot(userId, date));
    assert forall j :: 0 <= j < |kept| ==> !AtSlot(userId, date)(kept[j]) by {
      forall j | 0 <= j < |kept| ensures !AtSlot(userId, date)(kept[j]) {
        assert kept[j] in kept;
      }
    }
    FilterDropsAll(kept, AtSlot(userId, date));
  }

  /** The entries of every other slot are kept, in their original order. */
  lemma OtherSlotsKept(roster: seq<RosterEntry>, userId: string, date: string, shiftId: string, freshId: string)
    ensures Filter(HandleShiftChange(roster, userId, date, shiftId, freshId), OutsideSlot(userId, date))
         == Filter(roster, OutsideSlot(userId, date))
  {
    if !SlotLocked(roster, userId, date) {
      var kept := Filter(roster, OutsideSlot(userId, date));
      var e := NewEntry(roster, userId, date, shiftId, freshId);
      FilterAppend(kept, [e], OutsideSlot(userId, date));
      assert forall j :: 0 <= j < |kept| ==> OutsideSlot(userId, date)(kept[j]) by {
        forall j | 0 <= j < |kept| ensures OutsideSlot(userId, date)(kept[j]) {
          assert kept[j] in kept;
        }
      }
      FilterKeepsAll(kept, OutsideSlot(userId, date));
    }
  }

  /** The written entry keeps the id of the slot's first entry when there was one. */
  lemma KeepsExistingId(roster: seq<RosterEntry>, userId: string, date: string, shiftId: string, freshId: string)
    requires !SlotLocked(roster, userId, date)
    ensures var existing := FirstIndex(roster, AtSlot(userId, date));
      var r := HandleShiftChange(roster, userId, date, shiftId, freshId);
      r[|r| - 1].id == if existing.Some? then roster[existing.value].id else freshId
  {
  }

  /** Each slot of the roster has exactly one entry. */
  ghost predicate SlotsUnique(roster: seq<RosterEntry>) {
    forall e :: e in roster ==> |Filter(roster, AtSlot(e.userId, e.date))| == 1
  }

  /** A shift change keeps a roster with one entry per slot that way. */
  lemma ShiftChangeKeepsSlotsUnique(roster: seq<RosterEntry>, userId: string, date: string, shiftId: string, freshId: string)
    requires SlotsUnique(roster)
    ensures SlotsUnique(HandleShiftChange(roster, userId, date, shiftId, freshId))
  {
    if !SlotLocked(roster, userId, date) {
      var r := HandleShiftChange(roster, userId, date, shiftId, freshId);
      var kept := Filter(roster, OutsideSlot(userId, date));
      var e := NewEntry(roster, userId, date, shiftId, freshId);
      forall x | x in r
        ensures |Filter(r, AtSlot(x.userId, x.date))| == 1
      {
        if x.userId == userId && x.date == date {
          SlotHoldsOneEntry(roster, userId, date, shiftId, freshId);
        } else {
          var q := AtSlot(x.userId, x.date);
          FilterAppend(kept, [e], q);
          assert Filter([e], q) == [];
          assert forall y :: q(y) ==> OutsideSlot(userId, date)(y);
          FilterNarrow(roster, OutsideSlot(userId, date), q);
          assert x in roster;
        }
      }
    }
  }

  /** Only the slot's first entry is consulted for the lock: a locked later
      duplicate is dropped with the others. */
  lemma LockedDuplicateDropped()
    ensures var roster := [RosterEntry("a", "u", "d", "s1", false), RosterEntry("b", "u", "d", "s2", true)];
      HandleShiftChange(roster, "u", "d", "s3", "n") == [RosterEntry("a", "u", "d", "s3", false)]
  {
    var roster := [RosterEntry("a", "u", "d", "s1", false), RosterEntry("b", "u", "d", "s2", true)];
    assert FirstIndex(roster, AtSlot("u", "d")) == Some(0);
    assert roster[1..][1..] == [];
    assert Filter(roster, OutsideSlot("u", "d")) == [];
  }
}
