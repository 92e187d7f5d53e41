/** The clamped room-count counters behind the +/- buttons: one counter per room type,
    never below zero. The cart keeps one such object per cart item; the request dialog
    keeps one. */
module RoomCounts {
  import opened Common
  import opened Records

  type Counts = Record<int>

  /** The count shown for a room type: `counts[room] || 0`. */
  function CountOf(counts: Counts, room: string): int {
    Get(counts, room).GetOr(0)
  }

  predicate NonNegative(counts: Counts) {
    forall i :: 0 <= i < |counts| ==> counts[i].1 >= 0
  }

  /** `{...counts, [room]: Math.max(0, (counts[room] || 0) + change)}`. */
  function Bump(counts: Counts, room: string, change: int): (r: Counts)
    ensures CountOf(r, room) == Max(0, CountOf(counts, room) + change)
    ensures forall other :: other != room ==> Get(r, other) == Get(counts, other)
  {
    Put(counts, room, Max(0, CountOf(counts, room) + change))
  }

  /** A counter never goes below zero: non-negative counts stay non-negative whatever
      the change, and a new room type starts from 0. */
  lemma BumpNonNegative(counts: Counts, room: string, change: int)
    requires NonNegative(counts)
    ensures NonNegative(Bump(counts, room, change))
  {
    PutEntries(counts, room, Max(0, CountOf(counts, room) + change));
  }

  /** Bumping keeps the room-type order; a new room type is appended. */
  lemma BumpKeys(counts: Counts, room: string, change: int)
    ensures Keys(Bump(counts, room, change)) ==
            if room in Keys(counts) then Keys(counts) else Keys(counts) + [room]
  {
    PutKeys(counts, room, Max(0, CountOf(counts, room) + change));
  }

  /** From a non-negative count, +1 then -1 restores the count, and -1 at zero stays 0. */
  lemma BumpUpDown(counts: Counts, room: string)
    requires CountOf(counts, room) >= 0
    ensures CountOf(Bump(Bump(counts, room, 1), room, -1), room) == CountOf(counts, room)
    ensures CountOf(counts, room) == 0 ==> CountOf(Bump(counts, room, -1), room) == 0
  {
  }
}
