/**
 Session records (session.rs, session-cipher.js): which entry is current, archiving with
 its bound, and the merge of a freshly built entry into an old record.
 */
module Records {
  import opened Outcomes
  import opened Keys
  import Chains
  import opened Ratchet

  const MAX_ARCHIVED: nat := 40

  datatype Index = Index(baseKey: Id, closed: int, used: int)
  datatype Entry = Entry(index: Index, state: EntryState)
  {
    predicate IsOpen() { index.closed == -1 }
  }

  type Record = map<Id, Entry>

  predicate NoRepeats(ids: seq<Id>) {
    forall i, j :: 0 <= i < j < |ids| ==> ids[i] != ids[j]
  }

  /** An order in which a record's entries are walked. */
  predicate Lists(ids: seq<Id>, r: Record) {
    NoRepeats(ids) && (forall id :: id in r ==> id in ids) && (forall id :: id in ids ==> id in r)
  }

  /** Object.keys, and BTreeMap iteration: some order of the keys. */
  datatype Platform = Platform(order: Record -> seq<Id>)
  {
    ghost predicate Faithful() {
      forall r :: Lists(order(r), r)
    }
  }

  // ---- the current entry ----

  /** Open before archived, then by last use. */
  predicate AtLeast(a: Entry, b: Entry) {
    (a.IsOpen() && !b.IsOpen()) || (a.IsOpen() == b.IsOpen() && a.index.used >= b.index.used)
  }

  predicate IsBest(r: Record, id: Id) {
    id in r && forall x :: x in r ==> AtLeast(r[id], r[x])
  }

  /** ids[k] is the best of those walked, and those walked after it fall short of it. */
  ghost predicate LastOfEquals(r: Record, ids: seq<Id>, k: nat)
    requires k < |ids| && forall j :: 0 <= j < |ids| ==> ids[j] in r
  {
    && (forall j :: 0 <= j < |ids| ==> AtLeast(r[ids[k]], r[ids[j]]))
    && (forall j :: k < j < |ids| ==> !AtLeast(r[ids[j]], r[ids[k]]))
  }

  /** ids[k] is the best of those walked, and those walked before it fall short of it. */
  ghost predicate FirstOfEquals(r: Record, ids: seq<Id>, k: nat)
    requires k < |ids| && forall j :: 0 <= j < |ids| ==> ids[j] in r
  {
    && (forall j :: 0 <= j < |ids| ==> AtLeast(r[ids[k]], r[ids[j]]))
    && (forall j :: 0 <= j < k ==> !AtLeast(r[ids[j]], r[ids[k]]))
  }

  /** max_by_key: of equals, the last one walked. */
  function Best(r: Record, ids: seq<Id>): (best: Option<Id>)
    requires forall id :: id in ids ==> id in r
    ensures best.Some? <==> ids != []
    ensures best.Some? ==> best.value in ids && forall id :: id in ids ==> AtLeast(r[best.value], r[id])
  {
    if ids == [] then None
    else
      var rest, last := ids[..|ids| - 1], ids[|ids| - 1];
      assert ids == rest + [last];
      match Best(r, rest)
      case None => Some(last)
      case Some(b) => if AtLeast(r[last], r[b]) then Some(last) else Some(b)
  }

  /** iter().max_by_key(..). */
  method WalkBest(r: Record, ids: seq<Id>) returns (best: Option<Id>, ghost k: nat)
    requires forall j :: 0 <= j < |ids| ==> ids[j] in r
    ensures best == Best(r, ids)
    ensures ids != [] ==> k < |ids| && best == Some(ids[k]) && LastOfEquals(r, ids, k)
  {
    best, k := None, 0;
    for i := 0 to |ids|
      invariant best == Best(r, ids[..i])
      invariant best.None? <==> i == 0
      invariant i > 0 ==> k < i && best == Some(ids[k])
      invariant i > 0 ==> forall j :: 0 <= j < i ==> AtLeast(r[ids[k]], r[ids[j]])
      invariant i > 0 ==> forall j :: k < j < i ==> !AtLeast(r[ids[j]], r[ids[k]])
    {
      BestPush(r, ids[..i], ids[i]);
      assert ids[..i + 1] == ids[..i] + [ids[i]];
      if best.None? || AtLeast(r[ids[i]], r[best.value]) {
        best, k := Some(ids[i]), i;
      }
    }
    assert ids[..|ids|] == ids;
  }

  lemma BestPush(r: Record, ids: seq<Id>, id: Id)
    requires id in r && forall x :: x in ids ==> x in r
    ensures forall x :: x in ids + [id] ==> x in r
    ensures Best(r, ids).None? ==> Best(r, ids + [id]) == Some(id)
    ensures Best(r, ids).Some? ==>
              Best(r, ids + [id]) == Some(if AtLeast(r[id], r[Best(r, ids).value]) then id else Best(r, ids).value)
  {
    assert (ids + [id])[..|ids|] == ids;
  }

  /** current_session_mut: none of an empty record, the only one of a single entry, the best
      otherwise. */
  method CurrentSession(r: Record, p: Platform) returns (best: Option<Id>)
    requires p.Faithful()
    ensures best == Current(r, p)
    ensures best.None? <==> r == map[]
    ensures best.Some? ==> IsBest(r, best.value)
    ensures best.Some? ==> Lists(p.order(r), r) && exists k: nat :: k < |p.order(r)| && best == Some(p.order(r)[k])
                                                                    && LastOfEquals(r, p.order(r), k)
  {
    CurrentIsBest(r, p);
    var ids := p.order(r);
    assert Lists(ids, r);
    if |r| == 0 {
      return None;
    }
    ghost var k;
    best, k := WalkBest(r, ids);
  }

  function Current(r: Record, p: Platform): Option<Id> {
    var ids := p.order(r);
    if Lists(ids, r) then Best(r, ids) else None
  }

  lemma CurrentIsBest(r: Record, p: Platform)
    requires p.Faithful()
    ensures Current(r, p).Some? <==> r != map[]
    ensures Current(r, p).Some? ==> IsBest(r, Current(r, p).value)
  {
    var ids := p.order(r);
    assert Lists(ids, r);
    assert ids != [] ==> ids[0] in r;
    if r != map[] {
      var id := AKey(r);
      assert id in ids;
    }
  }

  lemma AKey<K, V>(m: map<K, V>) returns (k: K)
    requires m != map[]
    ensures k in m
  {
    assert m.Keys != {};
    k :| k in m;
  }

  /** currentSessionEntry: a reduce that keeps the first of equals. */
  method CurrentSessionEntry(r: Record, p: Platform) returns (best: Option<Id>)
    requires p.Faithful() && forall id :: id in r ==> r[id].index.used >= 0
    ensures best.None? <==> r == map[]
    ensures best.Some? ==> IsBest(r, best.value)
    ensures best.Some? ==> Lists(p.order(r), r) && exists k: nat :: k < |p.order(r)| && best == Some(p.order(r)[k])
                                                                    && FirstOfEquals(r, p.order(r), k)
  {
    var ids := p.order(r);
    assert Lists(ids, r);
    CurrentIsBest(r, p);
    if |ids| == 0 {
      return None;
    }
    var b := ids[0];
    ghost var k := 0;
    for i := 1 to |ids|
      invariant forall j :: 0 <= j < |ids| ==> ids[j] in r
      invariant 0 <= k < i && b == ids[k]
      invariant forall j :: 0 <= j < i ==> AtLeast(r[b], r[ids[j]])
      invariant forall j :: 0 <= j < k ==> !AtLeast(r[ids[j]], r[b])
    {
      var best', e := r[b], r[ids[i]];
      if e.IsOpen() != best'.IsOpen() {
        if e.IsOpen() {
          b, k := ids[i], i;
        }
      } else if e.index.used > best'.index.used {
        b, k := ids[i], i;
      }
    }
    assert FirstOfEquals(r, ids, k);
    return Some(b);
  }

  /** The two selections agree where no two entries tie. */
  lemma SelectionsAgree(r: Record, a: Id, b: Id)
    requires IsBest(r, a) && IsBest(r, b)
    requires forall x, y :: x in r && y in r && x != y ==>
               r[x].IsOpen() != r[y].IsOpen() || r[x].index.used != r[y].index.used
    ensures a == b
  {
  }

  ghost predicate OpenAt(r: Record, id: Id) {
    id in r && r[id].IsOpen() && forall x :: x in r && r[x].IsOpen() ==> x == id
  }

  /** The entry that is selected: an open one when there is one, and of those, or else of all, one
      used last. */
  lemma CurrentIsUsedLast(r: Record, p: Platform)
    requires p.Faithful() && r != map[]
    ensures Current(r, p).Some? && Current(r, p).value in r
    ensures var best := r[Current(r, p).value].index;
            && ((exists x :: x in r && r[x].index.closed == -1) ==> best.closed == -1)
            && (forall x :: x in r && (best.closed == -1 ==> r[x].index.closed == -1) ==> r[x].index.used <= best.used)
  {
    CurrentIsBest(r, p);
  }

  lemma BestIsOpen(r: Record, id: Id, best: Id)
    requires OpenAt(r, id) && IsBest(r, best)
    ensures best == id
  {
  }

  // ---- archiving ----

  /** An open entry is closed at the time of its last use, or now. */
  function Shut(e: Entry, now: int): Entry {
    if e.IsOpen() then e.(index := e.index.(closed := if e.index.used != 0 then e.index.used else now)) else e
  }

  function ShutAll(r: Record, now: int): Record {
    map id | id in r :: Shut(r[id], now)
  }

  /** The archived entries, in the order they are walked. */
  function ClosedIds(r: Record, ids: seq<Id>): seq<Id> {
    if ids == [] then []
    else
      var rest, last := ClosedIds(r, ids[..|ids| - 1]), ids[|ids| - 1];
      if last in r && !r[last].IsOpen() then rest + [last] else rest
  }

  /** sort by closed, stable: an element goes after those no later than it. */
  function Inserted(r: Record, sorted: seq<Id>, id: Id): seq<Id>
    requires id in r && forall x :: x in sorted ==> x in r
  {
    if sorted == [] || r[sorted[|sorted| - 1]].index.closed <= r[id].index.closed then sorted + [id]
    else Inserted(r, sorted[..|sorted| - 1], id) + [sorted[|sorted| - 1]]
  }

  function Sorted(r: Record, ids: seq<Id>): (sorted: seq<Id>)
    requires forall x :: x in ids ==> x in r
    ensures forall x :: x in sorted <==> x in ids
    ensures |sorted| == |ids|
  {
    if ids == [] then []
    else
      var rest, last := ids[..|ids| - 1], ids[|ids| - 1];
      assert ids == rest + [last];
      InsertedHolds(r, Sorted(r, rest), last);
      Inserted(r, Sorted(r, rest), last)
  }

  lemma InsertedHolds(r: Record, sorted: seq<Id>, id: Id)
    requires id in r && forall x :: x in sorted ==> x in r
    ensures forall x :: x in Inserted(r, sorted, id) <==> x == id || x in sorted
    ensures |Inserted(r, sorted, id)| == |sorted| + 1
  {
    if sorted != [] && r[sorted[|sorted| - 1]].index.closed > r[id].index.closed {
      assert sorted == sorted[..|sorted| - 1] + [sorted[|sorted| - 1]];
      InsertedHolds(r, sorted[..|sorted| - 1], id);
    }
  }

  predicate Rising(r: Record, ids: seq<Id>) {
    (forall x :: x in ids ==> x in r)
    && forall i, j :: 0 <= i < j < |ids| ==> r[ids[i]].index.closed <= r[ids[j]].index.closed
  }

  lemma {:induction false} InsertedRises(r: Record, sorted: seq<Id>, id: Id)
    requires id in r && Rising(r, sorted)
    ensures Rising(r, Inserted(r, sorted, id))
  {
    InsertedHolds(r, sorted, id);
    if sorted != [] && r[sorted[|sorted| - 1]].index.closed > r[id].index.closed {
      var rest, last := sorted[..|sorted| - 1], sorted[|sorted| - 1];
      InsertedRises(r, rest, id);
      InsertedHolds(r, rest, id);
      var head := Inserted(r, rest, id);
      forall i | 0 <= i < |head|
        ensures r[head[i]].index.closed <= r[last].index.closed
      {
        assert head[i] in head;
        if head[i] != id {
          NoLaterThanLast(r, sorted, head[i]);
        }
      }
    }
  }

  lemma NoLaterThanLast(r: Record, sorted: seq<Id>, x: Id)
    requires Rising(r, sorted) && sorted != [] && x in sorted[..|sorted| - 1]
    ensures x in r && r[x].index.closed <= r[sorted[|sorted| - 1]].index.closed
  {
    var k :| 0 <= k < |sorted| - 1 && sorted[..|sorted| - 1][k] == x;
    assert sorted[k] == x;
  }

  lemma {:induction false} InsertedOnce(r: Record, sorted: seq<Id>, id: Id)
    requires id in r && (forall x :: x in sorted ==> x in r) && NoRepeats(sorted) && id !in sorted
    ensures NoRepeats(Inserted(r, sorted, id))
  {
    if sorted != [] && r[sorted[|sorted| - 1]].index.closed > r[id].index.closed {
      var rest, last := sorted[..|sorted| - 1], sorted[|sorted| - 1];
      InsertedOnce(r, rest, id);
      InsertedHolds(r, rest, id);
      var head := Inserted(r, rest, id);
      forall i | 0 <= i < |head|
        ensures head[i] != last
      {
        assert head[i] in head;
      }
    }
  }

  lemma {:induction false} SortedRises(r: Record, ids: seq<Id>)
    requires (forall x :: x in ids ==> x in r) && NoRepeats(ids)
    ensures Rising(r, Sorted(r, ids)) && NoRepeats(Sorted(r, ids))
  {
    if ids != [] {
      var rest, last := ids[..|ids| - 1], ids[|ids| - 1];
      SortedRises(r, rest);
      InsertedRises(r, Sorted(r, rest), last);
      InsertedOnce(r, Sorted(r, rest), last);
    }
  }

  lemma {:induction false} ClosedIdsAre(r: Record, ids: seq<Id>)
    requires NoRepeats(ids)
    ensures NoRepeats(ClosedIds(r, ids))
    ensures forall x :: x in ClosedIds(r, ids) <==> x in ids && x in r && !r[x].IsOpen()
  {
    if ids != [] {
      var rest, last := ids[..|ids| - 1], ids[|ids| - 1];
      ClosedIdsAre(r, rest);
      assert ids == rest + [last];
      assert last !in ClosedIds(r, rest);
    }
  }

  /** The archived entries by closing time. */
  function ByAge(r: Record, ids: seq<Id>): seq<Id>
    requires Lists(ids, r)
  {
    ClosedIdsAre(r, ids);
    Sorted(r, ClosedIds(r, ids))
  }

  /** What evictOldestArchived deletes: all but the last MAX_ARCHIVED. */
  function TooOld(r: Record, ids: seq<Id>): seq<Id>
    requires Lists(ids, r)
  {
    var sorted := ByAge(r, ids);
    if |sorted| > MAX_ARCHIVED then sorted[..|sorted| - MAX_ARCHIVED] else []
  }

  function Evicted(r: Record, ids: seq<Id>): Record
    requires Lists(ids, r)
  {
    Without(r, TooOld(r, ids))
  }

  lemma {:induction false} WithoutKeeps(r: Record, ids: seq<Id>)
    ensures forall x :: x in Without(r, ids) <==> x in r && x !in ids
    ensures forall x :: x in Without(r, ids) ==> Without(r, ids)[x] == r[x]
  {
    if ids != [] {
      WithoutKeeps(r - {ids[0]}, ids[1..]);
      assert ids == [ids[0]] + ids[1..];
    }
  }

  function Archived(r: Record): set<Id> {
    set id | id in r && !r[id].IsOpen()
  }

  lemma {:induction false} SizeOfList(ids: seq<Id>, s: set<Id>)
    requires NoRepeats(ids) && forall x :: x in s <==> x in ids
    ensures |s| == |ids|
  {
    if ids == [] {
      assert s == {};
    } else {
      var rest, last := ids[..|ids| - 1], ids[|ids| - 1];
      assert ids == rest + [last];
      SizeOfList(rest, s - {last});
    }
  }

  lemma Halves(ids: seq<Id>, k: nat)
    requires k <= |ids| && NoRepeats(ids)
    ensures NoRepeats(ids[k..]) && forall x :: x in ids[..k] ==> x in ids
    ensures forall x :: x in ids[k..] <==> x in ids && x !in ids[..k]
  {
    assert ids == ids[..k] + ids[k..];
    forall x | x in ids[k..]
      ensures x !in ids[..k]
    {
      var j :| 0 <= j < |ids| - k && ids[k..][j] == x;
      assert ids[k + j] == x;
    }
  }

  lemma RisingHalves(r: Record, ids: seq<Id>, k: nat, x: Id, y: Id)
    requires k <= |ids| && Rising(r, ids) && x in ids[..k] && y in ids[k..]
    ensures x in r && y in r && r[x].index.closed <= r[y].index.closed
  {
    var i :| 0 <= i < k && ids[..k][i] == x;
    var j :| 0 <= j < |ids| - k && ids[k..][j] == y;
    assert ids[i] == x && ids[k + j] == y;
  }

  ghost predicate ListsArchived(r: Record, sorted: seq<Id>) {
    Rising(r, sorted) && NoRepeats(sorted) && |sorted| == |Archived(r)| && forall x :: x in sorted <==> x in Archived(r)
  }

  lemma ByAgeLists(r: Record, ids: seq<Id>)
    requires Lists(ids, r)
    ensures ListsArchived(r, ByAge(r, ids))
  {
    var closed := ClosedIds(r, ids);
    ClosedIdsAre(r, ids);
    SortedRises(r, closed);
    SizeOfList(Sorted(r, closed), Archived(r));
  }

  /** The effect of deleting the first k of the archived entries by closing time. */
  ghost predicate DropsOldest(r: Record, kept: Record) {
    && (forall x :: x in kept ==> x in r && kept[x] == r[x])
    && (forall x :: x in r && r[x].IsOpen() ==> x in kept)
    && (forall x, y :: x in r && x !in kept && y in kept && !kept[y].IsOpen() ==>
          r[x].index.closed <= r[y].index.closed)
  }

  lemma DroppingFirst(r: Record, sorted: seq<Id>, k: nat)
    requires ListsArchived(r, sorted) && k <= |sorted|
    ensures DropsOldest(r, Without(r, sorted[..k]))
    ensures |Archived(Without(r, sorted[..k]))| == |sorted| - k
  {
    var kept := Without(r, sorted[..k]);
    Halves(sorted, k);
    WithoutKeeps(r, sorted[..k]);
    SizeOfList(sorted[k..], Archived(kept));
    forall x, y | x in r && x !in kept && y in kept && !kept[y].IsOpen()
      ensures r[x].index.closed <= r[y].index.closed
    {
      RisingHalves(r, sorted, k, x, y);
    }
  }

  /** Eviction leaves every open entry, leaves at most MAX_ARCHIVED archived ones, changes no
      entry it keeps, drops nothing unless there are more than that, and drops no entry that
      was closed after one it keeps. */
  lemma EvictionDropsOldest(r: Record, ids: seq<Id>)
    requires Lists(ids, r)
    ensures DropsOldest(r, Evicted(r, ids))
    ensures |Archived(Evicted(r, ids))| == if |Archived(r)| <= MAX_ARCHIVED then |Archived(r)| else MAX_ARCHIVED
  {
    var sorted := ByAge(r, ids);
    ByAgeLists(r, ids);
    DroppingFirst(r, sorted, |TooOld(r, ids)|);
    assert TooOld(r, ids) == sorted[..|TooOld(r, ids)|];
  }

  // ---- archiveAndMerge ----

  function Merged(stored: Record, built: Entry, now: int, p: Platform): Record {
    var r := ShutAll(stored, now)[built.index.baseKey := built];
    if Lists(p.order(r), r) then Evicted(r, p.order(r)) else r
  }

  /** The record that is parsed, edited in place and serialised again. */
  class Parsed {
    var sessions: Record

    constructor (r: Record)
      ensures sessions == r
    {
      sessions := r;
    }

    method ArchiveOpen(now: int, ids: seq<Id>)
      requires Lists(ids, sessions)
      modifies this
      ensures sessions == ShutAll(old(sessions), now)
      ensures forall id :: id in old(sessions) && old(sessions)[id].index.closed == -1 ==>
                sessions[id].index.closed == if old(sessions)[id].index.used != 0 then old(sessions)[id].index.used else now
    {
      for i := 0 to |ids|
        invariant forall id :: id in sessions <==> id in old(sessions)
        invariant forall j :: 0 <= j < i ==> sessions[ids[j]] == Shut(old(sessions)[ids[j]], now)
        invariant forall j :: i <= j < |ids| ==> sessions[ids[j]] == old(sessions)[ids[j]]
      {
        var id := ids[i];
        if sessions[id].index.closed == -1 {
          var e := sessions[id];
          sessions := sessions[id := e.(index := e.index.(closed := if e.index.used != 0 then e.index.used else now))];
        }
      }
    }

    /** evictOldestArchived. */
    method EvictOldest(ids: seq<Id>)
      requires Lists(ids, sessions)
      modifies this
      ensures sessions == Evicted(old(sessions), ids)
    {
      var archived := ByAge(sessions, ids);
      ghost var doomed := TooOld(sessions, ids);
      var excess := if |archived| > MAX_ARCHIVED then |archived| - MAX_ARCHIVED else 0;
      for i := 0 to excess
        invariant Without(sessions, doomed[i..]) == Without(old(sessions), doomed)
      {
        assert doomed[i..][0] == archived[i] && doomed[i..][1..] == doomed[i + 1..];
        sessions := sessions - {archived[i]};
      }
    }
  }

  method ArchiveAndMerge(stored: Record, built: Entry, now: int, p: Platform) returns (r: Record)
    requires p.Faithful()
    ensures r == Merged(stored, built, now, p)
  {
    var parsed := new Parsed(stored);
    assert Lists(p.order(stored), stored);
    parsed.ArchiveOpen(now, p.order(stored));
    parsed.sessions := parsed.sessions[built.index.baseKey := built];
    assert Lists(p.order(parsed.sessions), parsed.sessions);
    parsed.EvictOldest(p.order(parsed.sessions));
    return parsed.sessions;
  }

  /** A record as the wrapper leaves it: entries under their own base keys, one of them open,
      no more than MAX_ARCHIVED archived. */
  ghost predicate Sound(r: Record) {
    && (forall id :: id in r ==> r[id].index.baseKey == id && r[id].index.used >= 0)
    && (exists id :: OpenAt(r, id))
    && |Archived(r)| <= MAX_ARCHIVED
  }

  /** Merging a fresh entry archives the one that was open, opens the fresh one, evicts
      the entries closed longest ago, and keeps the record sound. */
  lemma MergeKeepsSound(stored: Record, built: Entry, now: int, p: Platform)
    requires p.Faithful() && Sound(stored) && now >= 0
    requires built.IsOpen() && built.index.used >= 0 && built.index.baseKey !in stored
    ensures Sound(Merged(stored, built, now, p)) && OpenAt(Merged(stored, built, now, p), built.index.baseKey)
    ensures Merged(stored, built, now, p)[built.index.baseKey] == built
    ensures DropsOldest(ShutAll(stored, now)[built.index.baseKey := built], Merged(stored, built, now, p))
    ensures forall id :: id in Merged(stored, built, now, p) && id != built.index.baseKey ==>
              id in stored && Merged(stored, built, now, p)[id] == Shut(stored[id], now)
  {
    var r := ShutAll(stored, now)[built.index.baseKey := built];
    assert Lists(p.order(r), r);
    EvictionDropsOldest(r, p.order(r));
    assert OpenAt(Merged(stored, built, now, p), built.index.baseKey);
  }

  /** The time an entry carries after a merge: one that was open is closed at its last use, or now
      when it was never used; one that was closed keeps its time.  Nothing else of it changes. */
  lemma MergeClosesAt(stored: Record, built: Entry, now: int, p: Platform, id: Id)
    requires p.Faithful() && Sound(stored) && now >= 0
    requires built.IsOpen() && built.index.used >= 0 && built.index.baseKey !in stored
    requires id in Merged(stored, built, now, p) && id != built.index.baseKey
    ensures id in stored
    ensures var was, kept := stored[id], Merged(stored, built, now, p)[id];
            && kept.state == was.state && kept.index.baseKey == was.index.baseKey && kept.index.used == was.index.used
            && (was.index.closed != -1 ==> kept.index.closed == was.index.closed)
            && (was.index.closed == -1 && was.index.used != 0 ==> kept.index.closed == was.index.used)
            && (was.index.closed == -1 && was.index.used == 0 ==> kept.index.closed == now)
  {
    MergeKeepsSound(stored, built, now, p);
  }

  /** The record between archiving and eviction. */
  function Filed(stored: Record, built: Entry, now: int): Record {
    ShutAll(stored, now)[built.index.baseKey := built]
  }

  lemma FiledArchive(stored: Record, built: Entry, now: int, id: Id)
    requires now >= 0 && built.IsOpen() && built.index.baseKey !in stored
    requires OpenAt(stored, id) && stored[id].index.used >= 0
    ensures Archived(Filed(stored, built, now)) == Archived(stored) + {id}
    ensures |Archived(Filed(stored, built, now))| == |Archived(stored)| + 1
  {
    assert Archived(Filed(stored, built, now)) == Archived(stored) + {id};
  }

  /** What is left after a merge: every archived entry while there is room for it, 40 otherwise. */
  lemma MergeKeepsForty(stored: Record, built: Entry, now: int, p: Platform)
    requires p.Faithful() && Sound(stored) && now >= 0 && built.IsOpen() && built.index.baseKey !in stored
    ensures |Archived(Merged(stored, built, now, p))| == if |Archived(stored)| < 40 then |Archived(stored)| + 1 else 40
    ensures |Archived(stored)| < 40 ==> forall id :: id in stored ==> id in Merged(stored, built, now, p)
  {
    var all := Filed(stored, built, now);
    EvictionDropsOldest(all, p.order(all));
    var open :| OpenAt(stored, open);
    FiledArchive(stored, built, now, open);
    if |Archived(stored)| < 40 {
      NothingDropped(all, Merged(stored, built, now, p));
    }
  }

  lemma NothingDropped(r: Record, kept: Record)
    requires DropsOldest(r, kept) && |Archived(kept)| == |Archived(r)|
    ensures forall id :: id in r ==> id in kept
  {
    SubsetOfSameSize(Archived(kept), Archived(r));
    assert forall id :: id in r && id !in kept ==> id in Archived(r);
  }

  /** The time the open entry is closed at. */
  function ClosingTime(e: Entry, now: int): int {
    if e.index.used != 0 then e.index.used else now
  }

  /** The other entries closed no earlier, and those closed later. */
  function NoEarlier(r: Record, id: Id, at: int): set<Id> {
    set x | x in r && x != id && r[x].index.closed >= at
  }

  function Later(r: Record, id: Id, at: int): set<Id> {
    set x | x in r && x != id && r[x].index.closed > at
  }

  /** The session just archived survives the merge when fewer than 40 others were closed no
      earlier than it, and is evicted when 40 were closed later. */
  lemma ArchivedSurvives(stored: Record, built: Entry, now: int, p: Platform, id: Id)
    requires p.Faithful() && Sound(stored) && now >= 0
    requires built.IsOpen() && built.index.used >= 0 && built.index.baseKey !in stored && OpenAt(stored, id)
    ensures |NoEarlier(stored, id, ClosingTime(stored[id], now))| < 40 ==> id in Merged(stored, built, now, p)
    ensures |Later(stored, id, ClosingTime(stored[id], now))| >= 40 ==> id !in Merged(stored, built, now, p)
  {
    var at, all, kept := ClosingTime(stored[id], now), Filed(stored, built, now), Merged(stored, built, now, p);
    EvictionDropsOldest(all, p.order(all));
    MergeKeepsForty(stored, built, now, p);
    FiledEntries(stored, built, now, id);
    if id !in kept {
      DroppedHasLater(stored, all, kept, id, at);
    } else {
      KeptHasAllLater(stored, all, kept, id, at);
    }
  }

  lemma FiledEntries(stored: Record, built: Entry, now: int, id: Id)
    requires now >= 0 && built.IsOpen() && built.index.baseKey !in stored
    requires OpenAt(stored, id) && stored[id].index.used >= 0
    ensures id in Filed(stored, built, now)
    ensures Filed(stored, built, now)[id].index.closed == ClosingTime(stored[id], now) >= 0
    ensures forall x :: x in stored && x != id ==>
              x in Archived(Filed(stored, built, now)) && Filed(stored, built, now)[x] == stored[x]
    ensures forall x :: x in Archived(Filed(stored, built, now)) && x != id ==>
              x in stored && Filed(stored, built, now)[x] == stored[x]
  {
    FiledArchive(stored, built, now, id);
  }

  lemma DroppedHasLater(stored: Record, all: Record, kept: Record, id: Id, at: int)
    requires DropsOldest(all, kept) && id in all && id !in kept && all[id].index.closed == at && at != -1
    requires forall x :: x in Archived(all) && x != id ==> x in stored && all[x] == stored[x]
    ensures |NoEarlier(stored, id, at)| >= |Archived(kept)|
  {
    forall y | y in Archived(kept)
      ensures y in NoEarlier(stored, id, at)
    {
      assert y in Archived(all);
    }
    Chains.SubsetSize(Archived(kept), NoEarlier(stored, id, at));
  }

  lemma KeptHasAllLater(stored: Record, all: Record, kept: Record, id: Id, at: int)
    requires DropsOldest(all, kept) && id in kept && all[id].index.closed == at && at != -1
    requires forall x :: x in stored && x != id ==> x in Archived(all) && all[x] == stored[x]
    ensures |Later(stored, id, at)| < |Archived(kept)|
  {
    forall y | y in Later(stored, id, at)
      ensures y in Archived(kept) - {id}
    {
      assert y in all;
    }
    Chains.SubsetSize(Later(stored, id, at), Archived(kept) - {id});
  }

  lemma SubsetOfSameSize<T>(a: set<T>, b: set<T>)
    requires a <= b && |a| == |b|
    ensures a == b
  {
    assert |b - a| == |b| - |a|;
  }

  // ---- ties ----

  /** The listed entries closed at time t, in the order of the list. */
  function ClosedAt(r: Record, ids: seq<Id>, t: int): seq<Id>
    requires forall x :: x in ids ==> x in r
  {
    if ids == [] then []
    else
      var rest, last := ids[..|ids| - 1], ids[|ids| - 1];
      assert ids == rest + [last];
      if r[last].index.closed == t then ClosedAt(r, rest, t) + [last] else ClosedAt(r, rest, t)
  }

  lemma ClosedAtPush(r: Record, ids: seq<Id>, id: Id, t: int)
    requires id in r && forall x :: x in ids ==> x in r
    ensures ClosedAt(r, ids + [id], t) == if r[id].index.closed == t then ClosedAt(r, ids, t) + [id] else ClosedAt(r, ids, t)
  {
    var all := ids + [id];
    assert all[..|all| - 1] == ids && all[|all| - 1] == id;
  }

  lemma {:induction false} InsertedLastOfTies(r: Record, sorted: seq<Id>, id: Id, t: int)
    requires id in r && Rising(r, sorted)
    ensures forall x :: x in Inserted(r, sorted, id) ==> x in r
    ensures ClosedAt(r, Inserted(r, sorted, id), t)
         == if r[id].index.closed == t then ClosedAt(r, sorted, t) + [id] else ClosedAt(r, sorted, t)
  {
    InsertedHolds(r, sorted, id);
    if sorted == [] || r[sorted[|sorted| - 1]].index.closed <= r[id].index.closed {
      ClosedAtPush(r, sorted, id, t);
    } else {
      var rest, last := sorted[..|sorted| - 1], sorted[|sorted| - 1];
      InsertedHolds(r, rest, id);
      InsertedLastOfTies(r, rest, id, t);
      ClosedAtPush(r, Inserted(r, rest, id), last, t);
    }
  }

  /** The sort is stable: entries closed at one time stay in the order they were walked. */
  lemma {:induction false} SortIsStable(r: Record, ids: seq<Id>, t: int)
    requires (forall x :: x in ids ==> x in r) && NoRepeats(ids)
    ensures ClosedAt(r, Sorted(r, ids), t) == ClosedAt(r, ids, t)
  {
    if ids != [] {
      var rest, last := ids[..|ids| - 1], ids[|ids| - 1];
      SortIsStable(r, rest, t);
      SortedRises(r, rest);
      InsertedLastOfTies(r, Sorted(r, rest), last, t);
    }
  }
}
