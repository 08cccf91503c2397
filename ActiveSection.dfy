/**
 * The scroll-spy behind the navigation highlight. An intersection observer
 * reports entries for the page's sections; the hook records the latest
 * entry per section id in a map (insertion-ordered, overwritten in place),
 * and after each batch makes the intersecting section with the largest
 * visible height the active one. A scroll handler forces the last section
 * when the page is scrolled to within 80 pixels of its bottom.
 */
module ActiveSection {
  import opened Wrappers

  /** One observer report: the target's id, whether it intersects the reading zone, its visible height. */
  datatype Entry = Entry(id: string, isIntersecting: bool, height: nat)

  /** Window and document measurements read by the scroll handler. */
  datatype Geometry = Geometry(innerHeight: int, scrollY: int, bodyHeight: int)

  /** How close to the bottom of the page counts as "at the bottom", in pixels. */
  const BottomMargin: int := 80

  // ---------------------------------------------------------------------
  // The record map: a sequence of entries in insertion order
  // ---------------------------------------------------------------------

  predicate HasId(records: seq<Entry>, id: string) {
    exists j :: 0 <= j < |records| && records[j].id == id
  }

  /** A JavaScript `Map` holds each key once. */
  predicate UniqueIds(records: seq<Entry>) {
    forall i, j :: 0 <= i < j < |records| ==> records[i].id != records[j].id
  }

  /** The position of `id` in the map, if it has a record. */
  function IdIndex(records: seq<Entry>, id: string): (r: Option<nat>)
    ensures r.Some? ==> r.value < |records| && records[r.value].id == id
    ensures r.Some? ==> forall j :: 0 <= j < r.value ==> records[j].id != id
    ensures r.None? <==> !HasId(records, id)
  {
    if records == [] then None
    else if records[0].id == id then Some(0)
    else
      match IdIndex(records[1..], id)
      case None =>
        assert forall j :: 1 <= j < |records| ==> records[j] == records[1..][j - 1];
        None
      case Some(i) => Some(i + 1)
  }

  /** `map.get(id)`. */
  function Lookup(records: seq<Entry>, id: string): (r: Option<Entry>)
    ensures r.Some? ==> r.value in records && r.value.id == id
    ensures r.None? <==> !HasId(records, id)
  {
    match IdIndex(records, id)
    case Some(i) => Some(records[i])
    case None => None
  }

  /**
   * `map.set(e.id, e)`: a recorded id is overwritten where it stands, a
   * new id is appended; lookups of every other id are unaffected.
   */
  function Put(records: seq<Entry>, e: Entry): (r: seq<Entry>)
    ensures Lookup(r, e.id) == Some(e)
    ensures forall id :: id != e.id ==> Lookup(r, id) == Lookup(records, id)
    ensures HasId(records, e.id) ==>
      |r| == |records| && forall i :: 0 <= i < |records| && records[i].id != e.id ==> r[i] == records[i]
    ensures !HasId(records, e.id) ==> r == records + [e]
    ensures forall x :: x in r ==> x == e || x in records
    ensures UniqueIds(records) ==> UniqueIds(r)
  {
    match IdIndex(records, e.id)
    case Some(i) =>
      var r := records[i := e];
      assert forall j :: 0 <= j < |r| ==> r[j].id == records[j].id;
      SameIdsSameIndex(records, r);
      r
    case None =>
      var r := records + [e];
      assert forall j :: 0 <= j < |records| ==> r[j] == records[j];
      assert r[|records|] == e;
      forall id | id != e.id ensures IdIndex(r, id) == IdIndex(records, id) {
        IdIndexAppend(records, e, id);
      }
      r
  }

  /** Appending a record with another id does not move `id`. */
  lemma {:induction false} IdIndexAppend(records: seq<Entry>, e: Entry, id: string)
    requires e.id != id
    ensures IdIndex(records + [e], id) == IdIndex(records, id)
  {
    if records != [] {
      assert (records + [e])[1..] == records[1..] + [e];
      IdIndexAppend(records[1..], e, id);
    }
  }

  /** Positions are found by id alone. */
  lemma SameIdsSameIndex(a: seq<Entry>, b: seq<Entry>)
    requires |a| == |b|
    requires forall j :: 0 <= j < |a| ==> a[j].id == b[j].id
    ensures forall id :: IdIndex(a, id) == IdIndex(b, id)
  {
    forall id ensures IdIndex(a, id) == IdIndex(b, id) {
      SameIdsSameIndexAt(a, b, id);
    }
  }

  lemma SameIdsSameIndexAt(a: seq<Entry>, b: seq<Entry>, id: string)
    requires |a| == |b|
    requires forall j :: 0 <= j < |a| ==> a[j].id == b[j].id
    ensures IdIndex(a, id) == IdIndex(b, id)
  {
    if HasId(a, id) {
      var j :| 0 <= j < |a| && a[j].id == id;
      assert b[j].id == id;
    }
    if HasId(b, id) {
      var j :| 0 <= j < |b| && b[j].id == id;
      assert a[j].id == id;
    }
    var ia, ib := IdIndex(a, id), IdIndex(b, id);
    if ia.Some? && ib.Some? {
      assert b[ia.value].id == id && a[ib.value].id == id;
    }
  }

  /** `entries.forEach(entry => map.set(entry.target.id, entry))`. */
  function PutAll(records: seq<Entry>, batch: seq<Entry>): (r: seq<Entry>)
    ensures forall x :: x in r ==> x in records || x in batch
    ensures UniqueIds(records) ==> UniqueIds(r)
  {
    if batch == [] then records
    else Put(PutAll(records, batch[..|batch| - 1]), batch[|batch| - 1])
  }

  /** The last entry of the batch reported for `id`, if any. */
  function LastReport(batch: seq<Entry>, id: string): (r: Option<Entry>)
    ensures r.Some? ==> r.value in batch && r.value.id == id
    ensures r.None? ==> forall e :: e in batch ==> e.id != id
  {
    if batch == [] then None
    else if batch[|batch| - 1].id == id then Some(batch[|batch| - 1])
    else LastReport(batch[..|batch| - 1], id)
  }

  /**
   * Recording a batch: each reported id now maps to its last report in
   * the batch; every unreported id keeps the record it had.
   */
  lemma {:induction false} PutAllLookup(records: seq<Entry>, batch: seq<Entry>, id: string)
    ensures Lookup(PutAll(records, batch), id) ==
      match LastReport(batch, id)
      case Some(e) => Some(e)
      case None => Lookup(records, id)
  {
    if batch != [] {
      PutAllLookup(records, batch[..|batch| - 1], id);
    }
  }

  /** A batch of ids not yet recorded, each reported once, is appended in report order. */
  lemma {:induction false} PutAllFresh(records: seq<Entry>, batch: seq<Entry>)
    requires UniqueIds(records + batch)
    ensures PutAll(records, batch) == records + batch
  {
    if batch != [] {
      var init := batch[..|batch| - 1];
      var last := batch[|batch| - 1];
      assert records + batch == (records + init) + [last];
      assert UniqueIds(records + init) by {
        forall i, j | 0 <= i < j < |records + init|
          ensures (records + init)[i].id != (records + init)[j].id
        {
          assert (records + init)[i] == (records + batch)[i];
          assert (records + init)[j] == (records + batch)[j];
        }
      }
      PutAllFresh(records, init);
      assert !HasId(records + init, last.id) by {
        forall j | 0 <= j < |records + init|
          ensures (records + init)[j].id != last.id
        {
          assert (records + init)[j] == (records + batch)[j];
          assert last == (records + batch)[|records + batch| - 1];
        }
      }
    }
  }

  // ---------------------------------------------------------------------
  // Ranking
  // ---------------------------------------------------------------------

  predicate AnyIntersecting(records: seq<Entry>) {
    exists j :: 0 <= j < |records| && records[j].isIntersecting
  }

  /**
   * The record at `k` wins: it intersects, no intersecting record is
   * taller, and every intersecting record before it is strictly shorter.
   */
  predicate RanksFirst(records: seq<Entry>, k: int) {
    && 0 <= k < |records|
    && records[k].isIntersecting
    && (forall j :: 0 <= j < |records| && records[j].isIntersecting ==> records[j].height <= records[k].height)
    && (forall j :: 0 <= j < k && records[j].isIntersecting ==> records[j].height < records[k].height)
  }

  /** At most one record ranks first. */
  lemma RanksFirstUnique(records: seq<Entry>, k1: int, k2: int)
    requires RanksFirst(records, k1) && RanksFirst(records, k2)
    ensures k1 == k2
  {
    assert records[k1].height == records[k2].height;
  }

  /** `.filter(entry => entry.isIntersecting)`, keeping map order. */
  function Visible(records: seq<Entry>): (v: seq<Entry>)
    ensures forall x :: x in v <==> x in records && x.isIntersecting
    ensures v == [] <==> !AnyIntersecting(records)
  {
    if records == [] then []
    else
      var rest := Visible(records[1..]);
      assert AnyIntersecting(records) <==> records[0].isIntersecting || AnyIntersecting(records[1..]) by {
        if AnyIntersecting(records) {
          var j :| 0 <= j < |records| && records[j].isIntersecting;
          if j > 0 {
            assert records[1..][j - 1].isIntersecting;
          }
        }
        if AnyIntersecting(records[1..]) {
          var j :| 0 <= j < |records[1..]| && records[1..][j].isIntersecting;
          assert records[j + 1].isIntersecting;
        }
      }
      assert records == [records[0]] + records[1..];
      if records[0].isIntersecting then [records[0]] + rest else rest
  }

  predicate Descending(s: seq<Entry>) {
    forall i, j :: 0 <= i < j < |s| ==> s[i].height >= s[j].height
  }

  /** Stable insertion of `x` before every entry that is not taller. */
  function InsertByHeight(x: Entry, t: seq<Entry>): (r: seq<Entry>)
    ensures |r| == |t| + 1
    ensures multiset(r) == multiset(t) + multiset{x}
  {
    if t == [] || t[0].height <= x.height then [x] + t
    else
      assert t == [t[0]] + t[1..];
      [t[0]] + InsertByHeight(x, t[1..])
  }

  /** Inserting into a descending sequence keeps it descending. */
  lemma {:induction false} InsertKeepsDescending(x: Entry, t: seq<Entry>)
    requires Descending(t)
    ensures Descending(InsertByHeight(x, t))
  {
    if t != [] && t[0].height > x.height {
      var rest := InsertByHeight(x, t[1..]);
      assert Descending(t[1..]) by {
        forall i, j | 0 <= i < j < |t[1..]| ensures t[1..][i].height >= t[1..][j].height {
          assert t[1..][i] == t[i + 1] && t[1..][j] == t[j + 1];
        }
      }
      InsertKeepsDescending(x, t[1..]);
      forall i | 0 <= i < |t[1..]| ensures t[1..][i].height <= t[0].height {
        assert t[1..][i] == t[i + 1];
      }
      InsertBounded(x, t[1..], t[0].height);
      var r := [t[0]] + rest;
      assert r == InsertByHeight(x, t);
      forall i, j | 0 <= i < j < |r|
        ensures r[i].height >= r[j].height
      {
        if i == 0 {
          assert r[j] == rest[j - 1];
        } else {
          assert r[i] == rest[i - 1] && r[j] == rest[j - 1];
        }
      }
    }
  }

  /** No entry of the insertion is taller than a bound on `x` and on `t`. */
  lemma {:induction false} InsertBounded(x: Entry, t: seq<Entry>, bound: nat)
    requires x.height <= bound
    requires forall i :: 0 <= i < |t| ==> t[i].height <= bound
    ensures forall i :: 0 <= i < |InsertByHeight(x, t)| ==> InsertByHeight(x, t)[i].height <= bound
  {
    if t != [] && t[0].height > x.height {
      forall i | 0 <= i < |t[1..]| ensures t[1..][i].height <= bound {
        assert t[1..][i] == t[i + 1];
      }
      InsertBounded(x, t[1..], bound);
      var rest := InsertByHeight(x, t[1..]);
      var r := [t[0]] + rest;
      assert r == InsertByHeight(x, t);
      forall i | 0 <= i < |r| ensures r[i].height <= bound {
        if i > 0 {
          assert r[i] == rest[i - 1];
        }
      }
    } else {
      var r := [x] + t;
      assert r == InsertByHeight(x, t);
      forall i | 0 <= i < |r| ensures r[i].height <= bound {
        if i > 0 {
          assert r[i] == t[i - 1];
        }
      }
    }
  }

  /**
   * `.sort((a, b) => b.height - a.height)`: a permutation, tallest first.
   * The sort is stable; that stability is stated for the head of the
   * ranking, by `HeadRanksFirst`.
   */
  function SortByHeight(s: seq<Entry>): (r: seq<Entry>)
    ensures |r| == |s|
    ensures multiset(r) == multiset(s)
    ensures Descending(r)
  {
    if s == [] then []
    else
      assert s == [s[0]] + s[1..];
      var sorted := SortByHeight(s[1..]);
      InsertKeepsDescending(s[0], sorted);
      InsertByHeight(s[0], sorted)
  }

  /**
   * The id of `visible[0]` after filtering and sorting, when there is one.
   * The selection rule: a winner exists exactly when some record
   * intersects, and it is the id of the record that ranks first.
   */
  function Winner(records: seq<Entry>): (w: Option<string>)
    ensures w.None? <==> !AnyIntersecting(records)
    ensures w.Some? ==> exists k :: RanksFirst(records, k) && w.value == records[k].id
  {
    var ranked := SortByHeight(Visible(records));
    if ranked == [] then None
    else
      HeadRanksFirst(records);
      Some(ranked[0].id)
  }

  /**
   * The head of the ranking is the first tallest intersecting record:
   * Map order plus a stable sort send ties to the earliest inserted id.
   */
  lemma {:induction false} HeadRanksFirst(records: seq<Entry>)
    requires AnyIntersecting(records)
    ensures SortByHeight(Visible(records)) != []
    ensures exists k :: RanksFirst(records, k) && SortByHeight(Visible(records))[0] == records[k]
  {
    var rest := records[1..];
    var r0 := records[0];
    if AnyIntersecting(rest) {
      HeadRanksFirst(rest);
      var k' :| RanksFirst(rest, k') && SortByHeight(Visible(rest))[0] == rest[k'];
      if r0.isIntersecting {
        VisibleCons(records);
        var head := SortByHeight(Visible(records))[0];
        if rest[k'].height <= r0.height {
          assert head == r0;
          TallerHeadRanksFirst(records, k');
        } else {
          assert head == rest[k'];
          ShorterHeadRanksFirst(records, k');
        }
      } else {
        assert Visible(records) == Visible(rest);
        ShorterHeadRanksFirst(records, k');
      }
    } else {
      assert r0.isIntersecting by {
        var j :| 0 <= j < |records| && records[j].isIntersecting;
        if j > 0 {
          assert rest[j - 1].isIntersecting;
        }
      }
      VisibleCons(records);
      assert Visible(records) == [r0];
      TallerHeadRanksFirst(records, 0);
    }
  }

  /** An intersecting first record: it is inserted into the ranking of the rest. */
  lemma VisibleCons(records: seq<Entry>)
    requires records != [] && records[0].isIntersecting
    ensures Visible(records) == [records[0]] + Visible(records[1..])
    ensures SortByHeight(Visible(records)) == InsertByHeight(records[0], SortByHeight(Visible(records[1..])))
  {
    assert ([records[0]] + Visible(records[1..]))[1..] == Visible(records[1..]);
  }

  /** The first record ranks first when it intersects and is at least as tall as the rest's winner. */
  lemma TallerHeadRanksFirst(records: seq<Entry>, k': int)
    requires records != [] && records[0].isIntersecting
    requires AnyIntersecting(records[1..]) ==>
      RanksFirst(records[1..], k') && records[1..][k'].height <= records[0].height
    ensures RanksFirst(records, 0)
  {
    forall j | 0 <= j < |records| && records[j].isIntersecting
      ensures records[j].height <= records[0].height
    {
      if j > 0 {
        assert records[1..][j - 1] == records[j];
      }
    }
  }

  /** The rest's winner ranks first when the first record does not beat it. */
  lemma ShorterHeadRanksFirst(records: seq<Entry>, k': int)
    requires records != [] && RanksFirst(records[1..], k')
    requires records[0].isIntersecting ==> records[0].height < records[1..][k'].height
    ensures RanksFirst(records, k' + 1)
  {
    forall j | 0 <= j < |records| && records[j].isIntersecting
      ensures records[j].height <= records[k' + 1].height
    {
      if j > 0 {
        assert records[1..][j - 1] == records[j];
      }
    }
    forall j | 0 <= j < k' + 1 && records[j].isIntersecting
      ensures records[j].height < records[k' + 1].height
    {
      if j > 0 {
        assert records[1..][j - 1] == records[j];
      }
    }
  }

  /** The record that ranks first is the one whose id becomes active. */
  lemma RanksFirstWins(records: seq<Entry>, k: nat)
    requires RanksFirst(records, k)
    ensures Winner(records) == Some(records[k].id)
  {
    var k' :| RanksFirst(records, k') && Winner(records).value == records[k'].id;
    RanksFirstUnique(records, k, k');
  }

  /**
   * Ties: of two intersecting records of the same, largest height, the one
   * inserted later never wins (with distinct ids).
   */
  lemma TieGoesToEarlierRecord(records: seq<Entry>, i: nat, j: nat)
    requires UniqueIds(records)
    requires i < j < |records|
    requires records[i].isIntersecting && records[j].isIntersecting
    requires records[i].height == records[j].height
    ensures Winner(records) != Some(records[j].id)
  {
    if Winner(records).Some? {
      var k :| RanksFirst(records, k) && Winner(records).value == records[k].id;
      assert k != j;
    }
  }

  // ---------------------------------------------------------------------
  // Near-bottom fallback
  // ---------------------------------------------------------------------

  /** The viewport's bottom edge is at most `BottomMargin` pixels above the end of the document. */
  function NearBottom(g: Geometry): (near: bool)
    ensures near <==> g.bodyHeight - (g.scrollY + g.innerHeight) <= BottomMargin
  {
    g.innerHeight + g.scrollY >= g.bodyHeight - BottomMargin
  }

  /** Scrolling further down never leaves the bottom zone. */
  lemma NearBottomStaysNear(g: Geometry, further: Geometry)
    requires further.innerHeight == g.innerHeight && further.bodyHeight == g.bodyHeight
    requires further.scrollY >= g.scrollY
    ensures NearBottom(g) ==> NearBottom(further)
  {
  }

  /** `handleScroll`'s effect on the active id. */
  function AfterScroll(active: string, ids: seq<string>, g: Geometry): (r: string)
    ensures ids != [] && NearBottom(g) ==> r == ids[|ids| - 1]
    ensures !(ids != [] && NearBottom(g)) ==> r == active
  {
    if ids == [] then active
    else if NearBottom(g) then
      var lastId := ids[|ids| - 1];
      if active == lastId then active else lastId
    else active
  }

  /** Handling the same scroll position twice changes nothing more. */
  lemma AfterScrollIdempotent(active: string, ids: seq<string>, g: Geometry)
    ensures AfterScroll(AfterScroll(active, ids, g), ids, g) == AfterScroll(active, ids, g)
  {
  }

  // ---------------------------------------------------------------------
  // The hook's state
  // ---------------------------------------------------------------------

  /** `sectionIds.map(getElementById).filter(Boolean)`, with `present` the ids found in the document. */
  function Targets(ids: seq<string>, present: set<string>): (r: seq<string>)
    ensures |r| <= |ids|
    ensures forall id :: id in r <==> id in ids && id in present
  {
    if ids == [] then []
    else
      assert ids == [ids[0]] + ids[1..];
      (if ids[0] in present then [ids[0]] else []) + Targets(ids[1..], present)
  }

  /**
   * One mounted `useActiveSection`: the active id, the ids it was given,
   * the record map, the targets the observer watches (none when
   * disconnected) and whether the scroll listener is attached.
   */
  class ActiveSectionTracker {
    var activeId: string
    var sectionIds: seq<string>
    var records: seq<Entry>
    var observed: seq<string>
    var scrollListening: bool

    /** The map holds each id once and only ids the observer watches. */
    ghost predicate Valid()
      reads this
    {
      && UniqueIds(records)
      && (scrollListening <==> observed != [])
      && (observed == [] ==> records == [])
      && (forall x :: x in records ==> x.id in observed)
      && (forall id :: id in observed ==> id in sectionIds)
    }

    /** The first render: `useState(sectionIds[0] ?? "")`, an empty map, nothing installed. */
    constructor (ids: seq<string>)
      ensures Valid()
      ensures activeId == (if ids == [] then "" else ids[0])
      ensures sectionIds == ids && records == [] && observed == [] && !scrollListening
    {
      activeId := if ids == [] then "" else ids[0];
      sectionIds := ids;
      records := [];
      observed := [];
      scrollListening := false;
    }

    /**
     * The effect body, run on mount and after the previous run's cleanup
     * when the ids change. An empty list resets the active id and
     * installs nothing; ids of which none is in the document install
     * nothing; otherwise the map is cleared, the targets observed and the
     * scroll listener attached.
     */
    method RunEffect(ids: seq<string>, present: set<string>)
      requires Valid() && observed == []
      modifies this
      ensures Valid()
      ensures sectionIds == ids
      ensures activeId == (if ids == [] then "" else old(activeId))
      ensures records == []
      ensures observed == (if ids == [] then [] else Targets(ids, present))
      ensures scrollListening == (observed != [])
    {
      sectionIds := ids;
      if ids == [] {
        activeId := "";
        return;
      }
      var targets := Targets(ids, present);
      if targets == [] {
        return;
      }
      records := [];
      observed := targets;
      scrollListening := true;
    }

    /**
     * The observer callback: record every entry of the batch, then make
     * the winner of the ranking active; with no intersecting record the
     * active id stays.
     */
    method OnIntersect(batch: seq<Entry>)
      requires Valid() && observed != []
      requires forall e :: e in batch ==> e.id in observed
      modifies this
      ensures Valid()
      ensures records == PutAll(old(records), batch)
      ensures activeId == Winner(records).GetOr(old(activeId))
      ensures sectionIds == old(sectionIds) && observed == old(observed)
      ensures scrollListening == old(scrollListening)
    {
      var i := 0;
      while i < |batch|
        invariant 0 <= i <= |batch|
        invariant records == PutAll(old(records), batch[..i])
        invariant activeId == old(activeId) && sectionIds == old(sectionIds)
        invariant observed == old(observed) && scrollListening == old(scrollListening)
      {
        assert batch[..i + 1][..i] == batch[..i];
        records := Put(records, batch[i]);
        i := i + 1;
      }
      assert batch[..i] == batch;
      var winner := Winner(records);
      if winner.Some? {
        activeId := winner.value;
      }
    }

    /** The scroll listener: near the bottom, the last section becomes active. */
    method OnScroll(g: Geometry)
      requires Valid() && scrollListening
      modifies this
      ensures Valid()
      ensures activeId == AfterScroll(old(activeId), sectionIds, g)
      ensures sectionIds == old(sectionIds) && records == old(records)
      ensures observed == old(observed) && scrollListening == old(scrollListening)
    {
      if sectionIds == [] {
        return;
      }
      if NearBottom(g) {
        var lastId := sectionIds[|sectionIds| - 1];
        activeId := if activeId == lastId then activeId else lastId;
      }
    }

    /** The effect's cleanup: disconnect, detach the listener, clear the map. */
    method Cleanup()
      requires Valid()
      modifies this
      ensures Valid()
      ensures observed == [] && !scrollListening && records == []
      ensures activeId == old(activeId) && sectionIds == old(sectionIds)
    {
      observed := [];
      scrollListening := false;
      records := [];
    }
  }
}
