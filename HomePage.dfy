/**
 * The home page wires the scroll-spy to the navigation bar: while the
 * intro plays the hook gets no ids; afterwards it tracks the six home
 * sections and its active id becomes the bar's `activeSectionId`.
 */
module HomePage {
  import opened Wrappers
  import opened Content
  import opened ActiveSection
  import opened Navigation

  /** In a first batch of distinct ids, the record that ranks first becomes active. */
  lemma FirstBatchWinner(batch: seq<Entry>, k: nat)
    requires UniqueIds(batch) && RanksFirst(batch, k)
    ensures Winner(PutAll([], batch)) == Some(batch[k].id)
  {
    assert [] + batch == batch;
    PutAllFresh([], batch);
    RanksFirstWins(batch, k);
  }

  /** Labels name entries: they are pairwise distinct. */
  lemma LabelNamesEntry(n: nat)
    requires n < |navigation|
    ensures forall i :: 0 <= i < |navigation| ==> (navigation[i].labelText == navigation[n].labelText <==> i == n)
  {
    NavigationKeysDistinct();
  }

  /** On the home page, an active id naming a section entry highlights that entry alone. */
  lemma OnlySectionHighlighted(activeSectionId: string, n: nat)
    requires n < |navigation| && navigation[n].kind == Section && navigation[n].href == activeSectionId
    ensures forall i :: 0 <= i < |navigation| ==>
      (DesktopLinks(navigation, ContextOf(Some("/"), Some(activeSectionId)))[i].active <==>
       navigation[i].labelText == navigation[n].labelText)
  {
    var ctx := ContextOf(Some("/"), Some(activeSectionId));
    assert ctx.sectionId == Some(activeSectionId);
    assert IsItemActive(navigation[n], ctx);
    forall i | 0 <= i < |navigation| && IsItemActive(navigation[i], ctx)
      ensures i == n
    {
      HomeHighlightsAtMostOne(Some(activeSectionId), i, n);
    }
    LabelNamesEntry(n);
  }

  /** On the home page, an empty active id highlights "Overview" alone. */
  lemma OverviewHighlighted()
    ensures forall i :: 0 <= i < |navigation| ==>
      (DesktopLinks(navigation, ContextOf(Some("/"), Some("")))[i].active <==> navigation[i].labelText == "Overview")
  {
    HomeDefaultsToOverview(Some("/"), Some(""));
    LabelNamesEntry(0);
  }

  /**
   * The tracker's side of the home page: given no ids while the intro
   * plays, its active id is ""; once the sections are tracked, a first
   * batch in which "architecture" ranks first makes it the active id.
   */
  method TrackHome(present: set<string>, batch: seq<Entry>, k: nat)
    returns (whileLoading: string, afterBatch: string)
    requires forall e :: e in batch ==> e.id in homeSectionIds && e.id in present
    requires UniqueIds(batch) && RanksFirst(batch, k) && batch[k].id == "architecture"
    ensures whileLoading == "" && afterBatch == "architecture"
  {
    var tracker := new ActiveSectionTracker([]);
    tracker.RunEffect([], {});
    whileLoading := tracker.activeId;

    tracker.Cleanup();
    tracker.RunEffect(homeSectionIds, present);
    tracker.OnIntersect(batch);
    FirstBatchWinner(batch, k);
    afterBatch := tracker.activeId;
  }

  /**
   * The home page end to end: while the intro plays the bar highlights
   * "Overview"; once loaded, a first observer batch in which
   * "architecture" ranks first makes "Architecture" the only highlighted
   * entry.
   */
  method ArchitectureScenario(present: set<string>, batch: seq<Entry>, k: nat)
    returns (whileLoading: seq<NavLink>, afterBatch: seq<NavLink>)
    requires forall e :: e in batch ==> e.id in homeSectionIds && e.id in present
    requires UniqueIds(batch) && RanksFirst(batch, k) && batch[k].id == "architecture"
    ensures |whileLoading| == |navigation| && |afterBatch| == |navigation|
    ensures forall i :: 0 <= i < |navigation| ==> (whileLoading[i].active <==> navigation[i].labelText == "Overview")
    ensures forall i :: 0 <= i < |navigation| ==> (afterBatch[i].active <==> navigation[i].labelText == "Architecture")
  {
    var loadingId, afterId := TrackHome(present, batch, k);
    OverviewHighlighted();
    whileLoading := DesktopLinks(navigation, ContextOf(Some("/"), Some(loadingId)));
    assert navigation[3].labelText == "Architecture" && navigation[3].href == "architecture";
    OnlySectionHighlighted(afterId, 3);
    afterBatch := DesktopLinks(navigation, ContextOf(Some("/"), Some(afterId)));
  }

  /**
   * Ids none of which is in the document install nothing and leave the
   * active id at its initial value, the first id, rather than "".
   */
  method NoTargetsKeepsFirstId() returns (active: string)
    ensures active == "overview"
  {
    var tracker := new ActiveSectionTracker(homeSectionIds);
    tracker.RunEffect(homeSectionIds, {});
    active := tracker.activeId;
  }
}
