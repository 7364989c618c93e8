/**
 * `useJobRestore`: after a reload, the client lists the `PROCESSING` jobs and reattaches each
 * one to the placeholder entry it was submitted for, named by `input._metadata`. The loop of
 * `restoreJobs` is a method proved against `Collect`, a function over the job list.
 */
module JobRestore {
  import opened Wrappers
  import opened Text
  import opened ListOps
  import opened Entities
  import opened JobModel

  /** The `targetTab` values the restore understands. */
  function TabCollection(targetTab: Option<string>): (c: Option<Collection>)
    ensures targetTab == Some("style") ==> c == Some(Styles)
    ensures targetTab == Some("sources") ==> c == Some(Sources)
    ensures targetTab == Some("scenario") ==> c == Some(Scenarios)
    ensures c.Some? ==> targetTab.Some? && targetTab.value in {"style", "sources", "scenario"}
  {
    if targetTab == Some("style") then Some(Styles)
    else if targetTab == Some("sources") then Some(Sources)
    else if targetTab == Some("scenario") then Some(Scenarios)
    else None
  }

  /** A collection fetch: the entries of an ok response, a non-ok response, or an exception. */
  datatype ItemsReply = ItemsOk(items: seq<Item>) | ItemsNotOk | ItemsThrew

  /** The jobs fetch: the listed jobs, a non-ok response, or an exception. */
  datatype JobsReply = JobsOk(jobs: seq<Job>) | JobsNotOk | JobsThrew

  /** What is remembered of a reattached job. */
  datatype JobInfo = JobInfo(itemId: string, targetTab: string, loadingItem: Item)

  datatype RestoreResult = RestoreResult(loadingItems: seq<Item>, activeJobs: map<JobId, JobInfo>)

  /** What the loop does with one job: skip it, reattach it, or abandon the restore on an exception. */
  datatype Pick = Skip | Take(info: JobInfo) | Abort

  /** `job.input?._metadata || {}`, read as `{ itemId, targetTab }`. */
  function ItemIdOf(j: Job): Option<string> {
    if j.input.metadata.Some? then j.input.metadata.value.itemId else None
  }

  function TargetTabOf(j: Job): Option<string> {
    if j.input.metadata.Some? then j.input.metadata.value.targetTab else None
  }

  /** A job the loop looks an entry up for: it has a truthy `itemId` and a tab the restore knows. */
  predicate Attachable(j: Job) {
    Truthy(ItemIdOf(j)) && TabCollection(TargetTabOf(j)).Some?
  }

  /** `items[i]` is the entry `items.find(item => item.id === id)` returns. */
  predicate FirstWithId(items: seq<Item>, id: string, i: int) {
    0 <= i < |items| && items[i].id == id && forall k :: 0 <= k < i ==> items[k].id != id
  }

  /** At most one position is the first with a given id. */
  lemma FirstWithIdUnique(items: seq<Item>, id: string, i: int, i': int)
    requires FirstWithId(items, id, i) && FirstWithId(items, id, i')
    ensures i == i'
  {
  }

  /**
   * One turn of the loop. `fetch(j, c)` is the reply the collection request made for job `j`
   * meets; the entry found is the first one with the job's `itemId`.
   */
  function PickFor(j: Job, fetch: (Job, Collection) -> ItemsReply): (p: Pick)
    ensures !Attachable(j) ==> p == Skip
    ensures Attachable(j) ==> (p == Abort <==> fetch(j, TabCollection(TargetTabOf(j)).value).ItemsThrew?)
    ensures Attachable(j) && fetch(j, TabCollection(TargetTabOf(j)).value).ItemsNotOk? ==> p == Skip
    ensures Attachable(j) && fetch(j, TabCollection(TargetTabOf(j)).value).ItemsOk? ==>
              var items := fetch(j, TabCollection(TargetTabOf(j)).value).items;
              forall i :: FirstWithId(items, ItemIdOf(j).value, i) ==>
                p == if IsLoading(items[i]) then Take(JobInfo(ItemIdOf(j).value, TargetTabOf(j).value, items[i])) else Skip
    ensures Attachable(j) && fetch(j, TabCollection(TargetTabOf(j)).value).ItemsOk? ==>
              var items := fetch(j, TabCollection(TargetTabOf(j)).value).items;
              (forall i :: 0 <= i < |items| ==> items[i].id != ItemIdOf(j).value) ==> p == Skip
    ensures p.Take? ==>
              && Attachable(j)
              && p.info.itemId == ItemIdOf(j).value && Some(p.info.targetTab) == TargetTabOf(j)
              && fetch(j, TabCollection(TargetTabOf(j)).value).ItemsOk?
              && p.info.loadingItem in fetch(j, TabCollection(TargetTabOf(j)).value).items
              && p.info.loadingItem.id == p.info.itemId
              && IsLoading(p.info.loadingItem)
  {
    var itemId := ItemIdOf(j);
    if !Truthy(itemId) then Skip
    else match TabCollection(TargetTabOf(j))
      case None => Skip
      case Some(c) =>
        match fetch(j, c)
        case ItemsThrew => Abort
        case ItemsNotOk => Skip
        case ItemsOk(items) =>
          match Find(items, (item: Item) => item.id == itemId.value)
          case None => Skip
          case Some(item) =>
            assert forall i :: FirstWithId(items, itemId.value, i) ==> items[i] == item by {
              var i' :| 0 <= i' < |items| && items[i'] == item && item.id == itemId.value
                        && (forall k :: 0 <= k < i' ==> items[k].id != itemId.value);
              forall i | FirstWithId(items, itemId.value, i) ensures items[i] == item {
                FirstWithIdUnique(items, itemId.value, i, i');
              }
            }
            if IsLoading(item) then Take(JobInfo(itemId.value, TargetTabOf(j).value, item)) else Skip
  }

  /** The result of the loop over `jobs`, or `None` when an exception abandons it. */
  function Collect(jobs: seq<Job>, fetch: (Job, Collection) -> ItemsReply): Option<RestoreResult>
    decreases |jobs|
  {
    if |jobs| == 0 then Some(RestoreResult([], map[]))
    else
      var last := jobs[|jobs| - 1];
      match Collect(jobs[..|jobs| - 1], fetch)
      case None => None
      case Some(r) =>
        match PickFor(last, fetch)
        case Abort => None
        case Skip => Some(r)
        case Take(info) => Some(RestoreResult(r.loadingItems + [info.loadingItem], r.activeJobs[last.id := info]))
  }

  /** The reattached jobs of `jobs`, in list order. */
  function Taken(jobs: seq<Job>, fetch: (Job, Collection) -> ItemsReply): (r: seq<Job>)
    ensures forall i :: 0 <= i < |r| ==> r[i] in jobs && PickFor(r[i], fetch).Take?
    decreases |jobs|
  {
    if |jobs| == 0 then []
    else Taken(jobs[..|jobs| - 1], fetch) + (if PickFor(jobs[|jobs| - 1], fetch).Take? then [jobs[|jobs| - 1]] else [])
  }

  class Restorer {
    var isRestoring: bool
    var restoreResult: RestoreResult

    constructor()
      ensures isRestoring && restoreResult == RestoreResult([], map[])
    {
      isRestoring := true;
      restoreResult := RestoreResult([], map[]);
    }

    /**
     * `restoreJobs`: the result is replaced only when the whole loop runs through, and the
     * flag is lowered on every path (the `finally` clause).
     */
    method RestoreJobs(reply: JobsReply, fetch: (Job, Collection) -> ItemsReply)
      modifies this
      ensures !isRestoring
      ensures reply.JobsOk? && |reply.jobs| > 0 && Collect(reply.jobs, fetch).Some? ==>
                restoreResult == Collect(reply.jobs, fetch).value
      ensures !(reply.JobsOk? && |reply.jobs| > 0 && Collect(reply.jobs, fetch).Some?) ==>
                restoreResult == old(restoreResult)
    {
      if !reply.JobsOk? {
        isRestoring := false;
        return;
      }
      var jobs := reply.jobs;
      if |jobs| == 0 {
        isRestoring := false;
        return;
      }
      var loadingItems: seq<Item> := [];
      var activeJobs: map<JobId, JobInfo> := map[];
      var i := 0;
      while i < |jobs|
        invariant 0 <= i <= |jobs|
        invariant Collect(jobs[..i], fetch) == Some(RestoreResult(loadingItems, activeJobs))
        invariant restoreResult == old(restoreResult)
      {
        CollectStep(jobs, i, fetch);
        var job := jobs[i];
        var itemId := ItemIdOf(job);
        var targetTab := TargetTabOf(job);
        if !Truthy(itemId) {
          i := i + 1;
          continue;
        }
        var c: Collection;
        if targetTab == Some("style") {
          c := Styles;
        } else if targetTab == Some("sources") {
          c := Sources;
        } else if targetTab == Some("scenario") {
          c := Scenarios;
        } else {
          i := i + 1;
          continue;
        }
        var itemsReply := fetch(job, c);
        if itemsReply.ItemsThrew? {
          assert PickFor(job, fetch) == Abort;
          AbortStays(jobs, i + 1, fetch);
          assert Collect(reply.jobs, fetch).None?;
          isRestoring := false;
          return;
        }
        if itemsReply.ItemsNotOk? {
          i := i + 1;
          continue;
        }
        var loadingItem := Find(itemsReply.items, (item: Item) => item.id == itemId.value);
        if loadingItem.Some? && IsLoading(loadingItem.value) {
          loadingItems := loadingItems + [loadingItem.value];
          activeJobs := activeJobs[job.id := JobInfo(itemId.value, targetTab.value, loadingItem.value)];
        }
        i := i + 1;
      }
      assert jobs[..|jobs|] == jobs;
      restoreResult := RestoreResult(loadingItems, activeJobs);
      isRestoring := false;
    }
  }

  /** One more turn of the loop: the result so far, updated by the pick of the next job. */
  lemma CollectStep(jobs: seq<Job>, i: nat, fetch: (Job, Collection) -> ItemsReply)
    requires i < |jobs|
    ensures Collect(jobs[..i + 1], fetch) ==
              match Collect(jobs[..i], fetch)
              case None => None
              case Some(r) =>
                match PickFor(jobs[i], fetch)
                case Abort => None
                case Skip => Some(r)
                case Take(info) => Some(RestoreResult(r.loadingItems + [info.loadingItem], r.activeJobs[jobs[i].id := info]))
  {
    assert jobs[..i + 1][..i] == jobs[..i];
  }

  /** Once the loop is abandoned, a longer list is abandoned too. */
  lemma {:induction false} AbortStays(jobs: seq<Job>, n: nat, fetch: (Job, Collection) -> ItemsReply)
    requires n <= |jobs| && Collect(jobs[..n], fetch).None?
    ensures Collect(jobs, fetch).None?
    decreases |jobs| - n
  {
    if n < |jobs| {
      assert jobs[..n + 1][..n] == jobs[..n];
      AbortStays(jobs, n + 1, fetch);
    } else {
      assert jobs[..n] == jobs;
    }
  }

  // Properties of the restore.

  /** An empty job list restores nothing. */
  lemma EmptyRestoresNothing(fetch: (Job, Collection) -> ItemsReply)
    ensures Collect([], fetch) == Some(RestoreResult([], map[]))
  {
  }

  /**
   * Each reattached job adds exactly one loading entry, in list order, and one `activeJobs`
   * entry under its own id; skipped jobs add nothing.
   */
  lemma {:induction false} CollectCounts(jobs: seq<Job>, fetch: (Job, Collection) -> ItemsReply)
    requires Collect(jobs, fetch).Some?
    ensures var r := Collect(jobs, fetch).value;
            && |r.loadingItems| == |Taken(jobs, fetch)|
            && (forall i :: 0 <= i < |r.loadingItems| ==>
                  r.loadingItems[i] == PickFor(Taken(jobs, fetch)[i], fetch).info.loadingItem)
            && (forall k :: k in r.activeJobs <==> exists i :: 0 <= i < |Taken(jobs, fetch)| && Taken(jobs, fetch)[i].id == k)
    decreases |jobs|
  {
    if |jobs| > 0 {
      var init := jobs[..|jobs| - 1];
      var last := jobs[|jobs| - 1];
      CollectCounts(init, fetch);
      var r0 := Collect(init, fetch).value;
      var t0 := Taken(init, fetch);
      if PickFor(last, fetch).Take? {
        var info := PickFor(last, fetch).info;
        var t := Taken(jobs, fetch);
        assert t == t0 + [last];
        var r := Collect(jobs, fetch).value;
        assert r == RestoreResult(r0.loadingItems + [info.loadingItem], r0.activeJobs[last.id := info]);
        EntriesAfterTake(r0.loadingItems, t0, last, fetch);
        KeysAfterTake(r0.activeJobs, t0, last, info, r.activeJobs, t);
      } else {
        assert Taken(jobs, fetch) == t0;
      }
    }
  }

  /** The loading entries stay in step with the taken jobs when one more job is taken. */
  lemma EntriesAfterTake(items: seq<Item>, t0: seq<Job>, last: Job, fetch: (Job, Collection) -> ItemsReply)
    requires |items| == |t0| && PickFor(last, fetch).Take?
    requires forall i :: 0 <= i < |t0| ==> PickFor(t0[i], fetch).Take?
    requires forall i :: 0 <= i < |items| ==> items[i] == PickFor(t0[i], fetch).info.loadingItem
    ensures var items' := items + [PickFor(last, fetch).info.loadingItem];
            var t := t0 + [last];
            |items'| == |t| && forall i :: 0 <= i < |items'| ==> items'[i] == PickFor(t[i], fetch).info.loadingItem
  {
  }

  /** The active-job keys stay the ids of the taken jobs when one more job is taken. */
  lemma KeysAfterTake(m: map<JobId, JobInfo>, t0: seq<Job>, last: Job, info: JobInfo, m': map<JobId, JobInfo>, t: seq<Job>)
    requires forall k :: k in m <==> exists i :: 0 <= i < |t0| && t0[i].id == k
    requires m' == m[last.id := info] && t == t0 + [last]
    ensures forall k :: k in m' <==> exists i :: 0 <= i < |t| && t[i].id == k
  {
    forall k ensures k in m' <==> exists i :: 0 <= i < |t| && t[i].id == k {
      if k == last.id {
        assert t[|t0|].id == k;
      } else if k in m {
        var i :| 0 <= i < |t0| && t0[i].id == k;
        assert t[i] == t0[i];
      }
      if exists i :: 0 <= i < |t| && t[i].id == k {
        var i :| 0 <= i < |t| && t[i].id == k;
        if i < |t0| {
          assert t0[i] == t[i];
        }
      }
    }
  }

  /** A job is reattached only to a loading entry with its `itemId` in the collection its `targetTab` names. */
  lemma {:induction false} ActiveJobsAreLoadingEntries(jobs: seq<Job>, fetch: (Job, Collection) -> ItemsReply, k: JobId)
    requires Collect(jobs, fetch).Some? && k in Collect(jobs, fetch).value.activeJobs
    ensures var info := Collect(jobs, fetch).value.activeJobs[k];
            exists i :: 0 <= i < |jobs| && jobs[i].id == k && PickFor(jobs[i], fetch) == Take(info)
    decreases |jobs|
  {
    var init := jobs[..|jobs| - 1];
    var last := jobs[|jobs| - 1];
    var info := Collect(jobs, fetch).value.activeJobs[k];
    if last.id == k && PickFor(last, fetch).Take? {
      assert jobs[|jobs| - 1] == last;
    } else {
      ActiveJobsAreLoadingEntries(init, fetch, k);
      var i :| 0 <= i < |init| && init[i].id == k && PickFor(init[i], fetch) == Take(info);
      assert jobs[i] == init[i];
    }
  }

  /** A job without an `itemId`, or with a tab the restore does not know, never becomes active. */
  lemma UnattachableJobsSkipped(j: Job, fetch: (Job, Collection) -> ItemsReply)
    requires !Truthy(ItemIdOf(j)) || TabCollection(TargetTabOf(j)).None?
    ensures PickFor(j, fetch) == Skip
  {
  }

  /**
   * A `PROCESSING` job whose metadata names the entry `abc123` on the sources tab, with that
   * entry present and loading in the sources collection, is reattached: the result holds
   * exactly that entry and exactly that job.
   */
  lemma RestoresProcessingJob(j: Job, fetch: (Job, Collection) -> ItemsReply, i: int)
    requires j.status == Processing
    requires j.input.metadata == Some(Metadata(Some("abc123"), Some("sources")))
    requires fetch(j, Sources).ItemsOk?
    requires FirstWithId(fetch(j, Sources).items, "abc123", i) && IsLoading(fetch(j, Sources).items[i])
    ensures var item := fetch(j, Sources).items[i];
            Collect([j], fetch) == Some(RestoreResult([item], map[j.id := JobInfo("abc123", "sources", item)]))
    ensures |Collect([j], fetch).value.loadingItems| == 1 && Collect([j], fetch).value.activeJobs.Keys == {j.id}
  {
    var item := fetch(j, Sources).items[i];
    var info := JobInfo("abc123", "sources", item);
    assert [j][..0] == [];
    assert PickFor(j, fetch) == Take(info);
    assert Collect([j], fetch) == Some(RestoreResult([] + [item], map[][j.id := info]));
    assert [] + [item] == [item] && map[][j.id := info] == map[j.id := info];
  }
}
