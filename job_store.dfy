/**
 * The `jobs` table as the job processor and the jobs endpoint see it: a keyed map of records
 * with single-row reads, partial updates, inserts that fill in the column defaults, and a
 * filtered listing ordered from newest to oldest.
 */
module JobStore {
  import opened Wrappers
  import opened JobModel

  /** The listing filter: all jobs, or the jobs whose stored status reads exactly so. */
  predicate Matches(j: Job, filter: Option<string>) {
    filter.None? || StatusName(j.status) == filter.value
  }

  /** Newest first (`order('createdAt', { ascending: false })`). */
  predicate NewestFirst(js: seq<Job>) {
    forall i, k :: 0 <= i < k < |js| ==> js[k].createdAt <= js[i].createdAt
  }

  predicate DistinctIds(js: seq<Job>) {
    forall i, k :: 0 <= i < k < |js| ==> js[i].id != js[k].id
  }

  /** The columns an insert supplies. */
  datatype NewJob = NewJob(jobType: string, status: Status, input: Input, updatedAt: Time)

  /** A nonempty set of ids has a record created no earlier than any other. */
  lemma {:induction false} HasNewest(t: Table, s: set<JobId>)
    requires s != {} && s <= t.Keys
    ensures exists k :: k in s && forall k2 :: k2 in s ==> t[k2].createdAt <= t[k].createdAt
    decreases |s|
  {
    var x :| x in s;
    if s != {x} {
      HasNewest(t, s - {x});
      var m :| m in s - {x} && forall k2 :: k2 in s - {x} ==> t[k2].createdAt <= t[m].createdAt;
      if t[m].createdAt < t[x].createdAt {
        assert forall k2 :: k2 in s ==> t[k2].createdAt <= t[x].createdAt;
      } else {
        assert forall k2 :: k2 in s ==> t[k2].createdAt <= t[m].createdAt;
      }
    }
  }

  /** Appending a record no newer than, and distinct from, every listed one keeps the listing ordered. */
  lemma AppendOlder(out: seq<Job>, j: Job)
    requires NewestFirst(out) && DistinctIds(out)
    requires forall i :: 0 <= i < |out| ==> j.createdAt <= out[i].createdAt && out[i].id != j.id
    ensures NewestFirst(out + [j]) && DistinctIds(out + [j])
  {
  }

  /**
   * The state of the selection loop: `out` lists the records of `done`, newest first, and
   * every record still in `remaining` is no newer than any listed one.
   */
  predicate Selected(t: Table, ids: set<JobId>, remaining: set<JobId>, done: set<JobId>, out: seq<Job>)
    requires ids <= t.Keys
  {
    && remaining + done == ids && remaining !! done
    && (forall i :: 0 <= i < |out| ==> out[i].id in done && t[out[i].id] == out[i])
    && (forall k :: k in done ==> t[k] in out)
    && (forall i, k :: 0 <= i < |out| && k in remaining ==> t[k].createdAt <= out[i].createdAt)
    && NewestFirst(out) && DistinctIds(out)
  }

  /** Moving the newest remaining record to the end of the listing keeps the loop state. */
  lemma SelectNewest(t: Table, ids: set<JobId>, remaining: set<JobId>, done: set<JobId>, out: seq<Job>, k: JobId)
    requires WellKeyed(t) && ids <= t.Keys
    requires Selected(t, ids, remaining, done, out)
    requires k in remaining && forall k2 :: k2 in remaining ==> t[k2].createdAt <= t[k].createdAt
    ensures Selected(t, ids, remaining - {k}, done + {k}, out + [t[k]])
  {
    var out' := out + [t[k]];
    assert forall i :: 0 <= i < |out| ==> out[i].id != k;
    AppendOlder(out, t[k]);
    assert forall i :: 0 <= i < |out| ==> out'[i] == out[i];
    assert out'[|out|] == t[k] && t[k].id == k;
    forall k2 | k2 in done + {k} ensures t[k2] in out' {
      if k2 != k {
        assert t[k2] in out;
      }
    }
  }

  /** The records of `ids`, each once, newest first: a selection of the newest remaining record. */
  method NewestFirstOf(t: Table, ids: set<JobId>) returns (out: seq<Job>)
    requires WellKeyed(t) && ids <= t.Keys
    ensures forall i :: 0 <= i < |out| ==> out[i].id in ids && t[out[i].id] == out[i]
    ensures forall k :: k in ids ==> t[k] in out
    ensures NewestFirst(out) && DistinctIds(out)
  {
    var remaining := ids;
    ghost var done: set<JobId> := {};
    out := [];
    while remaining != {}
      invariant Selected(t, ids, remaining, done, out)
      decreases |remaining|
    {
      HasNewest(t, remaining);
      var k :| k in remaining && forall k2 :: k2 in remaining ==> t[k2].createdAt <= t[k].createdAt;
      SelectNewest(t, ids, remaining, done, out, k);
      out := out + [t[k]];
      remaining := remaining - {k};
      done := done + {k};
    }
  }

  class Store {
    var jobs: Table
    /** The column default for `maxRetries`. */
    const defaultMaxRetries: int

    predicate Valid()
      reads this
    {
      WellKeyed(jobs)
    }

    constructor(defaultMaxRetries: int)
      ensures Valid()
      ensures jobs == map[] && this.defaultMaxRetries == defaultMaxRetries
    {
      jobs := map[];
      this.defaultMaxRetries := defaultMaxRetries;
    }

    /** `select('*').eq('id', id).single()`: the record, or nothing when there is no such row. */
    method Read(id: JobId) returns (j: Option<Job>)
      requires Valid()
      ensures j.Some? <==> id in jobs
      ensures j.Some? ==> j.value == jobs[id] && j.value.id == id
    {
      j := Lookup(jobs, id);
    }

    /** `update(p).eq('id', id)`. */
    method Update(id: JobId, p: Patch)
      requires Valid()
      modifies this
      ensures Valid()
      ensures jobs == PatchTable(old(jobs), id, p)
    {
      jobs := PatchTable(jobs, id, p);
    }

    /**
     * `insert(row).select().single()`. The database chooses the id and the creation time;
     * the other columns take their defaults. A colliding id or a database fault is an error
     * and leaves the table as it was.
     */
    method Insert(row: NewJob, id: JobId, createdAt: Time, fault: bool) returns (r: Result<Job, string>)
      requires Valid()
      modifies this
      ensures Valid()
      ensures r.Success? <==> !fault && id !in old(jobs)
      ensures r.Success? ==>
                r.value == Job(id, row.jobType, row.status, row.input, None, None, 0, defaultMaxRetries,
                               createdAt, row.updatedAt, None, None)
                && jobs == old(jobs)[id := r.value]
      ensures r.Failure? ==> jobs == old(jobs)
    {
      if fault || id in jobs {
        return Failure("insert failed");
      }
      var j := Job(id, row.jobType, row.status, row.input, None, None, 0, defaultMaxRetries,
                   createdAt, row.updatedAt, None, None);
      jobs := jobs[id := j];
      return Success(j);
    }

    /**
     * `select('*').order('createdAt', { ascending: false })`, narrowed by `eq('status', s)`
     * when a filter is given: exactly the matching records, each once, newest first.
     */
    method Query(filter: Option<string>, fault: bool) returns (r: Result<seq<Job>, string>)
      requires Valid()
      ensures r.Failure? <==> fault
      ensures r.Success? ==> forall j :: j in r.value <==> j in jobs.Values && Matches(j, filter)
      ensures r.Success? ==> NewestFirst(r.value) && DistinctIds(r.value)
    {
      if fault {
        return Failure("query failed");
      }
      var matching := set k | k in jobs && Matches(jobs[k], filter);
      var out := NewestFirstOf(jobs, matching);
      r := Success(out);
      forall j | j in jobs.Values && Matches(j, filter) ensures j in out {
        var k :| k in jobs && jobs[k] == j;
        assert k in matching;
      }
    }
  }
}
