/**
 * `useCrud`: a client-side list of records kept in step with one REST endpoint. Each operation
 * sends its request first and changes the list only once the request has succeeded; a failed
 * request throws before the list is touched. `loadInitialData` fetches several endpoints at once.
 */
module Crud {
  import opened Wrappers
  import opened Text
  import opened ListOps

  /** What a request meets: a non-ok response, an ok response with its parsed body, or an exception. */
  datatype Reply<T> = NotOk | Answered(body: T) | Threw(message: string)

  datatype Verb = Fetch | Create | Update | Delete

  function VerbName(v: Verb): string {
    match v
    case Fetch => "fetch"
    case Create => "create"
    case Update => "update"
    case Delete => "delete"
  }

  /**
   * `fetchData`, `createData`, `updateData` and `deleteData`: the parsed body, or the error
   * they throw, `Failed to <verb> <endpoint>` for a non-ok response.
   */
  function Outcome<T>(verb: Verb, endpoint: string, reply: Reply<T>): (r: Result<T, string>)
    ensures r.Success? <==> reply.Answered?
    ensures r.Success? ==> r.value == reply.body
    ensures reply.NotOk? ==> r == Failure("Failed to " + VerbName(verb) + " " + endpoint)
    ensures reply.Threw? ==> r == Failure(reply.message)
  {
    match reply
    case NotOk => Failure("Failed to " + VerbName(verb) + " " + endpoint)
    case Answered(body) => Success(body)
    case Threw(message) => Failure(message)
  }

  /** The URL `deleteData` requests: the `id` query is added only for a truthy id. */
  function DeleteUrl(endpoint: string, id: Option<string>): (url: string)
    ensures IsPrefix("/api" + endpoint, url)
  {
    if Truthy(id) then "/api" + endpoint + "?id=" + id.value else "/api" + endpoint
  }

  /**
   * For an endpoint without a query of its own, the URL carries `?id=` exactly when an id is
   * given, and the id can be read back after it.
   */
  lemma DeleteUrlQuery(endpoint: string, id: Option<string>)
    requires '?' !in endpoint
    ensures Contains(DeleteUrl(endpoint, id), "?id=") <==> Truthy(id)
    ensures Truthy(id) ==> DeleteUrl(endpoint, id)[|endpoint| + 8..] == id.value
  {
    var base := "/api" + endpoint;
    var url := DeleteUrl(endpoint, id);
    if Truthy(id) {
      ContainsInfix(base, "?id=", id.value);
      assert url == base + "?id=" + id.value;
      assert url[|base| + 4..] == id.value;
    } else {
      assert '?' !in base;
      if Contains(url, "?id=") {
        ContainedCharOccurs(url, "?id=", 0);
      }
    }
  }

  /** An empty id is falsy: deleting it requests the same URL as deleting everything. */
  lemma EmptyIdDeletesAll(endpoint: string)
    ensures DeleteUrl(endpoint, Some("")) == DeleteUrl(endpoint, None)
  {
  }

  // The list after each operation, given the outcome of its request.

  function Matching<T>(idOf: T -> string, id: string): T -> bool {
    (x: T) => idOf(x) == id
  }

  function Differing<T>(idOf: T -> string, id: string): T -> bool {
    (x: T) => idOf(x) != id
  }

  function Always<T>(v: T): T -> T {
    (x: T) => v
  }

  /** `create`: the server's record is appended. */
  function AfterCreate<T>(items: seq<T>, r: Result<T, string>): (xs: seq<T>)
    ensures r.Success? ==> |xs| == |items| + 1 && xs[..|items|] == items && xs[|items|] == r.value
    ensures r.Failure? ==> xs == items
  {
    if r.Success? then items + [r.value] else items
  }

  /** `update`: the records with that id are replaced by the server's record. */
  function AfterUpdate<T>(items: seq<T>, idOf: T -> string, id: string, r: Result<T, string>): (xs: seq<T>)
    ensures |xs| == |items|
    ensures r.Success? ==> forall i :: 0 <= i < |items| && idOf(items[i]) == id ==> xs[i] == r.value
    ensures forall i :: 0 <= i < |items| && (r.Failure? || idOf(items[i]) != id) ==> xs[i] == items[i]
  {
    if r.Success? then MapWhere(items, Matching(idOf, id), Always(r.value)) else items
  }

  /** `delete`: the records with that id are removed. */
  function AfterDelete<T>(items: seq<T>, idOf: T -> string, id: string, r: Result<(), string>): (xs: seq<T>)
    ensures r.Success? ==> forall i :: 0 <= i < |xs| ==> idOf(xs[i]) != id
    ensures r.Success? ==> forall i :: 0 <= i < |items| && idOf(items[i]) != id ==> items[i] in xs
    ensures r.Failure? ==> xs == items
  {
    if r.Success? then Filter(items, Differing(idOf, id)) else items
  }

  /** Deleting keeps the other records in their order: deleting from a concatenation deletes from each part. */
  lemma DeleteKeepsOrder<T>(a: seq<T>, b: seq<T>, idOf: T -> string, id: string)
    ensures AfterDelete(a + b, idOf, id, Success(())) == AfterDelete(a, idOf, id, Success(())) + AfterDelete(b, idOf, id, Success(()))
  {
    FilterAppend(a, b, Differing(idOf, id));
  }

  /** Deleting an id no record carries changes nothing. */
  lemma DeleteAbsentIsNoOp<T>(items: seq<T>, idOf: T -> string, id: string)
    requires forall i :: 0 <= i < |items| ==> idOf(items[i]) != id
    ensures AfterDelete(items, idOf, id, Success(())) == items
  {
    FilterKeepsAll(items, Differing(idOf, id));
  }

  /** Creating a record with a fresh id and then deleting that id gives back the list. */
  lemma CreateThenDelete<T>(items: seq<T>, idOf: T -> string, x: T)
    requires forall i :: 0 <= i < |items| ==> idOf(items[i]) != idOf(x)
    ensures AfterDelete(AfterCreate(items, Success(x)), idOf, idOf(x), Success(())) == items
  {
    var p := Differing(idOf, idOf(x));
    FilterAppend(items, [x], p);
    FilterKeepsAll(items, p);
    assert Filter([x], p) == [];
  }

  /** Updating with the server's record and updating again with the same record is one update. */
  lemma UpdateIdempotent<T>(items: seq<T>, idOf: T -> string, id: string, x: T)
    requires idOf(x) == id
    ensures var once := AfterUpdate(items, idOf, id, Success(x));
            AfterUpdate(once, idOf, id, Success(x)) == once
  {
    var once := AfterUpdate(items, idOf, id, Success(x));
    var twice := AfterUpdate(once, idOf, id, Success(x));
    assert |twice| == |once|;
    forall i | 0 <= i < |once| ensures twice[i] == once[i] {
      if idOf(items[i]) == id {
        assert once[i] == x;
      }
    }
  }

  /** The hook's state: the endpoint, the record id accessor, and the list. */
  class Crud<T> {
    const endpoint: string
    const idOf: T -> string
    var items: seq<T>

    constructor(endpoint: string, idOf: T -> string)
      ensures this.endpoint == endpoint && this.idOf == idOf && items == []
    {
      this.endpoint := endpoint;
      this.idOf := idOf;
      items := [];
    }

    method Create(reply: Reply<T>) returns (r: Result<T, string>)
      modifies this
      ensures r == Outcome(Verb.Create, endpoint, reply)
      ensures items == AfterCreate(old(items), r)
    {
      r := Outcome(Verb.Create, endpoint, reply);
      if r.Failure? {
        return;
      }
      items := items + [r.value];
    }

    method Update(id: string, reply: Reply<T>) returns (r: Result<T, string>)
      modifies this
      ensures r == Outcome(Verb.Update, endpoint, reply)
      ensures items == AfterUpdate(old(items), idOf, id, r)
    {
      r := Outcome(Verb.Update, endpoint, reply);
      if r.Failure? {
        return;
      }
      items := MapWhere(items, Matching(idOf, id), Always(r.value));
    }

    /** `server` answers a DELETE request for a URL. */
    method DeleteItem(id: string, server: string -> Reply<()>) returns (r: Result<(), string>)
      modifies this
      ensures r == Outcome(Verb.Delete, endpoint, server(DeleteUrl(endpoint, Some(id))))
      ensures items == AfterDelete(old(items), idOf, id, r)
    {
      r := Outcome(Verb.Delete, endpoint, server(DeleteUrl(endpoint, Some(id))));
      if r.Failure? {
        return;
      }
      items := Filter(items, Differing(idOf, id));
    }

    method DeleteAll(server: string -> Reply<()>) returns (r: Result<(), string>)
      modifies this
      ensures r == Outcome(Verb.Delete, endpoint, server(DeleteUrl(endpoint, None)))
      ensures r.Success? ==> items == []
      ensures r.Failure? ==> items == old(items)
    {
      r := Outcome(Verb.Delete, endpoint, server(DeleteUrl(endpoint, None)));
      if r.Failure? {
        return;
      }
      items := [];
    }

    method SetAll(newItems: seq<T>)
      modifies this
      ensures items == newItems
    {
      items := newItems;
    }
  }

  /**
   * `loadInitialData`: every named endpoint is fetched; the result maps each name to its data,
   * and it is rejected as soon as one fetch fails.
   */
  function LoadInitialData<J>(endpoints: map<string, string>, fetch: string -> Reply<J>): (r: Option<map<string, J>>)
    ensures r.Some? <==> forall k :: k in endpoints ==> fetch(endpoints[k]).Answered?
    ensures r.Some? ==> r.value.Keys == endpoints.Keys
    ensures r.Some? ==> forall k :: k in endpoints ==> r.value[k] == fetch(endpoints[k]).body
  {
    if forall k :: k in endpoints ==> fetch(endpoints[k]).Answered? then
      Some(map k | k in endpoints :: fetch(endpoints[k]).body)
    else None
  }
}
