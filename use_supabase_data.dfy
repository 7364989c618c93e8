/**
 * `useSupabaseData`: the client's copy of the three entry collections and the stored chat
 * history, loaded once on mount. As in `useCrud`, each operation changes its own list only
 * after its request has succeeded; the request helpers are the same as there.
 */
module SupabaseData {
  import opened Wrappers
  import opened ListOps
  import opened Entities
  import opened Crud

  /** A stored chat message, with the id the server gave it. */
  datatype StoredMessage = StoredMessage(id: string, role: string, content: string, timestamp: string)

  /** The endpoint each collection lives at, below `/api`. */
  function Path(c: Collection): string {
    match c
    case Styles => "/styles"
    case Sources => "/sources"
    case Scenarios => "/scenarios"
  }

  const MessagesPath := "/chat-messages"

  function ItemId(item: Item): string {
    item.id
  }

  datatype DataState = DataState(
    sources: seq<Item>,
    styles: seq<Item>,
    scenarios: seq<Item>,
    chatMessages: seq<StoredMessage>,
    mounted: bool,
    loading: bool)

  function ListOf(s: DataState, c: Collection): seq<Item> {
    match c
    case Styles => s.styles
    case Sources => s.sources
    case Scenarios => s.scenarios
  }

  /** The state with one collection's list replaced: the other lists, the messages and the flags stay. */
  function WithList(s: DataState, c: Collection, xs: seq<Item>): (r: DataState)
    ensures ListOf(r, c) == xs
    ensures forall d :: d != c ==> ListOf(r, d) == ListOf(s, d)
    ensures r.chatMessages == s.chatMessages && r.mounted == s.mounted && r.loading == s.loading
  {
    match c
    case Styles => s.(styles := xs)
    case Sources => s.(sources := xs)
    case Scenarios => s.(scenarios := xs)
  }

  /** Before the load: nothing fetched, not mounted, loading. */
  function InitialData(): (s: DataState)
    ensures forall c :: ListOf(s, c) == []
    ensures s.chatMessages == [] && !s.mounted && s.loading
  {
    DataState([], [], [], [], false, true)
  }

  /** What the four fetches of the load meet. */
  datatype LoadReplies = LoadReplies(
    sources: Reply<seq<Item>>,
    styles: Reply<seq<Item>>,
    scenarios: Reply<seq<Item>>,
    messages: Reply<seq<StoredMessage>>)

  predicate AllAnswered(rs: LoadReplies) {
    rs.sources.Answered? && rs.styles.Answered? && rs.scenarios.Answered? && rs.messages.Answered?
  }

  /**
   * `loadData`: all four lists are replaced when every fetch succeeds, none when any fails; on
   * both paths loading ends and the hook is mounted.
   */
  function Loaded(s: DataState, rs: LoadReplies): (r: DataState)
    ensures !r.loading && r.mounted
    ensures AllAnswered(rs) ==>
              && ListOf(r, Sources) == rs.sources.body && ListOf(r, Styles) == rs.styles.body
              && ListOf(r, Scenarios) == rs.scenarios.body && r.chatMessages == rs.messages.body
    ensures !AllAnswered(rs) ==> forall c :: ListOf(r, c) == ListOf(s, c)
    ensures !AllAnswered(rs) ==> r.chatMessages == s.chatMessages
  {
    var fetched :=
      if AllAnswered(rs) then
        DataState(rs.sources.body, rs.styles.body, rs.scenarios.body, rs.messages.body, s.mounted, true)
      else s.(loading := true);
    fetched.(loading := false, mounted := true)
  }

  /** Whatever the load meets, a second load with the same replies changes nothing more. */
  lemma LoadIdempotent(s: DataState, rs: LoadReplies)
    ensures Loaded(Loaded(s, rs), rs) == Loaded(s, rs)
  {
  }

  class Data {
    var sources: seq<Item>
    var styles: seq<Item>
    var scenarios: seq<Item>
    var chatMessages: seq<StoredMessage>
    var mounted: bool
    var loading: bool

    function State(): DataState
      reads this
    {
      DataState(sources, styles, scenarios, chatMessages, mounted, loading)
    }

    constructor()
      ensures State() == InitialData()
    {
      sources := [];
      styles := [];
      scenarios := [];
      chatMessages := [];
      mounted := false;
      loading := true;
    }

    /** The setter of one collection. */
    method SetList(c: Collection, xs: seq<Item>)
      modifies this
      ensures State() == WithList(old(State()), c, xs)
    {
      match c
      case Styles => styles := xs;
      case Sources => sources := xs;
      case Scenarios => scenarios := xs;
    }

    /** The effect run on mount, given what each of the four fetches meets. */
    method LoadData(rs: LoadReplies)
      modifies this
      ensures State() == Loaded(old(State()), rs)
    {
      loading := true;
      var sourcesData := Outcome(Fetch, Path(Sources), rs.sources);
      var stylesData := Outcome(Fetch, Path(Styles), rs.styles);
      var scenariosData := Outcome(Fetch, Path(Scenarios), rs.scenarios);
      var messagesData := Outcome(Fetch, MessagesPath, rs.messages);
      if sourcesData.Success? && stylesData.Success? && scenariosData.Success? && messagesData.Success? {
        sources := sourcesData.value;
        styles := stylesData.value;
        scenarios := scenariosData.value;
        chatMessages := messagesData.value;
      }
      loading := false;
      mounted := true;
    }

    /** `createStyle`, `createSource` and `createScenario`. */
    method Create(c: Collection, reply: Reply<Item>) returns (r: Result<Item, string>)
      modifies this
      ensures r == Outcome(Verb.Create, Path(c), reply)
      ensures State() == WithList(old(State()), c, AfterCreate(ListOf(old(State()), c), r))
    {
      r := Outcome(Verb.Create, Path(c), reply);
      if r.Failure? {
        return;
      }
      SetList(c, ListOf(State(), c) + [r.value]);
    }

    /** `updateStyle`, `updateSource` and `updateScenario`. */
    method Update(c: Collection, id: string, reply: Reply<Item>) returns (r: Result<Item, string>)
      modifies this
      ensures r == Outcome(Verb.Update, Path(c), reply)
      ensures State() == WithList(old(State()), c, AfterUpdate(ListOf(old(State()), c), ItemId, id, r))
    {
      r := Outcome(Verb.Update, Path(c), reply);
      if r.Failure? {
        return;
      }
      SetList(c, MapWhere(ListOf(State(), c), Matching(ItemId, id), Always(r.value)));
    }

    /** `deleteStyle`, `deleteSource` and `deleteScenario`; `server` answers a DELETE request for a URL. */
    method Delete(c: Collection, id: string, server: string -> Reply<()>) returns (r: Result<(), string>)
      modifies this
      ensures r == Outcome(Verb.Delete, Path(c), server(DeleteUrl(Path(c), Some(id))))
      ensures State() == WithList(old(State()), c, AfterDelete(ListOf(old(State()), c), ItemId, id, r))
    {
      r := Outcome(Verb.Delete, Path(c), server(DeleteUrl(Path(c), Some(id))));
      if r.Failure? {
        return;
      }
      SetList(c, Filter(ListOf(State(), c), Differing(ItemId, id)));
    }

    method AddChatMessage(reply: Reply<StoredMessage>) returns (r: Result<StoredMessage, string>)
      modifies this
      ensures r == Outcome(Verb.Create, MessagesPath, reply)
      ensures State() == old(State()).(chatMessages := AfterCreate(old(chatMessages), r))
    {
      r := Outcome(Verb.Create, MessagesPath, reply);
      if r.Failure? {
        return;
      }
      chatMessages := chatMessages + [r.value];
    }

    /** The whole history is deleted with one request without an id. */
    method ClearChatMessages(server: string -> Reply<()>) returns (r: Result<(), string>)
      modifies this
      ensures r == Outcome(Verb.Delete, MessagesPath, server(DeleteUrl(MessagesPath, None)))
      ensures r.Success? ==> State() == old(State()).(chatMessages := [])
      ensures r.Failure? ==> State() == old(State())
    {
      r := Outcome(Verb.Delete, MessagesPath, server(DeleteUrl(MessagesPath, None)));
      if r.Failure? {
        return;
      }
      chatMessages := [];
    }
  }

  // Properties of the data hook.

  /** The clearing request names no id, so it asks for the whole collection. */
  lemma ClearRequestsWholeHistory()
    ensures DeleteUrl(MessagesPath, None) == "/api/chat-messages"
  {
  }
}
