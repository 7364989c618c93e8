/**
 * The client-side entities shared by the page, the data hooks, the restore hook and the
 * server routes: the `Source` record used for styles, sources and scenarios, and the
 * `{name, content, selected}` excerpt the server formats into prompt context.
 */
module Entities {
  import opened Wrappers

  /**
   * A style, source or scenario entry (`Source` in the page and the hooks).
   * `kind` is the record's `type` label; `loading` marks a placeholder still waiting for AI output.
   */
  datatype Item = Item(
    id: string,
    name: string,
    kind: string,
    selected: bool,
    content: string,
    createdAt: string,
    videoUrl: Option<string>,
    loading: Option<bool>)

  /** `loading` is truthy. */
  predicate IsLoading(item: Item) {
    item.loading == Some(true)
  }

  /** The three collections of entries the client keeps; a job fills one of them. */
  datatype Collection = Styles | Sources | Scenarios

  /** A chat message `{ role, content }`, as the page keeps it and as a scenario job carries it. */
  datatype ChatLine = ChatLine(role: string, content: string)

  /** The fields of an entry that the server reads as context. */
  datatype Excerpt = Excerpt(name: string, content: string, selected: bool)

  function ExcerptOf(item: Item): Excerpt {
    Excerpt(item.name, item.content, item.selected)
  }

  /** `# name\ncontent`, the form in which an entry is given to the model. */
  function Heading(e: Excerpt): string {
    "# " + e.name + "\n" + e.content
  }

  /** `es.filter(s => s.selected).map(s => `# ${s.name}\n${s.content}`)`. */
  function FormatSelected(es: seq<Excerpt>): seq<string>
    decreases |es|
  {
    if |es| == 0 then []
    else (if es[0].selected then [Heading(es[0])] else []) + FormatSelected(es[1..])
  }

  /**
   * Formatting is a homomorphism over concatenation: together with the one-element case
   * this says that exactly the selected entries appear, each once, in input order.
   */
  lemma {:induction false} FormatSelectedAppend(a: seq<Excerpt>, b: seq<Excerpt>)
    ensures FormatSelected(a + b) == FormatSelected(a) + FormatSelected(b)
    decreases |a|
  {
    if |a| == 0 {
      assert a + b == b;
    } else {
      assert (a + b)[1..] == a[1..] + b;
      FormatSelectedAppend(a[1..], b);
    }
  }

  lemma FormatSelectedSingle(e: Excerpt)
    ensures FormatSelected([e]) == if e.selected then [Heading(e)] else []
  {
    assert [e][1..] == [];
  }

  /** Every formatted string comes from a selected entry, and every selected entry is formatted. */
  lemma {:induction false} FormatSelectedMembers(es: seq<Excerpt>, s: string)
    ensures s in FormatSelected(es) <==> exists i :: 0 <= i < |es| && es[i].selected && s == Heading(es[i])
    decreases |es|
  {
    if |es| > 0 {
      FormatSelectedMembers(es[1..], s);
      if s in FormatSelected(es[1..]) {
        var i :| 0 <= i < |es[1..]| && es[1..][i].selected && s == Heading(es[1..][i]);
        assert es[i + 1] == es[1..][i];
      }
      if exists i :: 0 <= i < |es| && es[i].selected && s == Heading(es[i]) {
        var i :| 0 <= i < |es| && es[i].selected && s == Heading(es[i]);
        if i > 0 { assert es[1..][i - 1] == es[i]; }
      }
    }
  }
}
