/**
 * The notebook page: its state (the style and source lists, the chat, the input box, the entry
 * open in the editor, the active tab and the loading flag) is the class `Page`, and each handler
 * is a method proved against a function on `PageState`.
 *
 * A state setter called with a value replaces the state with a value computed from the lists
 * as they were when the handler started; when one handler sets the same list twice, the last
 * call wins. A setter called with an updater function (`prev => ...`) works on the latest list.
 */
module Page {
  import opened Wrappers
  import opened Text
  import opened ListOps
  import opened Entities
  import opened ChatRoute

  // YouTube video ids.

  /** The three link forms the first pattern accepts before the id. */
  const LinkPrefixes: seq<string> := ["youtube.com/watch?v=", "youtu.be/", "youtube.com/embed/"]

  /** The characters that end the id of a link: `&`, newline, `?` and `#`. */
  predicate IsStop(c: char) {
    c == '&' || c == '\n' || c == '?' || c == '#'
  }

  /** The length of the longest run of non-stop characters at the start of `s`. */
  function IdRun(s: string): (n: nat)
    ensures n <= |s|
    ensures forall i :: 0 <= i < n ==> !IsStop(s[i])
    ensures n < |s| ==> IsStop(s[n])
    decreases |s|
  {
    if |s| == 0 || IsStop(s[0]) then 0 else 1 + IdRun(s[1..])
  }

  /** At most one of the link forms starts a given string. */
  lemma PrefixesExclusive(s: string, p: string, q: string)
    requires p in LinkPrefixes && q in LinkPrefixes && IsPrefix(p, s) && IsPrefix(q, s)
    ensures p == q
  {
    assert p[5] == s[5] == q[5] by {
      assert s[..|p|][5] == s[5] && s[..|q|][5] == s[5];
    }
    if s[5] == 'b' {
      assert p[12] == s[12] == q[12] by {
        assert s[..|p|][12] == s[12] && s[..|q|][12] == s[12];
      }
    }
  }

  /** The link form that starts `s`, if any. */
  function PrefixAt(s: string): (r: Option<string>)
    ensures r.Some? ==> r.value in LinkPrefixes && IsPrefix(r.value, s)
    ensures r.None? ==> forall p :: p in LinkPrefixes ==> !IsPrefix(p, s)
  {
    if IsPrefix(LinkPrefixes[0], s) then Some(LinkPrefixes[0])
    else if IsPrefix(LinkPrefixes[1], s) then Some(LinkPrefixes[1])
    else if IsPrefix(LinkPrefixes[2], s) then Some(LinkPrefixes[2])
    else None
  }

  /** `id` follows the form `p` at the start of `s`: non-empty, free of stop characters, and not extendable. */
  predicate IdFollows(s: string, p: string, id: string) {
    && |p| + |id| <= |s| && |id| > 0 && s[|p|..|p| + |id|] == id
    && (forall i :: 0 <= i < |id| ==> !IsStop(id[i]))
    && (|p| + |id| == |s| || IsStop(s[|p| + |id|]))
  }

  /**
   * The first pattern tried at the start of `s`: a link form followed by a non-empty, greedy
   * run of non-stop characters. When no id follows, no other form can be tried there.
   */
  function LinkAt(s: string): (r: Option<string>)
    ensures r.Some? ==> exists p :: p in LinkPrefixes && IsPrefix(p, s) && IdFollows(s, p, r.value)
    ensures r.None? ==> forall p :: p in LinkPrefixes && IsPrefix(p, s) ==> |s| == |p| || IsStop(s[|p|])
  {
    match PrefixAt(s)
    case None => None
    case Some(p) =>
      var n := IdRun(s[|p|..]);
      if n == 0 then
        assert forall q :: q in LinkPrefixes && IsPrefix(q, s) ==> |s| == |q| || IsStop(s[|q|]) by {
          forall q | q in LinkPrefixes && IsPrefix(q, s) ensures |s| == |q| || IsStop(s[|q|]) {
            PrefixesExclusive(s, p, q);
          }
        }
        None
      else
        assert IdFollows(s, p, s[|p|..][..n]);
        Some(s[|p|..][..n])
  }

  /** The unanchored search of the first pattern: the match at the leftmost position that has one. */
  function LinkId(url: string): (r: Option<string>)
    ensures r.Some? ==> |r.value| > 0
    decreases |url|
  {
    if LinkAt(url).Some? then
      assert IdFollows(url, PrefixAt(url).value, LinkAt(url).value);
      LinkAt(url)
    else if |url| == 0 then None
    else LinkId(url[1..])
  }

  predicate IsIdChar(c: char) {
    ('a' <= c <= 'z') || ('A' <= c <= 'Z') || ('0' <= c <= '9') || c == '_' || c == '-'
  }

  /** The second pattern: the whole input is exactly eleven id characters. */
  predicate IsBareId(s: string) {
    |s| == 11 && forall i :: 0 <= i < |s| ==> IsIdChar(s[i])
  }

  datatype Pattern = LinkPattern | BareIdPattern

  /** The patterns in the order they are tried. */
  const Patterns: seq<Pattern> := [LinkPattern, BareIdPattern]

  /** `match[1]` of a pattern against `url`, absent when the pattern does not match. */
  function Group(p: Pattern, url: string): (r: Option<string>)
    ensures r.Some? ==> r.value != ""
  {
    match p
    case LinkPattern => LinkId(url)
    case BareIdPattern => if IsBareId(url) then Some(url) else None
  }

  /** The id `extractYouTubeId` returns. */
  function YouTubeId(url: string): Option<string> {
    if LinkId(url).Some? then LinkId(url) else if IsBareId(url) then Some(url) else None
  }

  /** `extractYouTubeId`: the patterns are tried in order and the first truthy group is returned. */
  method ExtractYouTubeId(url: string) returns (r: Option<string>)
    ensures r == YouTubeId(url)
  {
    var i := 0;
    assert Patterns[0] == LinkPattern && Patterns[1] == BareIdPattern;
    while i < |Patterns|
      invariant 0 <= i <= |Patterns|
      invariant forall k :: 0 <= k < i ==> Group(Patterns[k], url).None?
    {
      var m := Group(Patterns[i], url);
      if Truthy(m) {
        return m;
      }
      i := i + 1;
    }
    assert Group(Patterns[0], url).None? && Group(Patterns[1], url).None?;
    return None;
  }

  /**
   * The link search finds the leftmost position where the first pattern matches, and returns
   * its group; when it finds nothing, the pattern matches at no position.
   */
  lemma {:induction false} LinkIdLeftmost(url: string)
    ensures LinkId(url).Some? ==>
              exists k :: 0 <= k <= |url| && LinkAt(url[k..]) == LinkId(url)
                          && forall j :: 0 <= j < k ==> LinkAt(url[j..]).None?
    ensures LinkId(url).None? ==> forall k :: 0 <= k <= |url| ==> LinkAt(url[k..]).None?
    decreases |url|
  {
    assert url[0..] == url;
    if LinkAt(url).None? && |url| > 0 {
      LinkIdLeftmost(url[1..]);
      if LinkId(url).Some? {
        var k :| 0 <= k <= |url[1..]| && LinkAt(url[1..][k..]) == LinkId(url[1..])
                 && forall j :: 0 <= j < k ==> LinkAt(url[1..][j..]).None?;
        assert url[1..][k..] == url[k + 1..];
        forall j | 0 <= j < k + 1 ensures LinkAt(url[j..]).None? {
          if j > 0 { assert url[1..][j - 1..] == url[j..]; }
        }
      } else {
        forall k | 0 <= k <= |url| ensures LinkAt(url[k..]).None? {
          if k > 0 { assert url[1..][k - 1..] == url[k..]; }
        }
      }
    }
  }

  lemma LinkAtOccurs(s: string)
    requires LinkAt(s).Some?
    ensures Contains(s, LinkAt(s).value)
  {
    var id := LinkAt(s).value;
    var p :| p in LinkPrefixes && IsPrefix(p, s) && IdFollows(s, p, id);
    ContainsAt(s, id, |p|);
  }

  lemma {:induction false} LinkIdOccurs(url: string)
    requires LinkId(url).Some?
    ensures Contains(url, LinkId(url).value)
    decreases |url|
  {
    if LinkAt(url).Some? {
      LinkAtOccurs(url);
    } else {
      LinkIdOccurs(url[1..]);
    }
  }

  /** A returned id is non-empty and occurs in the input. */
  lemma IdOccursInUrl(url: string)
    requires YouTubeId(url).Some?
    ensures |YouTubeId(url).value| > 0 && Contains(url, YouTubeId(url).value)
  {
    if LinkId(url).Some? {
      LinkIdOccurs(url);
    } else {
      ContainsAt(url, url, 0);
    }
  }

  /** Every link form holds a `.`: without one the first pattern never matches. */
  lemma LinkAtHasDot(s: string)
    ensures LinkAt(s).Some? ==> '.' in s
  {
    if LinkAt(s).Some? {
      var p :| p in LinkPrefixes && IsPrefix(p, s) && IdFollows(s, p, LinkAt(s).value);
      if p == LinkPrefixes[1] {
        assert s[5] == s[..|p|][5] == '.';
      } else {
        assert s[7] == s[..|p|][7] == '.';
      }
    }
  }

  lemma {:induction false} NoLinkWithoutDot(url: string)
    requires '.' !in url
    ensures LinkId(url).None?
    decreases |url|
  {
    LinkAtHasDot(url);
    if |url| > 0 {
      assert '.' !in url[1..] by {
        forall i | 0 <= i < |url[1..]| ensures url[1..][i] != '.' {
          assert url[1..][i] == url[i + 1];
        }
      }
      NoLinkWithoutDot(url[1..]);
    }
  }

  /** A bare eleven-character id is returned as it is. */
  lemma BareIdReturned(url: string)
    requires IsBareId(url)
    ensures YouTubeId(url) == Some(url)
  {
    assert '.' !in url by {
      forall i | 0 <= i < |url| ensures url[i] != '.' {
        assert IsIdChar(url[i]);
      }
    }
    NoLinkWithoutDot(url);
  }

  /** A short link yields the characters up to its first stop character. */
  lemma ShortLinkId()
    ensures YouTubeId("youtu.be/dQw4w9WgXcQ?t=42") == Some("dQw4w9WgXcQ")
  {
    var url := "youtu.be/dQw4w9WgXcQ?t=42";
    assert !IsPrefix(LinkPrefixes[0], url) by {
      assert url[5] != LinkPrefixes[0][5];
    }
    assert IsPrefix(LinkPrefixes[1], url) by {
      assert url[..9] == LinkPrefixes[1];
    }
    var rest := url[9..];
    assert rest[11] == '?';
    assert forall i :: 0 <= i < 11 ==> !IsStop(rest[i]);
    var n := IdRun(rest);
    assert n == 11;
    assert rest[..11] == "dQw4w9WgXcQ";
  }

  // The page's state.

  /** The two tabs of the left pane (`activeTab`). */
  datatype Tab = StyleTab | SourcesTab

  /** Where `moveSource` sends an entry. */
  datatype Target = ToStyle | ToSource

  datatype PageState = PageState(
    sources: seq<Item>,
    styles: seq<Item>,
    chat: seq<ChatLine>,
    input: string,
    editing: Option<Item>,
    activeTab: Tab,
    loading: bool)

  function HasId(id: string): Item -> bool {
    (s: Item) => s.id == id
  }

  function LacksId(id: string): Item -> bool {
    (s: Item) => s.id != id
  }

  function WithContent(content: string): Item -> Item {
    (s: Item) => s.(content := content)
  }

  function Replacing(item: Item): Item -> Item {
    (s: Item) => item
  }

  // `updateSourceContent`.

  function ContentUpdated(s: PageState, id: string, content: string): PageState {
    s.(sources := MapWhere(s.sources, HasId(id), WithContent(content)),
       editing := if s.editing.Some? && s.editing.value.id == id then Some(s.editing.value.(content := content)) else s.editing)
  }

  /**
   * Only the `content` of the sources with that id changes, to the new text; every other
   * source, every other field and the rest of the page stay as they were. The editor follows
   * when it shows that entry.
   */
  lemma ContentUpdateTouchesOnlyContent(s: PageState, id: string, content: string)
    ensures var r := ContentUpdated(s, id, content);
            && |r.sources| == |s.sources|
            && (forall i :: 0 <= i < |s.sources| ==>
                  && r.sources[i].(content := s.sources[i].content) == s.sources[i]
                  && (s.sources[i].id == id ==> r.sources[i].content == content)
                  && (s.sources[i].id != id ==> r.sources[i] == s.sources[i]))
            && r.styles == s.styles && r.chat == s.chat && r.input == s.input
            && r.activeTab == s.activeTab && r.loading == s.loading
            && (s.editing.Some? && s.editing.value.id == id ==> r.editing == Some(s.editing.value.(content := content)))
            && (!(s.editing.Some? && s.editing.value.id == id) ==> r.editing == s.editing)
  {
  }

  /** Writing the same content twice is the same as writing it once. */
  lemma {:induction false} ContentUpdateIdempotent(s: PageState, id: string, content: string)
    ensures ContentUpdated(ContentUpdated(s, id, content), id, content) == ContentUpdated(s, id, content)
  {
    var once := ContentUpdated(s, id, content);
    var twice := ContentUpdated(once, id, content);
    assert twice.sources == once.sources by {
      assert |twice.sources| == |once.sources|;
      forall i | 0 <= i < |once.sources| ensures twice.sources[i] == once.sources[i] {
        if once.sources[i].id == id {
          assert once.sources[i] == s.sources[i].(content := content);
        }
      }
    }
  }

  // `moveSource`.

  /** The relabelled `type`: kept when it already names the target, else the first `Source`/`Style` and then the first `Markdown` are replaced. */
  function Relabel(kind: string, target: Target): string {
    match target
    case ToStyle =>
      if Contains(kind, "Style") then kind else ReplaceFirst(ReplaceFirst(kind, "Source", "Style"), "Markdown", "Style")
    case ToSource =>
      if Contains(kind, "Source") then kind else ReplaceFirst(ReplaceFirst(kind, "Style", "Source"), "Markdown", "Source")
  }

  function TargetWord(target: Target): string {
    match target
    case ToStyle => "Style"
    case ToSource => "Source"
  }

  function OtherWord(target: Target): string {
    match target
    case ToStyle => "Source"
    case ToSource => "Style"
  }

  /**
   * The relabelled type names the target exactly when the type named the target, the other
   * list, or `Markdown`; a type naming none of them is left as it was.
   */
  lemma RelabelNamesTarget(kind: string, target: Target)
    ensures Contains(Relabel(kind, target), TargetWord(target)) <==>
              Contains(kind, TargetWord(target)) || Contains(kind, OtherWord(target)) || Contains(kind, "Markdown")
    ensures !Contains(kind, TargetWord(target)) && !Contains(kind, OtherWord(target)) && !Contains(kind, "Markdown") ==>
              Relabel(kind, target) == kind
  {
    var w, o := TargetWord(target), OtherWord(target);
    if !Contains(kind, w) {
      var k1 := ReplaceFirst(kind, o, w);
      if Contains(kind, o) {
        ReplaceFirstInserts(kind, o, w);
      } else {
        ReplaceFirstAbsent(kind, o, w);
      }
      if Contains(k1, "Markdown") {
        ReplaceFirstInserts(k1, "Markdown", w);
      } else {
        ReplaceFirstAbsent(k1, "Markdown", w);
      }
    }
  }

  /** `Markdown` names neither list: it holds no `S`. */
  lemma MarkdownNamesNoList()
    ensures !Contains("Markdown", "Source") && !Contains("Markdown", "Style")
  {
    if Contains("Markdown", "Source") {
      ContainedCharOccurs("Markdown", "Source", 0);
    }
    if Contains("Markdown", "Style") {
      ContainedCharOccurs("Markdown", "Style", 0);
    }
  }

  /** A Markdown file becomes a source. */
  lemma RelabelMarkdown()
    ensures Relabel("Markdown", ToSource) == "Source"
  {
    MarkdownNamesNoList();
    ReplaceFirstAbsent("Markdown", "Style", "Source");
    ReplaceFirstAt("", "Markdown", "", "Source");
    assert "" + "Markdown" + "" == "Markdown";
    assert "" + "Source" + "" == "Source";
  }

  function Moved(s: PageState, sourceId: string, target: Target): PageState {
    var inSources := Find(s.sources, HasId(sourceId));
    var inStyles := Find(s.styles, HasId(sourceId));
    if inSources.None? && inStyles.None? then s
    else
      var source := if inSources.Some? then inSources.value else inStyles.value;
      var moved := source.(kind := Relabel(source.kind, target));
      match target
      case ToStyle =>
        s.(sources := if inSources.Some? then Filter(s.sources, LacksId(sourceId)) else s.sources,
           styles := s.styles + [moved], editing := Some(moved))
      case ToSource =>
        s.(sources := s.sources + [moved],
           styles := if inStyles.Some? then Filter(s.styles, HasId(sourceId)) else s.styles,
           editing := Some(moved))
  }

  /** An id in neither list leaves the page as it was. */
  lemma MoveUnknownIsNoOp(s: PageState, sourceId: string, target: Target)
    requires forall i :: 0 <= i < |s.sources| ==> s.sources[i].id != sourceId
    requires forall i :: 0 <= i < |s.styles| ==> s.styles[i].id != sourceId
    ensures Moved(s, sourceId, target) == s
  {
  }

  /**
   * Moving a source to the styles takes every entry with that id out of the sources, keeps
   * the others in order, and appends the first of them, relabelled, to the styles; the editor
   * opens it. Nothing else changes.
   */
  lemma MoveSourceToStyle(s: PageState, sourceId: string, i: nat)
    requires i < |s.sources| && s.sources[i].id == sourceId
    requires forall j :: 0 <= j < i ==> s.sources[j].id != sourceId
    ensures var r := Moved(s, sourceId, ToStyle);
            var moved := s.sources[i].(kind := Relabel(s.sources[i].kind, ToStyle));
            && r.sources == Filter(s.sources, LacksId(sourceId))
            && (forall j :: 0 <= j < |r.sources| ==> r.sources[j].id != sourceId)
            && (forall j :: 0 <= j < |s.sources| && s.sources[j].id != sourceId ==> s.sources[j] in r.sources)
            && r.styles == s.styles + [moved]
            && r.editing == Some(moved)
            && r.chat == s.chat && r.input == s.input && r.activeTab == s.activeTab && r.loading == s.loading
  {
    var found := Find(s.sources, HasId(sourceId));
    var k :| 0 <= k < |s.sources| && s.sources[k] == found.value && HasId(sourceId)(found.value)
             && (forall j :: 0 <= j < k ==> !HasId(sourceId)(s.sources[j]));
    assert k == i;
  }

  /**
   * Moving a style to the sources, as the handler is written, keeps in the styles only the
   * entries that carry that id (the filter keeps matches instead of dropping them), and appends
   * the relabelled entry to the sources.
   */
  lemma MoveStyleToSource(s: PageState, sourceId: string, i: nat)
    requires forall j :: 0 <= j < |s.sources| ==> s.sources[j].id != sourceId
    requires i < |s.styles| && s.styles[i].id == sourceId
    requires forall j :: 0 <= j < i ==> s.styles[j].id != sourceId
    ensures var r := Moved(s, sourceId, ToSource);
            var moved := s.styles[i].(kind := Relabel(s.styles[i].kind, ToSource));
            && r.styles == Filter(s.styles, HasId(sourceId))
            && (forall j :: 0 <= j < |r.styles| ==> r.styles[j].id == sourceId)
            && s.styles[i] in r.styles
            && r.sources == s.sources + [moved]
            && r.editing == Some(moved)
  {
    var found := Find(s.styles, HasId(sourceId));
    var k :| 0 <= k < |s.styles| && s.styles[k] == found.value && HasId(sourceId)(found.value)
             && (forall j :: 0 <= j < k ==> !HasId(sourceId)(s.styles[j]));
    assert k == i;
  }

  /**
   * Moving an entry to the list it is already in appends a relabelled copy: the original
   * stays, because the later setter call replaces the filtered list.
   */
  lemma MoveWithinSourcesDuplicates(s: PageState, sourceId: string, i: nat)
    requires i < |s.sources| && s.sources[i].id == sourceId
    ensures var r := Moved(s, sourceId, ToSource);
            && |r.sources| == |s.sources| + 1
            && r.sources[..|s.sources|] == s.sources
            && r.sources[|s.sources|].id == sourceId
  {
    assert HasId(sourceId)(s.sources[i]);
    var r := Moved(s, sourceId, ToSource);
    var found := Find(s.sources, HasId(sourceId));
    assert r.sources == s.sources + [found.value.(kind := Relabel(found.value.kind, ToSource))];
  }

  // The chat stream decoder of `handleSendMessage`.

  /**
   * The text one line of the stream adds to the reply. `contentOf(data)` is the `content` of
   * `JSON.parse(data)` as a string: absent when the parse throws or there is no content.
   */
  function LineText(line: string, contentOf: string -> Option<string>): (t: string)
    ensures !IsPrefix("data: ", line) ==> t == ""
    ensures IsPrefix("data: ", line) && line[6..] == "[DONE]" ==> t == ""
    ensures IsPrefix("data: ", line) && line[6..] != "[DONE]" && Truthy(contentOf(line[6..])) ==> t == contentOf(line[6..]).value
    ensures t != "" ==> IsPrefix("data: ", line) && Some(t) == contentOf(line[6..])
  {
    if IsPrefix("data: ", line) then
      var data := line[6..];
      if data == "[DONE]" then ""
      else if Truthy(contentOf(data)) then contentOf(data).value
      else ""
    else ""
  }

  /** The text the lines of one read add, in order. */
  function DecodeLines(lines: seq<string>, contentOf: string -> Option<string>): string
    decreases |lines|
  {
    if |lines| == 0 then "" else LineText(lines[0], contentOf) + DecodeLines(lines[1..], contentOf)
  }

  /** One read, split at line breaks. */
  function DecodeText(chunk: string, contentOf: string -> Option<string>): string {
    DecodeLines(Split(chunk, '\n'), contentOf)
  }

  /** What a sequence of reads adds up to. */
  function Decoded(pieces: seq<string>, contentOf: string -> Option<string>): string
    decreases |pieces|
  {
    if |pieces| == 0 then "" else Decoded(pieces[..|pieces| - 1], contentOf) + DecodeText(pieces[|pieces| - 1], contentOf)
  }

  lemma {:induction false} DecodeLinesSnoc(lines: seq<string>, line: string, contentOf: string -> Option<string>)
    ensures DecodeLines(lines + [line], contentOf) == DecodeLines(lines, contentOf) + LineText(line, contentOf)
    decreases |lines|
  {
    if |lines| == 0 {
      assert [] + [line] == [line];
      assert [line][1..] == [];
    } else {
      assert (lines + [line])[1..] == lines[1..] + [line];
      DecodeLinesSnoc(lines[1..], line, contentOf);
    }
  }

  /** The reply the page sees: the request failed or was not ok, or the pieces the stream was read in, and whether reading then threw. */
  datatype ChatReply = ChatNotOk | ChatStreamed(pieces: seq<string>, broken: bool)

  /** What the fetch of the page receives from the chat endpoint's response. */
  function Received(r: ChatResponse): (reply: ChatReply)
    ensures r.ChatFailed? <==> reply.ChatNotOk?
  {
    match r
    case ChatFailed(_, _) => ChatNotOk
    case EventStream(_, frames, _, errored) => ChatStreamed(frames, errored)
  }

  function Excerpts(items: seq<Item>): (es: seq<Excerpt>)
    ensures |es| == |items|
    ensures forall i :: 0 <= i < |items| ==> es[i] == ExcerptOf(items[i])
    decreases |items|
  {
    if |items| == 0 then [] else [ExcerptOf(items[0])] + Excerpts(items[1..])
  }

  /** The request body: the chat with the new user message, and the styles followed by the sources. */
  function RequestOf(s: PageState): ChatRequest {
    ChatRequest(s.chat + [ChatLine("user", s.input)], Excerpts(s.styles + s.sources))
  }

  /**
   * `handleSendMessage`: a blank input sends nothing; otherwise the user message is kept, the
   * assistant message holds the decoded reply, and it is dropped again when the request or the
   * stream fails. The input is cleared and the loading flag is down at the end.
   */
  function Sent(s: PageState, reply: ChatReply, contentOf: string -> Option<string>): (r: PageState)
    ensures IsBlank(s.input) ==> r == s
    ensures !IsBlank(s.input) ==> r.input == "" && !r.loading && |r.chat| > |s.chat| && r.chat[..|s.chat| + 1] == RequestOf(s).messages
    ensures !IsBlank(s.input) ==> r.sources == s.sources && r.styles == s.styles && r.editing == s.editing
    ensures !IsBlank(s.input) && (reply.ChatNotOk? || reply.broken) ==> r.chat == s.chat + [ChatLine("user", s.input)]
    ensures !IsBlank(s.input) && reply.ChatStreamed? && !reply.broken ==>
              r.chat == s.chat + [ChatLine("user", s.input), ChatLine("assistant", Decoded(reply.pieces, contentOf))]
  {
    if IsBlank(s.input) then s
    else
      var newMessages := s.chat + [ChatLine("user", s.input)];
      var chat := match reply
        case ChatNotOk => newMessages
        case ChatStreamed(pieces, broken) =>
          if broken then newMessages else newMessages + [ChatLine("assistant", Decoded(pieces, contentOf))];
      assert chat[..|newMessages|] == newMessages;
      s.(chat := chat, input := "", loading := false)
  }

  // `handleVideoSubmit`.

  const VideoHeading := "# YouTube動画のAI分析\n\n動画URL: "

  function AnalyzingText(url: string): string {
    VideoHeading + url + "\n\nAIで分析中..."
  }

  function FallbackText(url: string): string {
    VideoHeading + url + "\n\n要約:\n\nポイント:\n"
  }

  function ErrorText(url: string, error: string): string {
    VideoHeading + url + "\n\nエラーが発生しました。\n\n" + error
  }

  /** The placeholder entry: `timestamp`, `newId` and the tab are those of the moment of submission. */
  function Placeholder(url: string, timestamp: string, newId: string, tab: Tab): (item: Item)
    ensures IsLoading(item) && item.id == newId && item.videoUrl == Some(url) && item.selected
  {
    Item(newId, timestamp + ".md", if tab == StyleTab then "YouTube Style" else "YouTube Source",
         true, AnalyzingText(url), timestamp, Some(url), Some(true))
  }

  function VideoBegun(s: PageState, url: string, timestamp: string, newId: string): (r: PageState)
    ensures var item := Placeholder(url, timestamp, newId, s.activeTab);
            && (s.activeTab == StyleTab ==> r.styles == s.styles + [item] && r.sources == s.sources)
            && (s.activeTab == SourcesTab ==> r.sources == s.sources + [item] && r.styles == s.styles)
            && r.editing == Some(item)
            && r.chat == s.chat && r.input == s.input && r.activeTab == s.activeTab && r.loading == s.loading
  {
    var item := Placeholder(url, timestamp, newId, s.activeTab);
    if s.activeTab == StyleTab then s.(styles := s.styles + [item], editing := Some(item))
    else s.(sources := s.sources + [item], editing := Some(item))
  }

  /** The analysis request: the parsed response's `content`, or the text of what the fetch or the parse threw. */
  datatype VideoReply = VideoParsed(content: Option<string>) | VideoThrew(error: string)

  /** The finished entry: the same placeholder, no longer loading, with the analysis or a template. */
  function Finished(url: string, placeholder: Item, reply: VideoReply): (item: Item)
    ensures item == placeholder.(content := item.content, loading := Some(false))
    ensures !IsLoading(item)
    ensures reply.VideoParsed? && Truthy(reply.content) ==> item.content == reply.content.value
    ensures reply.VideoParsed? && !Truthy(reply.content) ==> item.content == FallbackText(url)
    ensures reply.VideoThrew? ==> item.content == ErrorText(url, reply.error)
  {
    match reply
    case VideoParsed(content) =>
      placeholder.(content := if Truthy(content) then content.value else FallbackText(url), loading := Some(false))
    case VideoThrew(error) => placeholder.(content := ErrorText(url, error), loading := Some(false))
  }

  /** The update after the request, on the tab of the submission and on the list as it is by then. */
  function VideoFinished(s: PageState, url: string, placeholder: Item, tab: Tab, reply: VideoReply): PageState {
    var item := Finished(url, placeholder, reply);
    if tab == StyleTab then s.(styles := MapWhere(s.styles, HasId(placeholder.id), Replacing(item)), editing := Some(item))
    else s.(sources := MapWhere(s.sources, HasId(placeholder.id), Replacing(item)), editing := Some(item))
  }

  /**
   * Whatever happened to the list in between, the finish replaces exactly the entries carrying
   * the placeholder's id by the finished entry, and keeps every other entry in place.
   */
  lemma FinishReplacesById(s: PageState, url: string, placeholder: Item, tab: Tab, reply: VideoReply)
    ensures var r := VideoFinished(s, url, placeholder, tab, reply);
            var xs := if tab == StyleTab then s.styles else s.sources;
            var ys := if tab == StyleTab then r.styles else r.sources;
            && |ys| == |xs|
            && (forall i :: 0 <= i < |xs| && xs[i].id == placeholder.id ==> ys[i] == Finished(url, placeholder, reply))
            && (forall i :: 0 <= i < |xs| && xs[i].id != placeholder.id ==> ys[i] == xs[i])
            && (tab == StyleTab ==> r.sources == s.sources)
            && (tab == SourcesTab ==> r.styles == s.styles)
  {
  }

  /**
   * Submitting a video and finishing it with nothing in between leaves the list with one new
   * entry at its end: the placeholder, no longer loading, with the analysis text.
   */
  lemma {:induction false} VideoRoundTrip(s: PageState, url: string, timestamp: string, newId: string, reply: VideoReply)
    requires forall i :: 0 <= i < |s.styles| ==> s.styles[i].id != newId
    requires forall i :: 0 <= i < |s.sources| ==> s.sources[i].id != newId
    ensures var p := Placeholder(url, timestamp, newId, s.activeTab);
            var r := VideoFinished(VideoBegun(s, url, timestamp, newId), url, p, s.activeTab, reply);
            && (s.activeTab == StyleTab ==> r.styles == s.styles + [Finished(url, p, reply)] && r.sources == s.sources)
            && (s.activeTab == SourcesTab ==> r.sources == s.sources + [Finished(url, p, reply)] && r.styles == s.styles)
            && r.editing == Some(Finished(url, p, reply))
  {
    var p := Placeholder(url, timestamp, newId, s.activeTab);
    var b := VideoBegun(s, url, timestamp, newId);
    var r := VideoFinished(b, url, p, s.activeTab, reply);
    var xs := if s.activeTab == StyleTab then s.styles else s.sources;
    var ys := if s.activeTab == StyleTab then r.styles else r.sources;
    FinishReplacesById(b, url, p, s.activeTab, reply);
    assert ys == xs + [Finished(url, p, reply)];
  }

  // The page.

  class Page {
    var sources: seq<Item>
    var styles: seq<Item>
    var chatMessages: seq<ChatLine>
    var inputValue: string
    var editingSource: Option<Item>
    var activeTab: Tab
    var loading: bool

    function State(): PageState
      reads this
    {
      PageState(sources, styles, chatMessages, inputValue, editingSource, activeTab, loading)
    }

    /** The first render: empty lists, no chat, the sources tab. */
    constructor()
      ensures State() == PageState([], [], [], "", None, SourcesTab, false)
    {
      sources := [];
      styles := [];
      chatMessages := [];
      inputValue := "";
      editingSource := None;
      activeTab := SourcesTab;
      loading := false;
    }

    method UpdateSourceContent(id: string, content: string)
      modifies this
      ensures State() == ContentUpdated(old(State()), id, content)
    {
      sources := MapWhere(sources, HasId(id), WithContent(content));
      if editingSource.Some? && editingSource.value.id == id {
        editingSource := Some(editingSource.value.(content := content));
      }
    }

    method MoveSource(sourceId: string, target: Target)
      modifies this
      ensures State() == Moved(old(State()), sourceId, target)
    {
      ghost var s0 := State();
      var capturedSources, capturedStyles := sources, styles;
      var found := Find(capturedSources, HasId(sourceId));
      if found.None? {
        found := Find(capturedStyles, HasId(sourceId));
      }
      if found.None? {
        return;
      }
      var source := found.value;
      if Find(capturedSources, HasId(sourceId)).Some? {
        sources := Filter(capturedSources, LacksId(sourceId));
      }
      if Find(capturedStyles, HasId(sourceId)).Some? {
        styles := Filter(capturedStyles, HasId(sourceId));
      }
      var moved := source.(kind := Relabel(source.kind, target));
      if target == ToStyle {
        styles := capturedStyles + [moved];
      } else {
        sources := capturedSources + [moved];
      }
      editingSource := Some(moved);
      assert moved == Moved(s0, sourceId, target).editing.value;
    }

    /**
     * `handleSendMessage`. `request` is the body posted to the chat endpoint. The reads are
     * decoded one after another and the trailing assistant message shows the text so far.
     */
    method SendMessage(reply: ChatReply, contentOf: string -> Option<string>) returns (request: Option<ChatRequest>)
      modifies this
      ensures State() == Sent(old(State()), reply, contentOf)
      ensures IsBlank(old(inputValue)) <==> request.None?
      ensures request.Some? ==> request.value == RequestOf(old(State()))
    {
      if IsBlank(inputValue) {
        return None;
      }
      var userMessage := ChatLine("user", inputValue);
      var newMessages := chatMessages + [userMessage];
      request := Some(ChatRequest(newMessages, Excerpts(styles + sources)));
      chatMessages := newMessages;
      inputValue := "";
      loading := true;
      chatMessages := chatMessages + [ChatLine("assistant", "")];
      match reply {
        case ChatNotOk =>
          chatMessages := chatMessages[..|chatMessages| - 1];
        case ChatStreamed(pieces, broken) =>
          ReadStream(newMessages, pieces, contentOf);
          if broken {
            chatMessages := chatMessages[..|chatMessages| - 1];
          }
      }
      loading := false;
    }

    /** The read loop: every read is decoded in turn, and the assistant message shows the text so far. */
    method ReadStream(newMessages: seq<ChatLine>, pieces: seq<string>, contentOf: string -> Option<string>)
      requires chatMessages == newMessages + [ChatLine("assistant", "")]
      modifies this
      ensures State() == old(State()).(chat := newMessages + [ChatLine("assistant", Decoded(pieces, contentOf))])
    {
      var assistantMessage := "";
      var i := 0;
      while i < |pieces|
        invariant 0 <= i <= |pieces|
        invariant assistantMessage == Decoded(pieces[..i], contentOf)
        invariant State() == old(State()).(chat := newMessages + [ChatLine("assistant", assistantMessage)])
      {
        assert Decoded(pieces[..i + 1], contentOf) == Decoded(pieces[..i], contentOf) + DecodeText(pieces[i], contentOf) by {
          assert pieces[..i + 1][..i] == pieces[..i] && pieces[..i + 1][i] == pieces[i];
        }
        assistantMessage := ReadPiece(newMessages, pieces[i], assistantMessage, contentOf);
        i := i + 1;
      }
      assert pieces[..i] == pieces;
    }

    /** One read: its lines in order; a `data:` line with truthy content extends the assistant message. */
    method ReadPiece(newMessages: seq<ChatLine>, piece: string, before: string, contentOf: string -> Option<string>)
      returns (assistantMessage: string)
      requires chatMessages == newMessages + [ChatLine("assistant", before)]
      modifies this
      ensures assistantMessage == before + DecodeText(piece, contentOf)
      ensures State() == old(State()).(chat := newMessages + [ChatLine("assistant", assistantMessage)])
    {
      assistantMessage := before;
      var lines := Split(piece, '\n');
      var j := 0;
      while j < |lines|
        invariant 0 <= j <= |lines|
        invariant assistantMessage == before + DecodeLines(lines[..j], contentOf)
        invariant State() == old(State()).(chat := newMessages + [ChatLine("assistant", assistantMessage)])
      {
        DecodeLinesSnoc(lines[..j], lines[j], contentOf);
        assert lines[..j + 1] == lines[..j] + [lines[j]];
        var line := lines[j];
        if IsPrefix("data: ", line) {
          var data := line[6..];
          if data != "[DONE]" {
            var parsed := contentOf(data);
            if Truthy(parsed) {
              assistantMessage := assistantMessage + parsed.value;
              chatMessages := chatMessages[|chatMessages| - 1 := ChatLine("assistant", assistantMessage)];
            }
          }
        }
        j := j + 1;
      }
      assert lines[..j] == lines;
    }

    /** The first half of `handleVideoSubmit`: the placeholder is added and opened; it is returned for the second half. */
    method BeginVideo(url: string, timestamp: string, newId: string) returns (placeholder: Item, tab: Tab)
      modifies this
      ensures State() == VideoBegun(old(State()), url, timestamp, newId)
      ensures placeholder == Placeholder(url, timestamp, newId, old(activeTab)) && tab == old(activeTab)
    {
      placeholder := Placeholder(url, timestamp, newId, activeTab);
      tab := activeTab;
      if activeTab == StyleTab {
        styles := styles + [placeholder];
      } else {
        sources := sources + [placeholder];
      }
      editingSource := Some(placeholder);
    }

    /** The second half, once the analysis request settles. */
    method FinishVideo(url: string, placeholder: Item, tab: Tab, reply: VideoReply)
      modifies this
      ensures State() == VideoFinished(old(State()), url, placeholder, tab, reply)
    {
      var item := Finished(url, placeholder, reply);
      if tab == StyleTab {
        styles := MapWhere(styles, HasId(placeholder.id), Replacing(item));
      } else {
        sources := MapWhere(sources, HasId(placeholder.id), Replacing(item));
      }
      editingSource := Some(item);
    }
  }

  // The chat endpoint and the page's decoder together.

  /** `JSON.parse` reads back the `content` that `JSON.stringify` wrote. */
  ghost predicate ParsesContent(contentOf: string -> Option<string>) {
    forall c :: contentOf(ContentJson(c)) == Some(c)
  }

  lemma FrameLineText(c: string, contentOf: string -> Option<string>)
    requires ParsesContent(contentOf)
    ensures LineText(DataPrefix + ContentJson(c), contentOf) == c
  {
    var line := DataPrefix + ContentJson(c);
    assert line[..6] == "data: " && line[6..] == ContentJson(c);
    assert ContentJson(c)[0] == '{';
  }

  /** A frame's line, its two line breaks and what follows split into the line, an empty line and the rest. */
  lemma TwoBreaks(line: string, rest: string)
    ensures line + ['\n'] + (['\n'] + rest) == line + "\n\n" + rest
  {
  }

  lemma SplitFrame(line: string, rest: string)
    requires '\n' !in line
    ensures Split(line + "\n\n" + rest, '\n') == [line] + ([""] + Split(rest, '\n'))
  {
    var r1 := ['\n'] + rest;
    assert "" + ['\n'] + rest == r1;
    SplitAfterPiece("", '\n', rest);
    SplitAfterPiece(line, '\n', r1);
    TwoBreaks(line, rest);
  }

  lemma DecodeTwoLines(a: string, b: string, lines: seq<string>, contentOf: string -> Option<string>)
    ensures DecodeLines([a] + ([b] + lines), contentOf) == LineText(a, contentOf) + LineText(b, contentOf) + DecodeLines(lines, contentOf)
  {
    assert ([a] + ([b] + lines))[1..] == [b] + lines;
    assert ([b] + lines)[1..] == lines;
  }

  lemma DoneDecodesNothing(contentOf: string -> Option<string>)
    ensures DecodeText("", contentOf) == ""
    ensures DecodeText(DoneFrame, contentOf) == ""
  {
    assert Split("", '\n') == [""];
    assert DecodeLines([""], contentOf) == "";
    var line := DataPrefix + DoneMarker;
    assert '\n' !in line;
    assert DoneFrame == line + "\n\n" + "";
    SplitFrame(line, "");
    DecodeTwoLines(line, "", [""], contentOf);
    assert line[..6] == "data: " && line[6..] == "[DONE]";
  }

  lemma FramesCons(chunks: seq<string>, tail: string)
    requires |chunks| > 0
    ensures Concat(Frames(chunks)) + tail ==
              DataPrefix + ContentJson(chunks[0]) + "\n\n" + (Concat(Frames(chunks[1..])) + tail)
  {
    var fs := Frames(chunks);
    ConcatCons(fs, tail);
    assert fs[1..] == Frames(chunks[1..]);
  }

  /** The frames of a sequence of chunks, read in one piece with anything after them, give back the chunks' text first. */
  lemma {:induction false} FramesDecode(chunks: seq<string>, tail: string, contentOf: string -> Option<string>)
    requires ParsesContent(contentOf)
    ensures DecodeText(Concat(Frames(chunks)) + tail, contentOf) == Concat(chunks) + DecodeText(tail, contentOf)
    decreases |chunks|
  {
    if |chunks| == 0 {
      assert Concat(Frames(chunks)) + tail == tail;
    } else {
      var rest := Concat(Frames(chunks[1..])) + tail;
      var line := DataPrefix + ContentJson(chunks[0]);
      assert '\n' !in line by {
        assert '\n' !in DataPrefix;
      }
      FramesCons(chunks, tail);
      SplitFrame(line, rest);
      DecodeTwoLines(line, "", Split(rest, '\n'), contentOf);
      FrameLineText(chunks[0], contentOf);
      FramesDecode(chunks[1..], tail, contentOf);
      assert LineText("", contentOf) == "";
      Regroup(chunks[0], Concat(chunks[1..]), DecodeText(tail, contentOf));
    }
  }

  lemma Regroup(a: string, b: string, c: string)
    ensures a + "" + (b + c) == (a + b) + c
  {
  }

  /**
   * Decoding everything the chat endpoint streams, received in a single read, gives the
   * concatenation of the provider's chunks, whether or not the stream ended with `[DONE]`.
   */
  lemma SingleReadRoundTrip(chunks: seq<string>, fails: bool, contentOf: string -> Option<string>)
    requires ParsesContent(contentOf)
    ensures DecodeText(Concat(Emitted(chunks, fails)), contentOf) == Concat(chunks)
  {
    var tail := if fails then [] else [DoneFrame];
    ConcatAppend(Frames(chunks), tail);
    assert Concat(tail) == if fails then "" else DoneFrame;
    FramesDecode(chunks, Concat(tail), contentOf);
    DoneDecodesNothing(contentOf);
  }

  /** The same when every frame arrives as a read of its own. */
  lemma {:induction false} FramePerReadRoundTrip(chunks: seq<string>, contentOf: string -> Option<string>)
    requires ParsesContent(contentOf)
    ensures Decoded(Frames(chunks), contentOf) == Concat(chunks)
    decreases |chunks|
  {
    if |chunks| > 0 {
      var init, last := chunks[..|chunks| - 1], chunks[|chunks| - 1];
      var fs := Frames(chunks);
      assert fs == Frames(init) + [Frame(last)];
      assert fs[..|fs| - 1] == Frames(init);
      assert Decoded(fs, contentOf) == Decoded(Frames(init), contentOf) + DecodeText(Frame(last), contentOf);
      FramePerReadRoundTrip(init, contentOf);
      FrameDecodes(last, contentOf);
      ConcatAppend(init, [last]);
      assert Concat([last]) == last;
      assert init + [last] == chunks;
    }
  }

  /** A single frame, read on its own, decodes to its chunk. */
  lemma FrameDecodes(chunk: string, contentOf: string -> Option<string>)
    requires ParsesContent(contentOf)
    ensures DecodeText(Frame(chunk), contentOf) == chunk
  {
    assert Frames([chunk]) == [Frame(chunk)];
    FramesDecode([chunk], "", contentOf);
    DoneDecodesNothing(contentOf);
    assert Concat([Frame(chunk)]) + "" == Frame(chunk);
    assert Concat([chunk]) == chunk;
  }

  /** Frame by frame, with or without the closing `[DONE]`, the reads give back the chunks. */
  lemma EmittedRoundTrip(chunks: seq<string>, fails: bool, contentOf: string -> Option<string>)
    requires ParsesContent(contentOf)
    ensures Decoded(Emitted(chunks, fails), contentOf) == Concat(chunks)
  {
    FramePerReadRoundTrip(chunks, contentOf);
    if !fails {
      var fs := Emitted(chunks, fails);
      assert fs[..|fs| - 1] == Frames(chunks);
      DoneDecodesNothing(contentOf);
    } else {
      assert Emitted(chunks, fails) == Frames(chunks);
    }
  }

  /**
   * End to end: sending a message to the chat endpoint, whose provider streams `up`, leaves the
   * user message followed by an assistant message holding all the chunks, frame by frame; when
   * the upstream fails the assistant message is dropped.
   */
  lemma ChatRoundTrip(s: PageState, up: Upstream, contentOf: string -> Option<string>)
    requires !IsBlank(s.input) && ParsesContent(contentOf)
    ensures var response := EventStream(FormatSelected(RequestOf(s).sources), Emitted(up.chunks, up.fails), !up.fails, up.fails);
            Sent(s, Received(response), contentOf).chat ==
              s.chat + [ChatLine("user", s.input)] + (if up.fails then [] else [ChatLine("assistant", Concat(up.chunks))])
  {
    var response := EventStream(FormatSelected(RequestOf(s).sources), Emitted(up.chunks, up.fails), !up.fails, up.fails);
    assert Received(response) == ChatStreamed(Emitted(up.chunks, up.fails), up.fails);
    EmittedRoundTrip(up.chunks, up.fails, contentOf);
  }
}
