/**
 * The message-synchronisation logic of the `MessagesView` component: loading a
 * conversation's history through a newest-first paginator, mapping raw SDK messages
 * into chat-feed entries, appending live `messageAdded` events, composing an outbound
 * message from the typed text and the staged files, and the reload gate on a change of
 * conversation.
 *
 * The messaging SDK is modelled as plain data: a paginator chain is the sequence of
 * pages it would yield, and each attachment carries the temporary URL it resolves to.
 */
module Messages {
  import opened Wrappers
  import opened Seqs

  /** A JavaScript `Date`, as milliseconds since the epoch; a `Date` object is always truthy. */
  type Instant = int

  datatype MessageType = TextMessage | MediaMessage

  /** A media attachment, through the URL `getContentTemporaryUrl()` resolves to (absent: `null`). */
  datatype MediaRef = MediaRef(temporaryUrl: Option<string>)

  /** A message record as the SDK delivers it; `author`, `body` and `dateCreated` may be `null`. */
  datatype RawMessage = RawMessage(
    author: Option<string>,
    body: Option<string>,
    dateCreated: Option<Instant>,
    kind: MessageType,
    attachedMedia: Option<seq<MediaRef>>)

  /**
   * One paginator: its items and whether an older page exists. In a chain `pages`,
   * `pages[0]` is what `getMessages()` resolves to and `pages[k + 1]` what
   * `pages[k].prevPage()` resolves to.
   */
  datatype Page = Page(items: seq<RawMessage>, hasPrevPage: bool)

  /** Why a history load rejected. */
  datatype LoadError =
    | GetMessagesRejected           // the chain is empty: `getMessages()` did not resolve
    | PrevPageRejected(page: nat)   // `pages[page]` claims an older page the chain does not hold

  /**
   * A feed entry, the `ExtendedMessageData` the view renders. `id` is 0 for the viewer's
   * own messages and 1 for everybody else's; `created` is `null` when absent.
   */
  datatype ChatMessage = ChatMessage(id: nat, message: string, senderName: string, created: Option<Instant>)

  /** A file from the file input, opaque to the model. */
  datatype StagedFile = StagedFile(name: string)

  /** One media part of an outbound message (the `FormData` wrapping one staged file). */
  datatype MediaPart = MediaPart(file: StagedFile)

  /** What the message builder hands to `send()`. */
  datatype Outbound = Outbound(body: string, media: seq<MediaPart>)

  /** At most how many characters of a temporary URL go into a message body. */
  const UrlPrefixLength := 120

  function Min(a: int, b: int): int {
    if a < b then a else b
  }

  // ---------------------------------------------------------------------------------
  // History: which pages the loop visits, and in what order their items end up.
  // ---------------------------------------------------------------------------------

  /** The index of the first page whose `hasPrevPage` is false, where the loop stops. */
  function FinalPage(pages: seq<Page>): (r: Option<nat>)
    ensures r.Some? ==> r.value < |pages| && !pages[r.value].hasPrevPage
    ensures r.Some? ==> forall k :: 0 <= k < r.value ==> pages[k].hasPrevPage
    ensures r.None? ==> forall k :: 0 <= k < |pages| ==> pages[k].hasPrevPage
  {
    if pages == [] then None
    else if !pages[0].hasPrevPage then Some(0)
    else match FinalPage(pages[1..])
      case None => None
      case Some(k) => Some(k + 1)
  }

  /** The item lists of a run of pages, in the order the pages were fetched. */
  function Items(pages: seq<Page>): seq<seq<RawMessage>> {
    seq(|pages|, k requires 0 <= k < |pages| => pages[k].items)
  }

  /** The items of a run of fetched pages are the matching run of the chain's items. */
  lemma ItemsSlice(pages: seq<Page>, a: nat, b: nat)
    requires a <= b <= |pages|
    ensures Items(pages[..b])[a..] == Items(pages[a..b])
  {
  }

  /**
   * The raw history `loadMessages` collects: the pages up to and including the first one
   * without an older page, reversed (oldest first), then flattened; or why it rejected.
   */
  function History(pages: seq<Page>): (r: Result<seq<RawMessage>, LoadError>)
    ensures r.Success? <==> exists k :: 0 <= k < |pages| && !pages[k].hasPrevPage
    ensures r == Failure(GetMessagesRejected) <==> pages == []
  {
    match FinalPage(pages)
    case Some(k) => Success(Flatten(Reverse(Items(pages[..k + 1]))))
    case None => if pages == [] then Failure(GetMessagesRejected) else Failure(PrevPageRejected(|pages| - 1))
  }

  /** One more page fetched puts its items in front of everything fetched before. */
  lemma PrependPage(pages: seq<Page>, i: nat)
    requires i < |pages|
    ensures Flatten(Reverse(Items(pages[..i + 1]))) == pages[i].items + Flatten(Reverse(Items(pages[..i])))
  {
    assert Items(pages[..i + 1]) == Items(pages[..i]) + [pages[i].items];
    ReverseSnoc(Items(pages[..i]), pages[i].items);
    var r := [pages[i].items] + Reverse(Items(pages[..i]));
    assert r[1..] == Reverse(Items(pages[..i]));
  }

  /**
   * The history is the fetched pages oldest to newest: item j of the k-th page fetched
   * sits right after all items of the pages fetched after it (the older ones).
   */
  lemma HistoryOrder(pages: seq<Page>, n: nat, k: nat, j: nat)
    requires FinalPage(pages) == Some(n) && k <= n && j < |pages[k].items|
    ensures History(pages).Success?
    ensures var h, offset := History(pages).value, TotalLength(Items(pages[k + 1..n + 1]));
      && |h| == TotalLength(Items(pages[..n + 1]))
      && offset + j < |h|
      && h[offset + j] == pages[k].items[j]
  {
    var ch := Items(pages[..n + 1]);
    assert History(pages) == Success(Flatten(Reverse(ch)));
    assert ch[k] == pages[k].items;
    ItemsSlice(pages, k + 1, n + 1);
    FlattenReverseAt(ch, k, j);
  }

  /** The newest page, the one `getMessages()` returned, ends the history. */
  lemma NewestPageLast(pages: seq<Page>)
    requires FinalPage(pages).Some?
    ensures History(pages).Success?
    ensures History(pages).value == Flatten(Reverse(Items(pages[1..FinalPage(pages).value + 1]))) + pages[0].items
  {
    var n := FinalPage(pages).value;
    FlattenReverseFirstLast(Items(pages[..n + 1]));
    assert Items(pages[..n + 1])[1..] == Items(pages[1..n + 1]);
  }

  /** A first page without an older page is the whole history; an empty one gives an empty history. */
  lemma SinglePageHistory(pages: seq<Page>)
    requires pages != [] && !pages[0].hasPrevPage
    ensures History(pages) == Success(pages[0].items)  // so a single empty page gives Success([])
  {
    var only := [pages[0].items];
    assert FinalPage(pages) == Some(0);
    assert Items(pages[..1]) == only;
    assert only[1..] == [];
    assert Reverse(only) == only;
    assert Flatten(only) == pages[0].items;
  }

  /** Pagination stops at the first page without an older one: what the chain holds beyond it is never read. */
  lemma {:induction false} HistoryIgnoresLaterPages(pages: seq<Page>, later: seq<Page>)
    requires FinalPage(pages).Some?
    ensures FinalPage(pages + later) == FinalPage(pages)
    ensures History(pages + later) == History(pages)
  {
    var n := FinalPage(pages).value;
    if n > 0 {
      assert (pages + later)[1..] == pages[1..] + later;
      HistoryIgnoresLaterPages(pages[1..], later);
    }
    assert (pages + later)[..n + 1] == pages[..n + 1];
  }

  /** A two-page chain: a newest page [m3, m4] and an older, last page [m1, m2]. */
  lemma TwoPageHistory(m1: RawMessage, m2: RawMessage, m3: RawMessage, m4: RawMessage)
    ensures History([Page([m3, m4], true), Page([m1, m2], false)]) == Success([m1, m2, m3, m4])
  {
    var pages := [Page([m3, m4], true), Page([m1, m2], false)];
    assert FinalPage(pages[1..]) == Some(0);
    assert FinalPage(pages) == Some(1);
    assert pages[..2] == pages;
    PrependPage(pages, 1);
    PrependPage(pages, 0);
    assert Items(pages[..0]) == [];
    assert Flatten(Reverse(Items(pages[..0]))) == [];
    assert History(pages).value == [m1, m2] + ([m3, m4] + []);
    assert [m1, m2] + ([m3, m4] + []) == [m1, m2, m3, m4];
  }

  // ---------------------------------------------------------------------------------
  // The mapper.
  // ---------------------------------------------------------------------------------

  /**
   * The feed entry id: 0 when the viewer's username equals the message author, else 1.
   * An absent username is `undefined` and an absent author `null`, which never compare equal.
   */
  function ChatId(viewer: Option<string>, author: Option<string>): (id: nat)
    ensures id <= 1
    ensures id == 0 <==> (viewer.Some? && author.Some? && viewer.value == author.value)
  {
    match viewer
    case None => 1
    case Some(username) => if author == Some(username) then 0 else 1
  }

  /** What one attachment adds to a body: a space and at most the first 120 characters of its URL. */
  function UrlFragment(url: Option<string>): string {
    match url
    case None => " "
    case Some(u) => " " + (if |u| <= UrlPrefixLength then u else u[..UrlPrefixLength])
  }

  /**
   * A fragment is a space followed by a prefix of the URL of at most 120 characters: all
   * of a shorter URL, and just the space when the URL is absent or empty.
   */
  lemma UrlFragmentShape(url: Option<string>)
    ensures var f := UrlFragment(url);
      && 1 <= |f| <= UrlPrefixLength + 1 && f[0] == ' '
      && (url.None? ==> f == " ")
      && (url.Some? ==> |f| == 1 + Min(UrlPrefixLength, |url.value|) && f[1..] <= url.value)
  {
  }

  /** The fragments of a run of attachments, in attachment order. */
  function Fragments(media: seq<MediaRef>): string {
    if media == [] then "" else UrlFragment(media[0].temporaryUrl) + Fragments(media[1..])
  }

  lemma {:induction false} FragmentsAppend(a: seq<MediaRef>, b: seq<MediaRef>)
    ensures Fragments(a + b) == Fragments(a) + Fragments(b)
  {
    if a == [] {
      assert a + b == b;
    } else {
      assert (a + b)[1..] == a[1..] + b;
      FragmentsAppend(a[1..], b);
    }
  }

  /** Each attachment adds between 1 and 121 characters. */
  lemma {:induction false} FragmentsLength(media: seq<MediaRef>)
    ensures |media| <= |Fragments(media)| <= (UrlPrefixLength + 1) * |media|
  {
    if media != [] {
      UrlFragmentShape(media[0].temporaryUrl);
      FragmentsLength(media[1..]);
    }
  }

  /** Attachment i's fragment sits between those of the attachments before and after it. */
  lemma FragmentsInOrder(media: seq<MediaRef>, i: nat)
    requires i < |media|
    ensures Fragments(media) == Fragments(media[..i]) + UrlFragment(media[i].temporaryUrl) + Fragments(media[i + 1..])
  {
    var before, after := media[..i], media[i..];
    assert media == before + after;
    FragmentsAppend(before, after);
    assert after[1..] == media[i + 1..];
    assert Fragments(after) == UrlFragment(media[i].temporaryUrl) + Fragments(media[i + 1..]);
  }

  /** Whether the mapper looks at the attachments: a media message with an attachment list. */
  predicate HasMedia(m: RawMessage) {
    m.kind == MediaMessage && m.attachedMedia.Some?
  }

  /** The body a raw message maps to: its text (or "") followed by its attachments' fragments. */
  function MessageBody(m: RawMessage): string {
    m.body.GetOr("") + (if HasMedia(m) then Fragments(m.attachedMedia.value) else "")
  }

  /**
   * A body starts with the message text (or ""); only a media message with an attachment
   * list gets more, and then at most 121 characters per attachment.
   */
  lemma MessageBodyShape(m: RawMessage)
    ensures var text, b := m.body.GetOr(""), MessageBody(m);
      && |b| >= |text| && b[..|text|] == text
      && (!HasMedia(m) ==> b == text)
      && (HasMedia(m) ==> |text| + |m.attachedMedia.value| <= |b| <= |text| + (UrlPrefixLength + 1) * |m.attachedMedia.value|)
  {
    if HasMedia(m) {
      FragmentsLength(m.attachedMedia.value);
    }
  }

  /** The feed entry `makeChatMessage` builds for message `m` as seen by `viewer`. */
  function ChatMessageOf(viewer: Option<string>, m: RawMessage): ChatMessage {
    ChatMessage(ChatId(viewer, m.author), MessageBody(m), m.author.GetOr(""), m.dateCreated)
  }

  /** The feed a run of raw messages maps to, one entry each, in order. */
  function ChatFeed(viewer: Option<string>, raw: seq<RawMessage>): (feed: seq<ChatMessage>)
    ensures |feed| == |raw|
    ensures forall i :: 0 <= i < |raw| ==> feed[i] == ChatMessageOf(viewer, raw[i])
  {
    if raw == [] then [] else ChatFeed(viewer, raw[..|raw| - 1]) + [ChatMessageOf(viewer, raw[|raw| - 1])]
  }

  /** Mapping commutes with concatenation: a live message after a loaded history maps as one run. */
  lemma ChatFeedAppend(viewer: Option<string>, a: seq<RawMessage>, b: seq<RawMessage>)
    ensures ChatFeed(viewer, a + b) == ChatFeed(viewer, a) + ChatFeed(viewer, b)
  {
  }

  // ---------------------------------------------------------------------------------
  // The component.
  // ---------------------------------------------------------------------------------

  /** The mutable part of the `MessagesView` component: its props' conversation and its state. */
  class MessagesView {
    /**
     * `this.props.conversation.sid`. A re-render of the parent with another conversation
     * reassigns it; here that is the first step of `ComponentDidUpdate`.
     */
    var sid: string
    /** `this.state.messages`, the feed. */
    var messages: seq<ChatMessage>
    /** `this.state.files`, the file selection staged for the next send (`null` before any). */
    var files: Option<seq<StagedFile>>

    constructor (sid: string)
      ensures this.sid == sid && messages == [] && files == None
    {
      this.sid := sid;
      messages := [];
      files := None;
    }

    /** `makeChatMessage`: the body grows by one fragment per attachment, in order. */
    method MakeChatMessage(viewer: Option<string>, m: RawMessage) returns (c: ChatMessage)
      ensures c == ChatMessageOf(viewer, m)
      ensures c.id == 0 <==> (viewer.Some? && m.author.Some? && viewer.value == m.author.value)
      ensures c.senderName == m.author.GetOr("") && c.created == m.dateCreated
    {
      var text := m.body.GetOr("");
      var body := text;
      if m.kind == MediaMessage && m.attachedMedia.Some? {
        var media := m.attachedMedia.value;
        assert media[0..] == media;
        for i := 0 to |media|
          invariant body + Fragments(media[i..]) == MessageBody(m)
        {
          var fragment := UrlFragment(media[i].temporaryUrl);
          assert media[i..][1..] == media[i + 1..];
          assert body + Fragments(media[i..]) == (body + fragment) + Fragments(media[i + 1..]);
          body := body + fragment;
        }
        assert body + "" == body;
      } else {
        assert text + "" == text;
      }
      c := ChatMessage(ChatId(viewer, m.author), body, m.author.GetOr(""), m.dateCreated);
    }

    /** The paging loop of `loadMessages`: prepend each page, step to the older one while there is one. */
    method CollectHistory(pages: seq<Page>) returns (r: Result<seq<RawMessage>, LoadError>)
      ensures r == History(pages)
    {
      if pages == [] {
        return Failure(GetMessagesRejected);
      }
      var collected: seq<RawMessage> := [];
      var pager := 0;
      while true
        invariant pager < |pages|
        invariant forall k :: 0 <= k < pager ==> pages[k].hasPrevPage
        invariant collected == Flatten(Reverse(Items(pages[..pager])))
        decreases |pages| - pager
      {
        PrependPage(pages, pager);
        collected := pages[pager].items + collected;
        if !pages[pager].hasPrevPage {
          return Success(collected);
        }
        if pager + 1 == |pages| {
          return Failure(PrevPageRejected(pager));
        }
        pager := pager + 1;
      }
    }

    /** The mapping loop of `loadMessages`: one feed entry per raw message, in order. */
    method MapMessages(viewer: Option<string>, raw: seq<RawMessage>) returns (chat: seq<ChatMessage>)
      ensures chat == ChatFeed(viewer, raw)
    {
      chat := [];
      for i := 0 to |raw|
        invariant chat == ChatFeed(viewer, raw[..i])
      {
        var c := MakeChatMessage(viewer, raw[i]);
        assert raw[..i + 1][..i] == raw[..i];
        chat := chat + [c];
      }
      assert raw[..|raw|] == raw;
    }

    /**
     * `loadMessages`: on success the feed is replaced wholesale by the mapped history,
     * whatever it held before; a rejected load leaves it alone. The outcome is what the
     * returned promise settles with: the raw history, or the rejection that stopped it.
     */
    method LoadMessages(viewer: Option<string>, pages: seq<Page>) returns (r: Result<seq<RawMessage>, LoadError>)
      modifies this`messages
      ensures r == History(pages)
      ensures r.Success? ==> messages == ChatFeed(viewer, r.value)
      ensures r.Failure? ==> messages == old(messages)
      ensures files == old(files) && sid == old(sid)
    {
      r := CollectHistory(pages);
      if r.Success? {
        var chat := MapMessages(viewer, r.value);
        messages := chat;
      }
    }

    /** The `messageAdded` listener: exactly one mapped entry goes at the end of the feed. */
    method MessageAdded(viewer: Option<string>, m: RawMessage)
      modifies this`messages
      ensures messages == old(messages) + [ChatMessageOf(viewer, m)]
      ensures files == old(files) && sid == old(sid)
    {
      var c := MakeChatMessage(viewer, m);
      messages := messages + [c];
    }

    /** `onAddMedia`: the new selection replaces the staged files; the feed is untouched. */
    method OnAddMedia(selection: Option<seq<StagedFile>>)
      modifies this`files
      ensures files == selection
      ensures messages == old(messages) && sid == old(sid)
    {
      files := selection;
    }

    /**
     * `onAddMessage`: the outbound message carries the typed text and one media part per
     * staged file, in selection order. Nothing of the component's state changes, so the
     * staged files stay staged after the send.
     */
    method OnAddMessage(text: string) returns (out: Outbound)
      ensures out.body == text
      ensures files.None? ==> out.media == []
      ensures files.Some? ==> |out.media| == |files.value|
      ensures files.Some? ==> forall i :: 0 <= i < |files.value| ==> out.media[i] == MediaPart(files.value[i])
    {
      var builder := Outbound(text, []);
      if files.Some? {
        var staged := files.value;
        for i := 0 to |staged|
          invariant builder.body == text && |builder.media| == i
          invariant forall k :: 0 <= k < i ==> builder.media[k] == MediaPart(staged[k])
        {
          builder := builder.(media := builder.media + [MediaPart(staged[i])]);
        }
      }
      out := builder;
    }

    /** `componentDidMount`: the first history load. */
    method ComponentDidMount(viewer: Option<string>, pages: seq<Page>) returns (r: Result<seq<RawMessage>, LoadError>)
      modifies this`messages
      ensures r == History(pages)
      ensures r.Success? ==> messages == ChatFeed(viewer, r.value)
      ensures r.Failure? ==> messages == old(messages)
      ensures files == old(files) && sid == old(sid)
    {
      r := LoadMessages(viewer, pages);
    }

    /**
     * The parent re-renders with the conversation `newSid`, then `componentDidUpdate` runs:
     * nothing is loaded while the `sid` is the previous one; a different `sid` reloads the
     * feed. The outcome is `None` for the early return and the load's outcome otherwise.
     */
    method ComponentDidUpdate(newSid: string, viewer: Option<string>, pages: seq<Page>)
      returns (r: Option<Result<seq<RawMessage>, LoadError>>)
      modifies this`sid, this`messages
      ensures sid == newSid && files == old(files)
      ensures newSid == old(sid) ==> r == None && messages == old(messages)
      ensures newSid != old(sid) ==> r == Some(History(pages))
      ensures newSid != old(sid) && r.value.Success? ==> messages == ChatFeed(viewer, r.value.value)
      ensures newSid != old(sid) && r.value.Failure? ==> messages == old(messages)
    {
      var prevSid := sid;
      sid := newSid;
      if prevSid == sid {
        return None;
      }
      var outcome := LoadMessages(viewer, pages);
      r := Some(outcome);
    }
  }
}
