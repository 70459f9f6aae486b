/** The chat screen: the `@`-mention engine over the product catalogue, query
    submission, chat selection and deletion, history loading, and the cache of
    link metadata filled through a chain of proxies. Network results are
    parameters of the handlers. */
module Home {
  import opened Wrappers
  import opened Text
  import opened Seqs
  import ProductModal

  type Product = ProductModal.Product

  // ================================================================ data

  /** A saved conversation as the chat list returns it. */
  datatype ChatSummary = ChatSummary(chatId: string, chatName: string, productColors: seq<string>)

  /** The selected conversation: its id and name. */
  datatype ChatRef = ChatRef(chatId: string, chatName: string)

  /** One query with its answer and the material the answer came with. */
  datatype Turn = Turn(
    query: string, answer: string,
    pdfReferences: seq<string>, onlineImages: seq<string>, onlineVideos: seq<string>,
    onlineLinks: seq<string>, relevantQueries: seq<string>)

  /** What the page of a link is shown with. */
  datatype LinkMetadata = LinkMetadata(title: string, description: string, image: Option<string>)

  /** The keys the input reacts to while suggestions may be shown. */
  datatype Key = ArrowDown | ArrowUp | Enter | Escape | AtSign | OtherKey

  /** The body of `POST /api/query`. */
  datatype QueryRequest = QueryRequest(query: string, orgQuery: string, chatId: Option<string>)

  /** The fields of a successful answer; a missing list is None. `altChatId` is the
      `chatId` spelling the code also accepts when deciding to refresh the chat list. */
  datatype QueryData = QueryData(
    chatId: Option<string>, altChatId: Option<string>, chatName: string, answer: string,
    pdfReferences: Option<seq<string>>, onlineImages: Option<seq<string>>,
    onlineVideos: Option<seq<string>>, onlineLinks: Option<seq<string>>,
    relatedQueries: Option<seq<string>>)

  /** The body of a refused query: JSON with optional `detail` and `error` fields, or
      text from which those fields cannot be read. */
  datatype ErrorBody = JsonBody(detail: Option<string>, error: Option<string>) | TextBody(text: string)

  /** How a query request ends. */
  datatype QueryOutcome =
    | Answered(data: QueryData)
    | Refused(status: nat, body: ErrorBody)
    | QueryThrew(message: string)

  /** How a chat-history request ends: the parsed body (None when it is not a list) or a failure. */
  datatype HistoryOutcome = HistoryLoaded(messages: Option<seq<Turn>>) | HistoryFailed

  /** How a chat deletion ends: done, refused with the response text, or thrown. */
  datatype DeleteOutcome = Deleted | DeleteRefused(errorText: string) | DeleteThrew(message: string)

  /** The fields read from a page's HTML; absent tags are None. */
  datatype PageFields = PageFields(
    titleText: Option<string>, ogTitle: Option<string>,
    description: Option<string>, ogDescription: Option<string>, ogImage: Option<string>)

  /** How one proxy request ends: the page, HTTP 429, or any other failure. */
  datatype ProxyOutcome = ProxyOk(page: PageFields) | RateLimited | ProxyFailed

  const EmptyQueryError: string := "Please enter a query"
  const GenericQueryError: string := "An error occurred while processing your request"
  const NewChatName: string := "New Chat"
  /** Starts the alert of a failed deletion; a refused one carries it twice, once from
      the error raised and once from the alert. */
  const DeleteAlertPrefix: string := "Failed to delete chat: "
  const UnnamedChat: string := "Unnamed Chat"
  const MinInputHeight: int := 48
  const MaxInputHeight: int := 96
  const ProxyCount: nat := 3
  const CorsDescription: string := "Content not accessible due to CORS restrictions"
  const UnreachableDescription: string := "Unable to fetch content"

  // ================================================================ mention detection

  /** The pattern `@([^\s]*)$` matches the text starting at position `p`. */
  predicate MentionAt(text: string, p: int) {
    0 <= p < |text| && text[p] == '@' && NoSpace(text[p + 1..])
  }

  /** The first position at or after `from` where the pattern matches. */
  function FindMention(text: string, from: nat): (r: Option<nat>)
    requires from <= |text|
    ensures r.Some? ==> from <= r.value && MentionAt(text, r.value)
    ensures r.Some? ==> forall q :: from <= q < r.value ==> !MentionAt(text, q)
    ensures r.None? ==> forall q :: from <= q < |text| ==> !MentionAt(text, q)
    decreases |text| - from
  {
    if from == |text| then None
    else if MentionAt(text, from) then Some(from)
    else FindMention(text, from + 1)
  }

  /** The search term of the text before the caret: what follows the leftmost `@`
      from which only non-white-space characters run to the end (the regular
      expression's leftmost match), or None when there is no such `@`. */
  function MentionTerm(before: string): (r: Option<string>)
    ensures r.Some? <==> exists p :: MentionAt(before, p)
    ensures r.Some? ==>
      (var p := |before| - |r.value| - 1;
       0 <= p && MentionAt(before, p) && r.value == before[p + 1..]
       && NoSpace(r.value) && forall q :: 0 <= q < p ==> !MentionAt(before, q))
  {
    match FindMention(before, 0)
    case None => None
    case Some(p) => Some(before[p + 1..])
  }

  /** The products whose lower-cased title contains `term`, in catalogue order. */
  function FilterProducts(products: seq<Product>, term: string): (r: seq<Product>)
    ensures forall i :: 0 <= i < |r| ==> r[i] in products && Includes(ToLower(r[i].title), term)
    ensures forall i :: 0 <= i < |products| && Includes(ToLower(products[i].title), term) ==> products[i] in r
  {
    Filter(products, (p: Product) => Includes(ToLower(p.title), term))
  }

  /** The suggestions for the text before the caret: None (panel hidden) unless the
      text ends in a mention and the catalogue is not empty; then the products matching
      the lower-cased term. */
  function Suggestions(products: seq<Product>, before: string): (r: Option<seq<Product>>)
    ensures r.Some? <==> |products| > 0 && exists p :: MentionAt(before, p)
    ensures r.Some? ==> r.value == FilterProducts(products, ToLower(MentionTerm(before).value))
  {
    var term := MentionTerm(before);
    if term.Some? && |products| > 0 then Some(FilterProducts(products, ToLower(term.value))) else None
  }

  /** A bare `@` (empty term) suggests the whole catalogue, in order. */
  lemma BareAtSuggestsAll(products: seq<Product>, before: string)
    requires |products| > 0 && MentionTerm(before) == Some("")
    ensures Suggestions(products, before) == Some(products)
  {
    var keep := (p: Product) => Includes(ToLower(p.title), ToLower(""));
    forall i | 0 <= i < |products| ensures keep(products[i]) {
      IncludesEmpty(ToLower(products[i].title));
    }
    FilterKeepsAll(products, keep);
  }

  /** The term starts after the leftmost `@` of the trailing match, while insertion
      splices at the LAST `@` before the caret: the two agree exactly when the term
      holds no `@`. */
  lemma MentionStartVersusLastAt(before: string)
    requires MentionTerm(before).Some?
    ensures var term := MentionTerm(before).value;
      var p := |before| - |term| - 1;
      LastIndexOf(before, '@') >= p && (LastIndexOf(before, '@') == p <==> '@' !in term)
  {
    var term := MentionTerm(before).value;
    var p := |before| - |term| - 1;
    var last := LastIndexOf(before, '@');
    if '@' in term {
      var k :| 0 <= k < |term| && term[k] == '@';
      assert before[p + 1 + k] == '@';
    } else {
      forall k | p < k < |before| ensures before[k] != '@' {
        assert before[k] == term[k - p - 1];
      }
    }
  }

  // ================================================================ keyboard and insertion

  /** The highlighted suggestion after ArrowDown or ArrowUp: one step at most, towards
      the end or the start, stopping at either end without wrapping around. */
  function MoveHighlight(key: Key, index: nat, count: nat): (r: nat)
    requires key == ArrowDown || key == ArrowUp
    requires index == 0 || index < count
    ensures r == 0 || r < count
    ensures key == ArrowDown ==> index <= r <= index + 1 && (r == index <==> index + 1 >= count)
    ensures key == ArrowUp ==> r <= index && index <= r + 1 && (r == index <==> index == 0)
  {
    if key == ArrowDown then (if index < count - 1 then index + 1 else index)
    else (if index > 0 then index - 1 else index)
  }

  /** `text.slice(0, caret)`: the text before the caret. */
  function TextBeforeCaret(text: string, caret: nat): (r: string)
    ensures r == text[..SliceIndex(caret, |text|)]
  {
    Slice(text, 0, caret)
  }

  /** Inserting a product title at the caret: the text up to the last `@` before the
      caret, then `@`, the title and a space, then the text after the caret; and the new
      caret position, `lastAt + |title| + 2`. With an `@` before the caret the caret lands
      right after the inserted space and the text after it is the old text after the
      caret. Without one (`lastAt` is -1) the slice drops the character before the caret
      and the caret lands inside the inserted text. */
  function InsertMention(query: string, caret: nat, title: string): (r: (string, int))
    ensures var cut := SliceIndex(caret, |query|);
      var before := query[..cut];
      '@' in before ==>
        (var lastAt := LastIndexOf(before, '@');
         && r.0 == query[..lastAt] + "@" + title + " " + query[cut..]
         && r.1 == lastAt + |title| + 2
         && r.0[..r.1] == query[..lastAt] + "@" + title + " "
         && r.0[r.1..] == query[cut..])
    ensures var cut := SliceIndex(caret, |query|);
      '@' !in query[..cut] ==>
        (&& r.0 == query[..if cut == 0 then 0 else cut - 1] + "@" + title + " " + query[cut..]
         && r.1 == |title| + 1
         && r.1 < |r.0| - |query[cut..]|)
  {
    var before := Slice(query, 0, caret);
    var after := SliceFrom(query, caret);
    var lastAt := LastIndexOf(before, '@');
    var text := Slice(before, 0, lastAt) + "@" + title + " " + after;
    var cut := SliceIndex(caret, |query|);
    assert before == query[..cut] && after == query[cut..];
    assert lastAt >= 0 ==> Slice(before, 0, lastAt) == query[..lastAt];
    assert lastAt >= 0 ==> text[..lastAt + |title| + 2] == query[..lastAt] + "@" + title + " ";
    (text, lastAt + |title| + 2)
  }

  /** Worked example: "Please review @pro" with the caret at the end and the product
      "Product X". */
  lemma InsertExample()
    ensures InsertMention("Please review @pro", 18, "Product X") == ("Please review @Product X ", 25)
  {
    var q := "Please review @pro";
    assert q[..18] == q;
    assert q[17] == 'o' && q[16] == 'r' && q[15] == 'p' && q[14] == '@';
    assert LastIndexOf(q, '@') == 14;
    assert q[..14] + "@" + "Product X" + " " + q[18..] == "Please review @Product X ";
  }

  /** Detection and insertion disagree on "@a@b": the term is "a@b" (leftmost `@`), but
      the title replaces only "@b" (last `@`). */
  lemma AsymmetryExample()
    ensures MentionTerm("@a@b") == Some("a@b")
    ensures InsertMention("@a@b", 4, "X") == ("@a@X ", 5)
  {
    var t := "@a@b";
    assert NoSpace(t[1..]) by {
      assert t[1..] == "a@b";
    }
    assert MentionAt(t, 0);
    assert t[..4] == t;
    assert t[3] == 'b' && t[2] == '@';
    assert LastIndexOf(t, '@') == 2;
    assert t[..2] + "@" + "X" + " " + t[4..] == "@a@X ";
  }

  // ================================================================ small display helpers

  /** The textarea height: the content height clamped to [48, 96]. */
  function ClampHeight(scrollHeight: int): (r: int)
    ensures MinInputHeight <= r <= MaxInputHeight
    ensures MinInputHeight <= scrollHeight <= MaxInputHeight ==> r == scrollHeight
    ensures scrollHeight < MinInputHeight ==> r == MinInputHeight
    ensures scrollHeight > MaxInputHeight ==> r == MaxInputHeight
  {
    var atLeast := if scrollHeight > MinInputHeight then scrollHeight else MinInputHeight;
    if atLeast < MaxInputHeight then atLeast else MaxInputHeight
  }

  /** The label of a link: titles longer than 10 characters become their first 15
      characters and "...", so a title of 11 to 15 characters keeps all its characters
      and grows by the three dots. */
  function TruncateTitle(title: string): (r: string)
    ensures |title| <= 10 ==> r == title
    ensures 10 < |title| <= 15 ==> r == title + "..." && |r| == |title| + 3
    ensures |title| > 15 ==> r == title[..15] + "..." && |r| == 18
  {
    if |title| > 10 then Slice(title, 0, 15) + "..." else title
  }

  /** What a link is labelled with: its cached title, or "Loading..." (which fits the
      10-character threshold) while nothing is cached. */
  function LinkLabel(metadata: map<string, LinkMetadata>, link: string): (r: string)
    ensures link !in metadata ==> r == "Loading..."
    ensures link in metadata ==> r == TruncateTitle(metadata[link].title)
  {
    TruncateTitle(if link in metadata then metadata[link].title else "Loading...")
  }

  // ================================================================ submission

  /** The message of a refused query: the body's `detail`, else its `error`, else
      "Error: <status>"; for a body that is not JSON, the status and the first 100
      characters of the text. Never empty. */
  function RefusalMessage(status: nat, body: ErrorBody): (r: string)
    ensures r != ""
    ensures body.JsonBody? && Truthy(body.detail) ==> r == body.detail.value
    ensures body.JsonBody? && !Truthy(body.detail) && Truthy(body.error) ==> r == body.error.value
    ensures body.JsonBody? && !Truthy(body.detail) && !Truthy(body.error) ==> r == "Error: " + Decimal(status)
    ensures body.TextBody? ==>
      r == "Error: " + Decimal(status) + " - " + body.text[..if |body.text| < 100 then |body.text| else 100]
  {
    match body
    case JsonBody(detail, error) => OrElse(detail, OrElse(error, "Error: " + Decimal(status)))
    case TextBody(text) => "Error: " + Decimal(status) + " - " + Slice(text, 0, 100)
  }

  /** The error shown after a failed query: the failure's message, or the generic one
      when that message is empty. */
  function FailureMessage(outcome: QueryOutcome): (r: string)
    requires !outcome.Answered?
    ensures r != ""
    ensures outcome.Refused? ==> r == RefusalMessage(outcome.status, outcome.body)
    ensures outcome.QueryThrew? ==> r == if outcome.message != "" then outcome.message else GenericQueryError
  {
    var message := if outcome.Refused? then RefusalMessage(outcome.status, outcome.body) else outcome.message;
    if message != "" then message else GenericQueryError
  }

  /** The turn appended for an answer: the query, the answer, and each list of the
      answer, with a missing list becoming []. */
  function MakeTurn(query: string, data: QueryData): (r: Turn)
    ensures r.query == query && r.answer == data.answer
    ensures data.pdfReferences.None? ==> r.pdfReferences == []
    ensures data.pdfReferences.Some? ==> r.pdfReferences == data.pdfReferences.value
    ensures data.onlineImages.None? ==> r.onlineImages == []
    ensures data.onlineImages.Some? ==> r.onlineImages == data.onlineImages.value
    ensures data.onlineVideos.None? ==> r.onlineVideos == []
    ensures data.onlineVideos.Some? ==> r.onlineVideos == data.onlineVideos.value
    ensures data.onlineLinks.None? ==> r.onlineLinks == []
    ensures data.onlineLinks.Some? ==> r.onlineLinks == data.onlineLinks.value
    ensures data.relatedQueries.None? ==> r.relevantQueries == []
    ensures data.relatedQueries.Some? ==> r.relevantQueries == data.relatedQueries.value
  {
    Turn(query, data.answer,
      data.pdfReferences.GetOr([]), data.onlineImages.GetOr([]), data.onlineVideos.GetOr([]),
      data.onlineLinks.GetOr([]), data.relatedQueries.GetOr([]))
  }

  /** The chat id a query is sent with: the selected chat's id, or null. */
  function SelectedId(selected: Option<ChatRef>): (r: Option<string>)
    ensures r.Some? <==> selected.Some? && selected.value.chatId != ""
    ensures r.Some? ==> r.value == selected.value.chatId
  {
    if selected.Some? && selected.value.chatId != "" then Some(selected.value.chatId) else None
  }

  /** An answer switches the selected chat when it names a chat and none is selected or
      a different one is. */
  predicate SwitchesChat(selected: Option<ChatRef>, data: QueryData)
    ensures SwitchesChat(selected, data) <==> Truthy(data.chatId) && SelectedId(selected) != data.chatId
  {
    Truthy(data.chatId) && (selected.None? || selected.value.chatId != data.chatId.value)
  }

  // ================================================================ history

  /** The messages shown after a history request: the returned list, or [] when the
      request failed or the body was not a list, so no previous chat's messages remain. */
  function LoadedMessages(history: HistoryOutcome): (r: seq<Turn>)
    ensures history.HistoryFailed? || history.messages.None? ==> r == []
    ensures history.HistoryLoaded? && history.messages.Some? ==> r == history.messages.value
  {
    match history
    case HistoryLoaded(Some(messages)) => messages
    case _ => []
  }

  /** The current result after a history request: the last loaded message, None when
      the list is empty or not a list, and the previous one when the request failed. */
  function LoadedResult(history: HistoryOutcome, previous: Option<Turn>): (r: Option<Turn>)
    ensures history.HistoryFailed? ==> r == previous
    ensures history.HistoryLoaded? ==> (r.Some? <==> |LoadedMessages(history)| > 0)
    ensures history.HistoryLoaded? && r.Some? ==>
      r.value == LoadedMessages(history)[|LoadedMessages(history)| - 1]
  {
    match history
    case HistoryFailed => previous
    case HistoryLoaded(messages) =>
      if messages.Some? && |messages.value| > 0 then Some(messages.value[|messages.value| - 1]) else None
  }

  // ================================================================ link metadata

  /** The metadata read from a page: title from `<title>`, else og:title, else
      "Unknown Title"; description from the description meta tag, else og:description,
      else "No description available"; image from og:image, else none. An empty value
      counts as absent. */
  function PageMetadata(page: PageFields): (r: LinkMetadata)
    ensures Truthy(page.titleText) ==> r.title == page.titleText.value
    ensures !Truthy(page.titleText) && Truthy(page.ogTitle) ==> r.title == page.ogTitle.value
    ensures !Truthy(page.titleText) && !Truthy(page.ogTitle) ==> r.title == "Unknown Title"
    ensures Truthy(page.description) ==> r.description == page.description.value
    ensures !Truthy(page.description) && Truthy(page.ogDescription) ==> r.description == page.ogDescription.value
    ensures !Truthy(page.description) && !Truthy(page.ogDescription) ==> r.description == "No description available"
    ensures r.image == if Truthy(page.ogImage) then page.ogImage else None
    ensures r.title != "" && r.description != ""
  {
    LinkMetadata(
      OrElse(page.titleText, OrElse(page.ogTitle, "Unknown Title")),
      OrElse(page.description, OrElse(page.ogDescription, "No description available")),
      if Truthy(page.ogImage) then page.ogImage else None)
  }

  /** The page of the first proxy that answered; rate-limited and failed proxies are
      passed over. */
  function FirstPage(outcomes: seq<ProxyOutcome>): (r: Option<PageFields>)
    ensures r.None? <==> forall i :: 0 <= i < |outcomes| ==> !outcomes[i].ProxyOk?
    ensures r.Some? ==>
      exists i :: 0 <= i < |outcomes| && outcomes[i] == ProxyOk(r.value)
        && forall j :: 0 <= j < i ==> !outcomes[j].ProxyOk?
  {
    if |outcomes| == 0 then None
    else if outcomes[0].ProxyOk? then Some(outcomes[0].page)
    else
      var rest := FirstPage(outcomes[1..]);
      assert forall i :: 0 < i < |outcomes| ==> outcomes[i] == outcomes[1..][i - 1];
      rest
  }

  /** Proxies that did not answer, whether rate-limited or failed, change nothing:
      the outcome is that of the proxies after them. */
  lemma {:induction false} UnansweredProxiesSkipped(skipped: seq<ProxyOutcome>, rest: seq<ProxyOutcome>)
    requires forall i :: 0 <= i < |skipped| ==> !skipped[i].ProxyOk?
    ensures FirstPage(skipped + rest) == FirstPage(rest)
  {
    if |skipped| > 0 {
      assert (skipped + rest)[1..] == skipped[1..] + rest;
      UnansweredProxiesSkipped(skipped[1..], rest);
    } else {
      assert skipped + rest == rest;
    }
  }

  /** The metadata a fetch ends with: from the first answering proxy's page; else, when
      the direct no-cors request went through, the host name with the CORS notice; else
      the host name with "Unable to fetch content". */
  function ResolveMetadata(outcomes: seq<ProxyOutcome>, directOk: bool, hostname: string): LinkMetadata {
    match FirstPage(outcomes)
    case Some(page) => PageMetadata(page)
    case None =>
      LinkMetadata(hostname, if directOk then CorsDescription else UnreachableDescription, None)
  }

  // ================================================================ the screen

  /** All the state of the screen that the handlers read or write. */
  datatype Screen = Screen(
    query: string, loading: bool, showLoading: bool, error: Option<string>,
    chatList: seq<ChatSummary>, chatMessages: seq<Turn>, selectedChat: Option<ChatRef>,
    chatName: string, results: Option<Turn>, products: seq<Product>,
    showSuggestions: bool, suggestionIndex: nat, filteredProducts: seq<Product>,
    metadata: map<string, LinkMetadata>)

  class ChatScreen {
    var query: string
    var loading: bool
    var showLoading: bool
    var error: Option<string>
    var chatList: seq<ChatSummary>
    var chatMessages: seq<Turn>
    var selectedChat: Option<ChatRef>
    var chatName: string
    var results: Option<Turn>
    var products: seq<Product>
    var showSuggestions: bool
    var suggestionIndex: nat
    var filteredProducts: seq<Product>
    var metadata: map<string, LinkMetadata>

    function State(): Screen
      reads this
    {
      Screen(query, loading, showLoading, error, chatList, chatMessages, selectedChat,
        chatName, results, products, showSuggestions, suggestionIndex, filteredProducts, metadata)
    }

    /** Between two events nothing is loading (the flags are cleared on every path),
        and the highlighted suggestion is a position of the suggestion list (or 0). */
    ghost predicate Valid()
      reads this
    {
      && !loading && !showLoading
      && (suggestionIndex == 0 || suggestionIndex < |filteredProducts|)
    }

    constructor ()
      ensures Valid()
      ensures State() == Screen("", false, false, None, [], [], None, NewChatName, None, [],
        false, 0, [], map[])
    {
      query, loading, showLoading, error := "", false, false, None;
      chatList, chatMessages, selectedChat := [], [], None;
      chatName, results, products := NewChatName, None, [];
      showSuggestions, suggestionIndex, filteredProducts := false, 0, [];
      metadata := map[];
    }

    /** Applies the product-catalogue fetch: replaced when it could be read. */
    method LoadProducts(fetched: Option<seq<Product>>)
      modifies this
      ensures State() == old(State()).(products := if fetched.Some? then fetched.value else old(products))
    {
      if fetched.Some? {
        products := fetched.value;
      }
    }

    /** Applies a chat-list fetch: the list is replaced when it could be read, and the
        result is handed back to the caller (None on failure). */
    method FetchChatList(fetched: Option<seq<ChatSummary>>) returns (data: Option<seq<ChatSummary>>)
      modifies this
      ensures data == fetched
      ensures State() == old(State()).(chatList := if fetched.Some? then fetched.value else old(chatList))
    {
      if fetched.Some? {
        chatList := fetched.value;
      }
      data := fetched;
    }

    /** The input changes to `newValue` with the caret at `caret`. The height follows
        the content within [48, 96]; suggestions show, filtered and with the first one
        highlighted, when the text before the caret ends in a mention and the catalogue
        is not empty; otherwise the panel hides and keeps its list and highlight. */
    method HandleQueryChange(newValue: string, caret: nat, scrollHeight: int) returns (height: int)
      requires Valid()
      modifies this
      ensures Valid()
      ensures height == ClampHeight(scrollHeight)
      ensures var found := Suggestions(old(products), TextBeforeCaret(newValue, caret));
        found.Some? ==>
          State() == old(State()).(query := newValue, filteredProducts := found.value,
            showSuggestions := true, suggestionIndex := 0)
      ensures Suggestions(old(products), TextBeforeCaret(newValue, caret)).None? ==>
        State() == old(State()).(query := newValue, showSuggestions := false)
    {
      query := newValue;
      height := ClampHeight(scrollHeight);
      var found := Suggestions(products, TextBeforeCaret(newValue, caret));
      if found.Some? {
        filteredProducts := found.value;
        showSuggestions := true;
        suggestionIndex := 0;
      } else {
        showSuggestions := false;
      }
    }

    /** A key goes down in the input with the caret at `caret`. Nothing happens while
        the panel is hidden. ArrowDown and ArrowUp move the highlight within the list;
        Enter, when the list is not empty, inserts the highlighted title and hides the
        panel, returning the new caret position; Escape hides the panel and keeps the
        text; `@` shows the whole catalogue with the first product highlighted. */
    method HandleKeyDown(key: Key, caret: nat) returns (newCaret: Option<int>)
      requires Valid()
      modifies this
      ensures Valid()
      ensures !old(showSuggestions) ==> newCaret == None && State() == old(State())
      ensures old(showSuggestions) && (key == ArrowDown || key == ArrowUp) ==>
        newCaret == None
        && State() == old(State()).(suggestionIndex :=
             MoveHighlight(key, old(suggestionIndex), |old(filteredProducts)|))
      ensures old(showSuggestions) && key == Enter && |old(filteredProducts)| > 0 ==>
        (var inserted := InsertMention(old(query), caret, old(filteredProducts)[old(suggestionIndex)].title);
         newCaret == Some(inserted.1)
         && State() == old(State()).(query := inserted.0, showSuggestions := false))
      ensures old(showSuggestions) && key == Enter && |old(filteredProducts)| == 0 ==>
        newCaret == None && State() == old(State())
      ensures old(showSuggestions) && key == Escape ==>
        newCaret == None && State() == old(State()).(showSuggestions := false)
      ensures old(showSuggestions) && key == AtSign ==>
        newCaret == None
        && State() == old(State()).(filteredProducts := old(products), showSuggestions := true, suggestionIndex := 0)
      ensures old(showSuggestions) && key == OtherKey ==> newCaret == None && State() == old(State())
    {
      newCaret := None;
      if !showSuggestions {
        return;
      }
      match key {
        case ArrowDown =>
          suggestionIndex := MoveHighlight(ArrowDown, suggestionIndex, |filteredProducts|);
        case ArrowUp =>
          suggestionIndex := MoveHighlight(ArrowUp, suggestionIndex, |filteredProducts|);
        case Enter =>
          if |filteredProducts| > 0 {
            var inserted := InsertMention(query, caret, filteredProducts[suggestionIndex].title);
            query := inserted.0;
            showSuggestions := false;
            newCaret := Some(inserted.1);
          }
        case Escape =>
          showSuggestions := false;
        case AtSign =>
          filteredProducts := products;
          showSuggestions := true;
          suggestionIndex := 0;
        case OtherKey =>
      }
    }

    /** Submits the query. A query of white space only sets "Please enter a query" and
        sends nothing. Otherwise the query is sent with the selected chat's id; an answer
        appends exactly one turn, clears the input, switches the selected chat when the
        answer names a different one, and (when it names a chat) applies the chat-list
        refresh `listAfter`; a failure shows its message and keeps messages and input.
        Loading is over on every path. */
    method HandleSubmit(outcome: QueryOutcome, listAfter: Option<seq<ChatSummary>>)
      returns (request: Option<QueryRequest>)
      requires Valid()
      modifies this
      ensures Valid()
      ensures AllSpace(old(query)) ==>
        request == None && State() == old(State()).(error := Some(EmptyQueryError))
      ensures !AllSpace(old(query)) ==>
        request == Some(QueryRequest(old(query), old(query), SelectedId(old(selectedChat))))
      ensures !AllSpace(old(query)) && outcome.Answered? ==>
        (var data := outcome.data;
         var switched := SwitchesChat(old(selectedChat), data);
         var refresh := (Truthy(data.chatId) || Truthy(data.altChatId)) && listAfter.Some?;
         State() == old(State()).(
           query := "", error := None,
           chatMessages := old(chatMessages) + [MakeTurn(old(query), data)],
           selectedChat := if switched then Some(ChatRef(data.chatId.value, data.chatName)) else old(selectedChat),
           chatName := if switched then data.chatName else old(chatName),
           chatList := if refresh then listAfter.value else old(chatList)))
      ensures !AllSpace(old(query)) && !outcome.Answered? ==>
        State() == old(State()).(error := Some(FailureMessage(outcome)))
    {
      var trimmed := Trim(query);
      assert trimmed == "" <==> AllSpace(query);
      if trimmed == "" {
        error := Some(EmptyQueryError);
        request := None;
        return;
      }
      loading := true;
      error := None;
      showLoading := true;
      request := Some(QueryRequest(query, query, SelectedId(selectedChat)));
      match outcome {
        case Answered(data) =>
          ApplyAnswer(data, listAfter);
        case Refused(_, _) =>
          error := Some(FailureMessage(outcome));
        case QueryThrew(_) =>
          error := Some(FailureMessage(outcome));
      }
      loading := false;
      showLoading := false;
    }

    /** The state changes an answer to the query `query` brings (see HandleSubmit). */
    method ApplyAnswer(data: QueryData, listAfter: Option<seq<ChatSummary>>)
      modifies this
      ensures var switched := SwitchesChat(old(selectedChat), data);
        var refresh := (Truthy(data.chatId) || Truthy(data.altChatId)) && listAfter.Some?;
        State() == old(State()).(
          query := "",
          chatMessages := old(chatMessages) + [MakeTurn(old(query), data)],
          selectedChat := if switched then Some(ChatRef(data.chatId.value, data.chatName)) else old(selectedChat),
          chatName := if switched then data.chatName else old(chatName),
          chatList := if refresh then listAfter.value else old(chatList))
    {
      if Truthy(data.chatId) {
        if selectedChat.None? || selectedChat.value.chatId != data.chatId.value {
          selectedChat := Some(ChatRef(data.chatId.value, data.chatName));
          chatName := data.chatName;
        }
      }
      chatMessages := chatMessages + [MakeTurn(query, data)];
      if Truthy(data.chatId) || Truthy(data.altChatId) {
        var _ := FetchChatList(listAfter);
      }
      query := "";
    }

    /** Applies a chat-history response: the loaded messages, or none, and the last of
        them as the current result (kept when the request failed). */
    method FetchChatHistory(history: HistoryOutcome)
      requires Valid()
      modifies this
      ensures Valid()
      ensures State() == old(State()).(chatMessages := LoadedMessages(history),
        results := LoadedResult(history, old(results)))
    {
      match history {
        case HistoryFailed =>
          chatMessages := [];
        case HistoryLoaded(messages) =>
          if messages.None? || |messages.value| == 0 {
            chatMessages := [];
            results := None;
          } else {
            chatMessages := messages.value;
            results := Some(messages.value[|messages.value| - 1]);
          }
      }
    }

    /** Selects a chat: it becomes the selected one with its name (or "Unnamed Chat"),
        and, when it has an id, its history is loaded. */
    method SelectChat(chat: ChatSummary, history: HistoryOutcome)
      requires Valid()
      modifies this
      ensures Valid()
      ensures chat.chatId == "" ==>
        State() == old(State()).(selectedChat := Some(ChatRef(chat.chatId, chat.chatName)),
          chatName := if chat.chatName != "" then chat.chatName else UnnamedChat)
      ensures chat.chatId != "" ==>
        State() == old(State()).(selectedChat := Some(ChatRef(chat.chatId, chat.chatName)),
          chatName := if chat.chatName != "" then chat.chatName else UnnamedChat,
          chatMessages := LoadedMessages(history), results := LoadedResult(history, old(results)))
    {
      selectedChat := Some(ChatRef(chat.chatId, chat.chatName));
      chatName := if chat.chatName != "" then chat.chatName else UnnamedChat;
      if chat.chatId == "" {
        return;
      }
      FetchChatHistory(history);
    }

    /** Deletes a chat. On failure the alert "Failed to delete chat: <message>" is raised
        and the list is refetched (`listAfter`). On success exactly the entries with that
        id leave the list, in order; when the deleted chat was selected, the selection,
        messages and result are cleared, the name becomes "New Chat", the list is
        refetched and, if it is not empty, its first chat is selected (with `history`). */
    method DeleteChat(chatId: string, outcome: DeleteOutcome, listAfter: Option<seq<ChatSummary>>,
                      history: HistoryOutcome) returns (alert: Option<string>)
      requires Valid()
      modifies this
      ensures Valid()
      ensures outcome.DeleteRefused? ==>
        alert == Some(DeleteAlertPrefix + (DeleteAlertPrefix + outcome.errorText))
      ensures outcome.DeleteThrew? ==> alert == Some(DeleteAlertPrefix + outcome.message)
      ensures !outcome.Deleted? ==>
        State() == old(State()).(chatList := if listAfter.Some? then listAfter.value else old(chatList))
      ensures outcome.Deleted? ==> alert == None
      ensures var remaining := Filter(old(chatList), (c: ChatSummary) => c.chatId != chatId);
        outcome.Deleted? && !(old(selectedChat).Some? && old(selectedChat).value.chatId == chatId) ==>
          State() == old(State()).(chatList := remaining)
      ensures var remaining := Filter(old(chatList), (c: ChatSummary) => c.chatId != chatId);
        outcome.Deleted? && old(selectedChat).Some? && old(selectedChat).value.chatId == chatId
        && (listAfter.None? || |listAfter.value| == 0) ==>
          State() == old(State()).(chatList := if listAfter.Some? then listAfter.value else remaining,
            selectedChat := None, chatMessages := [], results := None, chatName := NewChatName)
      ensures (outcome.Deleted? && old(selectedChat).Some? && old(selectedChat).value.chatId == chatId
               && listAfter.Some? && |listAfter.value| > 0) ==>
        (var next := listAfter.value[0];
         State() == old(State()).(chatList := listAfter.value,
           selectedChat := Some(ChatRef(next.chatId, next.chatName)),
           chatName := if next.chatName != "" then next.chatName else UnnamedChat,
           chatMessages := if next.chatId == "" then [] else LoadedMessages(history),
           results := if next.chatId == "" then None else LoadedResult(history, None)))
    {
      match outcome {
        case DeleteRefused(errorText) =>
          alert := Some(DeleteAlertPrefix + (DeleteAlertPrefix + errorText));
          var _ := FetchChatList(listAfter);
          return;
        case DeleteThrew(message) =>
          alert := Some(DeleteAlertPrefix + message);
          var _ := FetchChatList(listAfter);
          return;
        case Deleted =>
      }
      alert := None;
      chatList := Filter(chatList, (c: ChatSummary) => c.chatId != chatId);
      if selectedChat.Some? && selectedChat.value.chatId == chatId {
        ReselectAfterDelete(listAfter, history);
      }
    }

    /** After the selected chat is deleted: selection, messages and result cleared, name
        "New Chat", list refetched, and its first chat (if any) selected. */
    method ReselectAfterDelete(listAfter: Option<seq<ChatSummary>>, history: HistoryOutcome)
      requires Valid()
      modifies this
      ensures Valid()
      ensures listAfter.None? || |listAfter.value| == 0 ==>
        State() == old(State()).(chatList := if listAfter.Some? then listAfter.value else old(chatList),
          selectedChat := None, chatMessages := [], results := None, chatName := NewChatName)
      ensures listAfter.Some? && |listAfter.value| > 0 ==>
        (var next := listAfter.value[0];
         State() == old(State()).(chatList := listAfter.value,
           selectedChat := Some(ChatRef(next.chatId, next.chatName)),
           chatName := if next.chatName != "" then next.chatName else UnnamedChat,
           chatMessages := if next.chatId == "" then [] else LoadedMessages(history),
           results := if next.chatId == "" then None else LoadedResult(history, None)))
    {
      selectedChat := None;
      chatMessages := [];
      results := None;
      chatName := NewChatName;
      var remaining := FetchChatList(listAfter);
      if remaining.Some? && |remaining.value| > 0 {
        SelectChat(remaining.value[0], history);
      }
    }

    /** Fetches the metadata of `url`. The proxies are tried in order (`outcomes`, one
        per proxy); a rate-limited or failed one passes to the next; the first page
        read gives the metadata. When none answers, the direct request decides between
        the CORS notice and "Unable to fetch content", both titled with the host name.
        Whatever the outcome, the cache gains exactly the entry for `url`. */
    method FetchMetadata(url: string, outcomes: seq<ProxyOutcome>, directOk: bool, hostname: string)
      returns (meta: LinkMetadata)
      requires Valid()
      requires |outcomes| == ProxyCount
      modifies this
      ensures Valid()
      ensures meta == ResolveMetadata(outcomes, directOk, hostname)
      ensures State() == old(State()).(metadata := old(metadata)[url := meta])
    {
      var i := 0;
      while i < |outcomes|
        invariant 0 <= i <= |outcomes|
        invariant forall j :: 0 <= j < i ==> !outcomes[j].ProxyOk?
      {
        match outcomes[i] {
          case ProxyOk(page) =>
            UnansweredProxiesSkipped(outcomes[..i], outcomes[i..]);
            assert outcomes[..i] + outcomes[i..] == outcomes;
            meta := PageMetadata(page);
            metadata := metadata[url := meta];
            return;
          case RateLimited =>
            i := i + 1;
          case ProxyFailed =>
            i := i + 1;
        }
      }
      meta := LinkMetadata(hostname, if directOk then CorsDescription else UnreachableDescription, None);
      metadata := metadata[url := meta];
    }
  }
}
