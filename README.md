# GCN front end: a verified model of its stateful core

GCN is a React front end for a compliance assistant. Users sign in, ask questions in a
chat screen, tag products into a question with `@`, manage their product catalogue in
a modal, and upload PDF documents to a registry. This project is a Dafny model of the
logic behind those screens, with proofs of what the screens promise. The model covers:

- the chat screen (`Home`):
  - `@`-mention detection, product suggestions, keyboard navigation and title insertion;
  - query submission with its error messages;
  - chat selection, history loading and chat deletion with re-selection;
  - link-metadata resolution through a sequence of CORS proxies;
  - the textarea height clamp and link-title truncation;
- the document-upload screen (`Uploads`): the PDF-only queue, the sequential upload
  pass, the two-step delete and the case-insensitive search;
- the sign-in / sign-up form (`Login`):
  - field edits and the switch between modes;
  - the organization picker;
  - the payload of each mode and the session kept in browser storage;
  - error messages and the timers that follow a success;
  - the submit button's disabled rule;
- the product modal (`ProductModal`): create vs. update requests, routing of field
  edits, the colour palette and the 50-word description preview;
- the compliance banner's keyword classifier (`ComplianceVisual`);
- two landing-page helpers (`Landing`): the saturating statistics counters and the
  headline letters with non-breaking spaces.

Screens whose handlers change component state step by step are classes whose fields
are the component's state. Each method states the whole new state: in `Home`,
`Uploads` and `Login` through a `State()` snapshot of all fields, and in
`ProductModal.ProductForm`, which has four fields, by naming each field. Classifiers, text splicing and filters are functions. Answers
from the network are parameters of the handlers: status codes, parsed bodies, and
per-file or per-proxy outcomes. JavaScript's string built-ins are written out in
module `Text`:
- `trim` and `\s`, with the full JavaScript white-space set;
- `toLowerCase`, `includes`, `lastIndexOf`;
- `slice`, with negative and clamped indices;
- `split(/\s+/)` and `join`.

A fire-and-forget refetch that a handler starts is modelled as applied when the
handler returns, with its result passed in as a parameter. Timers are collapsed into
explicit steps (`Login.AuthForm.FireTimer`) or into the handler that sets them.

Behaviour of the code worth knowing, which the model keeps:
- The "empty query" check of `handleSubmit` only rejects queries of white space. The
  disabled state of the send button is not part of the handler.
- When the server refuses a chat deletion, the alert carries the prefix
  "Failed to delete chat: " twice. The thrown message already starts with it, and the
  catch adds it again.
- An answer's related queries are read from `related_queries` and stored as
  `relevant_queries`.
- The compliance counter on the landing page passes its cap. It shows 98, then 100,
  then 99.

## Model

| member | source | states |
|---|---|---|
| Wrappers.OrElse | src/pages/Home.jsx:232-233 | `a \|\| b` on strings: the first value when it is present and non-empty, the fallback otherwise |
| Seqs.Filter | src/pages/UploadDocuments.jsx:37-39 | an order-preserving filter: every kept element is from the input and passes the test, and every passing element is kept |
| Seqs.FilterKeepsAll | src/pages/UploadDocuments.jsx:41 | the filtered list has the input's length exactly when every element passes, and is then the input itself |
| Seqs.FilterAppend | src/pages/Home.jsx:175-177 | filtering distributes over concatenation |
| Seqs.RemoveAt | src/pages/UploadDocuments.jsx:64-66 | removing index `i` keeps the elements before and after it in order; an index out of range changes nothing |
| Text.ToLower | src/pages/Home.jsx:478-480 | lower-cases character by character and keeps the length |
| Text.ToLowerIdempotent | src/pages/UploadDocuments.jsx:148-150 | lower-casing twice is lower-casing once |
| Text.IncludesEmpty | src/pages/UploadDocuments.jsx:149 | every string includes the empty string |
| Text.LastIndexOf | src/pages/Home.jsx:528 | the position of the last occurrence, or -1 exactly when there is none |
| Text.SliceIndex | src/pages/Home.jsx:526-527 | a slice bound: an index within the string is kept, a negative one counts from the end (0 when it reaches past the start), and one past the end becomes the length |
| Text.Slice | src/pages/Home.jsx:526 | `slice(start, end)` is the text between the two resolved bounds, and "" when they cross |
| Text.SliceFrom | src/pages/Home.jsx:527 | `slice(start)` is the suffix from the resolved bound; a negative start keeps the last `-start` characters (all when the text is shorter); a start past the end gives "" |
| Text.IsSpace | src/pages/Home.jsx:474 | the `\s` class: it holds space, tab, line breaks and U+00A0, and no letter, digit or `@` |
| Text.Includes | src/pages/Home.jsx:480 | `s.includes(t)`: `t` occurs in `s`; it is never longer than `s`, and at equal length only `s` itself is included |
| Text.Join | src/components/ProductModal.jsx:189 | `join(sep)`: "" for no pieces; the text starts with the first piece, followed by the separator when there is a second |
| Text.LeadingSpaces | src/pages/Home.jsx:203 | the length of the white-space prefix |
| Text.TrailingSpaces | src/pages/Home.jsx:203 | the length of the white-space suffix |
| Text.Trim | src/pages/Home.jsx:203 | the text between the leading and trailing white space; empty exactly when the text is all white space; a non-empty result neither starts nor ends with white space |
| Text.TrimPieces | src/pages/Login.jsx:83-84 | splitting a text at its leading and trailing white space recovers it |
| Text.DropSpaces | src/components/ProductModal.jsx:189 | the text after its leading white space |
| Text.SplitWords | src/components/ProductModal.jsx:189 | `split(/\s+/)` yields at least one piece and no piece holds white space |
| Text.CollapseSpaces | src/components/ProductModal.jsx:189 | every run of white space becomes one space |
| Text.JoinCons | src/components/ProductModal.jsx:189 | a character in front of the first piece is a character in front of the joined text |
| Text.JoinSplitWords | src/components/ProductModal.jsx:189 | joining the pieces of `split(/\s+/)` with single spaces collapses every white-space run |
| Text.DigitChar | src/pages/Home.jsx:233 | the decimal digit of a number below ten |
| Text.Decimal | src/pages/Home.jsx:233 | a status code as decimal digits, without leading zeros |
| Text.DecimalRoundTrip | src/pages/Home.jsx:233 | the digits read back give the number |
| ProductModal.PaletteFacts | src/components/ProductModal.jsx:14 | six distinct colours, including the default blue |
| ProductModal.BlankDraft | src/components/ProductModal.jsx:6-10 | the empty form: no title or info, colour blue |
| ProductModal.DraftWith | src/components/ProductModal.jsx:118 | editing a new product's field changes that field only |
| ProductModal.ProductWith | src/components/ProductModal.jsx:114-117 | editing a product's field changes that field only and keeps its id |
| ProductModal.Shown | src/components/ProductModal.jsx:111 | an input shows the edited product's value when it is non-empty, else the new product's |
| ProductModal.SaveRequest | src/components/ProductModal.jsx:33-48 | PUT to the product's own URL while editing, POST to the collection otherwise; the body is exactly title, info and colour of the product being saved |
| ProductModal.InfoPreview | src/components/ProductModal.jsx:189-191 | at most 50 pieces: the description with white-space runs collapsed; more: the first 50 pieces joined by spaces and "..." |
| ProductModal.Rendered | src/components/ProductModal.jsx:98 | nothing while closed; otherwise one preview per product, in order |
| ProductModal.ProductForm.constructor | src/components/ProductModal.jsx:5-12 | no products, a blank form, nothing being edited, picker closed |
| ProductModal.ProductForm.FetchProducts | src/components/ProductModal.jsx:20-28 | the catalogue is replaced by a readable response and kept otherwise; nothing else changes |
| ProductModal.ProductForm.HandleSubmit | src/components/ProductModal.jsx:30-59 | sends the save request; on success the catalogue is refetched, the form reset, editing ended and the picker closed; on failure nothing changes |
| ProductModal.ProductForm.EditField | src/components/ProductModal.jsx:111-153 | an edit goes to the product being edited if there is one, else to the new product; the catalogue and picker are untouched |
| ProductModal.ProductForm.PickColor | src/components/ProductModal.jsx:72-96 | the picked colour goes to the product being edited or the new one, and the picker closes |
| ProductModal.ProductForm.ToggleColorPicker | src/components/ProductModal.jsx:126 | the picker flips and nothing else changes |
| ProductModal.ProductForm.StartEditing | src/components/ProductModal.jsx:197 | the product becomes the one being edited and nothing else changes |
| ProductModal.ProductForm.DeleteProduct | src/components/ProductModal.jsx:61-70 | the catalogue is refetched and the form is untouched |
| Home.FindMention | src/pages/Home.jsx:474 | the leftmost position at or after `from` where `@` is followed only by non-white-space up to the end |
| Home.MentionTerm | src/pages/Home.jsx:473-474 | a term exactly when the text before the caret ends in a mention; it is what follows the leftmost such `@` and holds no white space |
| Home.FilterProducts | src/pages/Home.jsx:479-481 | the products whose lower-cased title contains the term, in catalogue order, and all of them |
| Home.Suggestions | src/pages/Home.jsx:476-487 | suggestions exactly when a mention ends the text before the caret and the catalogue is non-empty; then the products matching the lower-cased term |
| Home.BareAtSuggestsAll | src/pages/Home.jsx:476-482 | a bare `@` suggests the whole catalogue, in order |
| Home.MentionStartVersusLastAt | src/pages/Home.jsx:473-528 | the last `@` is at or after the term's `@`, and the two agree exactly when the term holds no `@` |
| Home.MoveHighlight | src/pages/Home.jsx:494-503 | ArrowDown and ArrowUp move the highlight by one at most, stop at either end without wrapping, and keep it a valid index |
| Home.TextBeforeCaret | src/pages/Home.jsx:473 | the text up to the clamped caret |
| Home.InsertMention | src/pages/Home.jsx:524-547 | with an `@` before the caret: the text up to the last `@`, then `@`, the title and a space, then the unchanged text after the caret, with the caret right after the space. Without one: a character before the caret is dropped and the caret lands inside the inserted text |
| Home.InsertExample | src/pages/Home.jsx:530-540 | "Please review @pro" with "Product X" becomes "Please review @Product X " with the caret at 25 |
| Home.AsymmetryExample | src/pages/Home.jsx:473-528 | for "@a@b" the term is "a@b", but insertion replaces only "@b" |
| Home.ClampHeight | src/pages/Home.jsx:468-469 | the height lies in [48, 96]: the content height when it fits, else the nearer bound |
| Home.TruncateTitle | src/pages/Home.jsx:1092-1095 | titles of up to 10 characters are kept; longer ones become their first 15 characters and "...", so titles of 11 to 15 characters only gain the dots |
| Home.LinkLabel | src/pages/Home.jsx:1088-1095 | a cached link shows its truncated title, an uncached one "Loading..." |
| Home.RefusalMessage | src/pages/Home.jsx:227-240 | a refused query's message is `detail`, else `error`, else "Error: status"; a non-JSON body gives the status and the first 100 characters; never empty |
| Home.FailureMessage | src/pages/Home.jsx:279-283 | the failure's message, or the generic one when it is empty; never empty |
| Home.SelectedId | src/pages/Home.jsx:223 | the selected chat's id when there is one and it is non-empty, else null |
| Home.SwitchesChat | src/pages/Home.jsx:246-248 | an answer switches chats exactly when it names a chat other than the one the query was sent with |
| Home.MakeTurn | src/pages/Home.jsx:259-270 | the appended turn holds the query, the answer and each list of the answer, a missing list becoming [] |
| Home.LoadedMessages | src/pages/Home.jsx:315-336 | the returned list, or empty when the request failed or the body was not a list |
| Home.LoadedResult | src/pages/Home.jsx:319-331 | the last loaded message, none for an empty list, the previous result when the request failed |
| Home.PageMetadata | src/pages/Home.jsx:374-385 | title, description and image follow their fallback chains, empty counting as absent; title and description are never empty |
| Home.FirstPage | src/pages/Home.jsx:348-398 | the page of the first proxy that answered; none exactly when no proxy answered |
| Home.UnansweredProxiesSkipped | src/pages/Home.jsx:356-396 | proxies that were rate-limited or failed do not change the outcome |
| Home.ChatScreen.constructor | src/pages/Home.jsx:51-76 | the initial state: empty query, no chats, "New Chat", no suggestions |
| Home.ChatScreen.LoadProducts | src/pages/Home.jsx:123-137 | the catalogue is replaced by an ok response, kept otherwise |
| Home.ChatScreen.FetchChatList | src/pages/Home.jsx:139-150 | the list is replaced and returned on success; on failure null is returned and the list kept |
| Home.ChatScreen.HandleQueryChange | src/pages/Home.jsx:462-488 | the query and clamped height are set; suggestions open on the matching products with the first one highlighted, or close; nothing else changes |
| Home.ChatScreen.HandleKeyDown | src/pages/Home.jsx:490-522 | nothing happens while suggestions are hidden; the arrows move the highlight; Enter inserts the highlighted product; Escape hides; `@` shows the whole catalogue |
| Home.ChatScreen.HandleSubmit | src/pages/Home.jsx:200-288 | a white-space query only sets "Please enter a query". Otherwise: the request carries the query and selected chat. An answer appends its turn, may switch chats, refreshes the list and clears the query. A failure shows its message. The loading flags end cleared |
| Home.ChatScreen.ApplyAnswer | src/pages/Home.jsx:243-278 | an answer appends a turn with empty lists for missing ones, and switches to its chat when it names a different one |
| Home.ChatScreen.FetchChatHistory | src/pages/Home.jsx:309-337 | messages and result follow the loaded history; nothing else changes |
| Home.ChatScreen.SelectChat | src/pages/Home.jsx:290-307 | the chat and its name (or "Unnamed Chat") are selected; its history is loaded only when it has an id |
| Home.ChatScreen.DeleteChat | src/pages/Home.jsx:152-198 | on success the chat leaves the list, and deleting the selected chat clears it and selects the first remaining chat; on failure the alert carries the message and the list is refetched |
| Home.ChatScreen.ReselectAfterDelete | src/pages/Home.jsx:180-191 | the selection is reset to "New Chat", then the first chat of the refetched list is selected if there is one |
| Home.ChatScreen.FetchMetadata | src/pages/Home.jsx:339-435 | proxies are tried in order; the first answer's page metadata, else the host name with the CORS or unreachable notice, is cached under the URL and returned |
| Uploads.FailureAlerts | src/pages/UploadDocuments.jsx:104-107 | at most one alert per queued file |
| Uploads.FailureAlertsNameFailures | src/pages/UploadDocuments.jsx:92-107 | no alert exactly when every transfer was 2xx; each failed file is named by an alert and each alert names a failed file |
| Uploads.FailureAlertsStep | src/pages/UploadDocuments.jsx:73-108 | each file of the pass adds only its own alert, after those of the files before it |
| Uploads.FinalProgress | src/pages/UploadDocuments.jsx:75-88 | the progress bar ends on the file's own name, at the last reported value, or at 0 when none was reported |
| Uploads.FilteredDocuments | src/pages/UploadDocuments.jsx:148-150 | the documents whose lower-cased name contains the lower-cased term, in order, and all of them |
| Uploads.EmptySearchShowsAll | src/pages/UploadDocuments.jsx:148-150 | an empty search shows every document in order |
| Uploads.SearchIgnoresCase | src/pages/UploadDocuments.jsx:149 | terms that lower-case alike find the same documents |
| Uploads.UploadPage.constructor | src/pages/UploadDocuments.jsx:8-17 | empty queue and registry, no upload, no pending deletion |
| Uploads.UploadPage.FetchDocuments | src/pages/UploadDocuments.jsx:23-33 | the registry is replaced by an ok response, kept otherwise |
| Uploads.UploadPage.AddFiles | src/pages/UploadDocuments.jsx:35-62 | the PDFs join the end of the queue in order; "Only PDF files are allowed" is raised exactly when some file was not a PDF |
| Uploads.UploadPage.RemoveFile | src/pages/UploadDocuments.jsx:64-66 | the file at the index leaves the queue and nothing else changes |
| Uploads.UploadPage.UploadFiles | src/pages/UploadDocuments.jsx:68-113 | an empty queue changes nothing. Otherwise each file is started in queue order at progress 0 under its name, each failure raises its alert, and the pass ends with no upload running, an empty queue and a refetched registry |
| Uploads.UploadPage.SendFile | src/pages/UploadDocuments.jsx:74-107 | one file: progress reset under its name, then its last reported value; an alert when it failed |
| Uploads.UploadPage.SetSearchTerm | src/pages/UploadDocuments.jsx:286 | only the search term changes |
| Uploads.UploadPage.ConfirmDelete | src/pages/UploadDocuments.jsx:115-118 | the document is marked and the confirmation opens |
| Uploads.UploadPage.CancelDelete | src/pages/UploadDocuments.jsx:367 | the confirmation closes and the mark stays |
| Uploads.UploadPage.DeleteDocument | src/pages/UploadDocuments.jsx:120-146 | nothing without a mark; on success every document of that name is removed, the confirmation closed and the mark cleared; otherwise "Failed to delete document" is raised |
| Uploads.UploadPage.Shown | src/pages/UploadDocuments.jsx:148-150 | the listed documents are those of `FilteredDocuments` for the current search term; they come from the registry, and are all of it while the search is empty |
| Uploads.PdfSelection | src/pages/UploadDocuments.jsx:36-39 | `IsPdf`: the picker keeps exactly the chosen files whose declared type is "application/pdf", and drops none exactly when all of them are |
| Uploads.SingleTransferAlert | src/pages/UploadDocuments.jsx:90-107 | `Succeeded`: a transfer raises no alert exactly when it completed with a status in [200, 300); a network error always raises one naming the file |
| Login.WithField | src/pages/Login.jsx:58-61 | a field edit changes that field only |
| Login.Payload | src/pages/Login.jsx:96-104 | sign-in sends exactly username and password; sign-up sends exactly the four fields |
| Login.SubmitDisabled | src/pages/Login.jsx:355-357 | disabled while loading; in sign-in mode only then; in sign-up mode also while no organization is chosen or being typed |
| Login.AuthForm.Disabled | src/pages/Login.jsx:355-357 | the button of the current form: disabled while loading, never in sign-in mode otherwise, and in sign-up mode exactly while no organization is chosen or being typed |
| Login.StoreSession | src/pages/Login.jsx:108-114 | the user id and name are stored; the e-mail and organization only when non-empty; other entries are kept |
| Login.AuthForm.constructor | src/pages/Login.jsx:21-37 | sign-in mode, empty form, no error, nothing loading |
| Login.AuthForm.FetchOrganizations | src/pages/Login.jsx:45-55 | the list on success, empty on failure |
| Login.AuthForm.HandleChange | src/pages/Login.jsx:58-61 | only the edited field changes |
| Login.AuthForm.ToggleAuthMode | src/pages/Login.jsx:64-68 | the mode flips, the error clears and the form empties; entering sign-up loads the organizations |
| Login.AuthForm.ToggleOrgDropdown | src/pages/Login.jsx:278 | only the dropdown flag flips |
| Login.AuthForm.ToggleShowPassword | src/pages/Login.jsx:343 | only the password visibility flips |
| Login.AuthForm.HandleOrgChange | src/pages/Login.jsx:71-78 | "add-new" opens the new-organization input; any other name is chosen and the dropdown closes |
| Login.AuthForm.SetNewOrgName | src/pages/Login.jsx:260 | only the typed name changes |
| Login.AuthForm.HandleAddOrg | src/pages/Login.jsx:81-88 | a non-blank typed name is chosen trimmed and the input closes and empties; a blank one changes nothing |
| Login.AuthForm.HandleSubmit | src/pages/Login.jsx:91-129 | callable only while the submit button is enabled; posts the mode's payload to the mode's endpoint. Success: a sign-in stores the session and schedules the move home; a sign-up schedules the return to sign-in. Failure: the response's message or "An error occurred". Loading ends cleared |
| Login.AuthForm.Settle | src/pages/Login.jsx:105-125 | the answer's effect on success, storage, timer and error |
| Login.AuthForm.FireTimer | src/pages/Login.jsx:115-121 | the move to "/home" after a sign-in; after a sign-up, back to sign-in mode with the notice gone |
| ComplianceVisual.TopicOf | src/components/ComplianceVisual.jsx:28-46 | the first matching topic: gdpr/privacy, then iso/27001, then data/storage, else none |
| ComplianceVisual.GetComplianceIcons | src/components/ComplianceVisual.jsx:16-49 | always four badges; the last two are Compliance and Regulations; the first two labels follow the topic |
| ComplianceVisual.MatchingIgnoresCase | src/components/ComplianceVisual.jsx:17 | a query and its lower-cased form get the same badges |
| ComplianceVisual.GdprOutranksIso | src/components/ComplianceVisual.jsx:28-34 | a query naming GDPR gets the GDPR badges whatever else it names |
| ComplianceVisual.NoKeywordShowsDefaults | src/components/ComplianceVisual.jsx:3-60 | every query whose lower-cased form holds none of the topic keywords shows the defaults: Security, Privacy, Compliance, Regulations |
| ComplianceVisual.EmptyQueryShowsDefaults | src/components/ComplianceVisual.jsx:20-25 | an empty query shows the defaults |
| ComplianceVisual.LabelsDistinct | src/components/ComplianceVisual.jsx:20-46 | the four labels always differ |
| Landing.Saturate | src/pages/Landing.jsx:619-621 | at or above its cap a counter shows the cap, below it grows by its step |
| Landing.Tick | src/pages/Landing.jsx:618-622 | one tick: below its cap, companies grow by exactly 5 and compliance and savings by exactly 2; each counter at or above its cap is pinned to it |
| Landing.After | src/pages/Landing.jsx:607-622 | after any number of ticks from zero, companies are a multiple of 5 in [0, 200], savings even in [0, 80], compliance even in [0, 100] or 99 |
| Landing.CountsFromZero | src/pages/Landing.jsx:607-622 | after n ticks: companies min(5n, 200), savings min(2n, 80), compliance 2n up to tick 50, then 99 |
| Landing.ComplianceOvershoots | src/pages/Landing.jsx:620 | the compliance counter goes 98, 100, 99 |
| Landing.CountsSettle | src/pages/Landing.jsx:618-622 | from tick 51 the counters rest at 200, 99 and 80 |
| Landing.CountersIndependent | src/pages/Landing.jsx:618-622 | each counter's step depends on its own previous value only |
| Landing.Spans | src/pages/Landing.jsx:316 | one span per character; a space becomes U+00A0 and every other character is kept |
| Landing.SpansRoundTrip | src/pages/Landing.jsx:381 | no plain space survives, and a text without U+00A0 is recovered from its spans by `Unspan`, a specification helper that maps U+00A0 back to a space |
| Landing.SpansAppend | src/pages/Landing.jsx:365 | spans distribute over concatenation |
| Landing.SpansKeepWord | src/pages/Landing.jsx:316 | a word without spaces is shown unchanged |
| Landing.SpansAroundSpace | src/pages/Landing.jsx:316 | a space between two texts becomes U+00A0 between their spans |
| Landing.SpansOfWords | src/pages/Landing.jsx:293-316 | a headline of space-separated words, such as "Compliance Made Simple", shows the words unchanged, separated by U+00A0 |

## Left out

- Network, DOM and browser APIs: fetch, axios and XMLHttpRequest are replaced by
  parameters carrying their results. DOM parsing in link-metadata fetching is reduced
  to the five optional fields it extracts. `new URL(url).hostname` is a parameter, and
  the model does not capture that it can throw inside the catch block.
- Concurrency: asynchronous handlers run to completion one at a time. A
  fire-and-forget refetch (chat list, documents, products) is applied before the
  handler returns. Interleavings of overlapping requests are not modelled.
- Timers: the per-link `index * 1000` staggering of metadata fetches and the stale
  "already cached" check are not modelled. The 100 ms picker close is folded into
  `ProductModal.ProductForm.PickColor`. The interval that drives the landing counters
  is reduced to `Landing.After`. The 800 ms and 1000 ms login timers are one explicit
  step, `Login.AuthForm.FireTimer`.
- Text.ToLower: lower-cases ASCII letters only, while `toLowerCase` maps all of Unicode.
- Home.TruncateTitle, Home.RefusalMessage, Home.InsertMention: lengths, `slice`,
  `substring`, `lastIndexOf` and the caret are counted in characters (Unicode scalar
  values), while JavaScript counts UTF-16 code units. A title of six emoji has length
  12 in the browser and is truncated, but has length 6 in the model and is kept. A
  16-unit title can be cut inside a surrogate pair by `slice(0, 15)`, which the model
  cannot express.
- Landing.Spans: one span per `char`; `split("")` works on UTF-16 code units and
  `Array.from` on code points, and the two agree for the headline texts.
- Uploads.FinalProgress: the byte progress `Math.round(loaded / total * 100)` is
  floating point. It is abstracted to the last reported integer in [0, 100].
- Uploads.UploadPage.UploadFiles: the queue read by the loop and the queue cleared
  afterwards are the same, because files added during a pass are not modelled.
- Home.ChatScreen: clicking a suggestion and hovering one are not modelled as methods.
  A click inserts the product through the same `Home.InsertMention` as Enter does,
  and a hover only sets the highlighted index.
- Login.AuthForm.HandleSubmit: the method requires the button's own guard
  (`Disabled()` is false), but not the browser's `required` checks on empty fields,
  so a submission with a blank username or password is possible in the model.
- Home.RefusalMessage: the model treats `detail` and `error` as strings. Non-string
  JSON values and their string conversions are not modelled.
- Home.ChatScreen.ApplyAnswer: a missing `chat_name` in an answer is taken as the
  empty name, not `undefined`.
- Home.ResolveMetadata: it has no contract of its own. Its behaviour is stated through
  `Home.FirstPage`, `Home.PageMetadata` and `Home.ChatScreen.FetchMetadata`.
- The random choice of sample queries, recent queries in local storage, clipboard
  copying, focus and selection calls, speech input and output, markdown rendering and
  routing are not modelled; they hold no logic beyond the browser calls.
- The status bar's polling and hide timers, the image expand toggle and the loading
  animation are not modelled: they are timer and animation behaviour.
- Landing-page animations, random positioning and particle motion are not modelled:
  they are floating-point animation.
