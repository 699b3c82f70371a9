# Feeding knowledge to a brain, modelled in Dafny

This project models the batch "feed the brain" logic of the chat front end
(`useKnowledgeToFeedInput` and `useFeedBrainInChat`). The user collects
pending knowledge items, either files to upload or urls to crawl. One commit
sends them all to the selected brain, in one chat:

- the two per-item handlers send one request each. A failed request becomes
  exactly one danger toast and does not escape the handler;
- the batch checks that a brain is selected and that something is pending;
- it sets the busy flag (`hasPendingRequests`), which stays set for every
  service call of the batch;
- it uses the route's chat id, or creates a chat titled "New Chat";
- it sends every file, then every url;
- it clears the pending list;
- it then navigates to the new chat, or refreshes the notifications of the
  existing one;
- a batch-level failure becomes one stringified toast, and the busy flag is
  always reset.

Files:

- `wrappers.dfy`: `Option` and `Result`.
- `feed_types.dfy`: items, crawl configs, thrown errors, toasts, the calls the
  logic makes.
- `item_dispatch.dfy`: the rules of the two handlers as pure functions. It
  holds the crawl policy, the choice of error text and the failure toasts,
  with lemmas about runs of requests.
- `feed_brain_in_chat.dfy`: the files/urls split, the calls and toasts of a
  batch, lemmas about them, and the class `FeedSession`. The class holds the
  session state: the pending list, the busy flag, the notifications, a toast
  log and a call log. A ghost log records each write to the busy flag,
  together with how long the call and toast logs were at that moment.
  Its methods update that state step by step, as the source does.
- `scenarios.dfy`: three client methods. They work through concrete batches
  using only the contracts of `FeedBrain`.

External services (`uploadFile`, `crawlWebsiteUrl`, `createChat`,
`getChatNotifications`) are oracles. Their outcome (resolved value or thrown
error) is a parameter of the method that awaits them. `publish` appends to
the toast log. `router.push` appends a `Navigate` call to the call log. The error-parameter
helper is modelled by a field of the thrown error: the API `message` when
the error is a structured API error, `None` otherwise. `JSON.stringify` is
the symbolic constructor `Stringify`.

Two behaviours of the source are easy to misread:

- The pending list is cleared only at line 176, after every item has been
  dispatched. When `createChat` fails, its rejection skips that line, so the
  list is kept.
- The two validation branches (lines 144-160) return before the busy flag is
  written. A rejected validation leaves the flag as it was.

## Model

| member | source | states |
|---|---|---|
| `ItemDispatch.CrawlConfigFor` | frontend/lib/components/KnowledgeToFeedInput/hooks/useKnowledgeToFeedInput.ts.ts:32-38 | the crawl request carries the url unchanged, JavaScript off, depth 1, at most 100 pages and 60 seconds |
| `ItemDispatch.ErrorText` | frontend/lib/components/KnowledgeToFeedInput/hooks/useKnowledgeToFeedInput.ts.ts:47-61 | the toast's message is the stringified API message for a structured API error, and the stringified raw error otherwise |
| `ItemDispatch.FailureToast` | frontend/lib/components/KnowledgeToFeedInput/hooks/useKnowledgeToFeedInput.ts.ts:79-93 | a resolved request publishes nothing; a rejected one publishes exactly one danger toast with the handler's key and the error's text |
| `ItemDispatch.Errors` | frontend/lib/components/KnowledgeToFeedInput/hooks/useKnowledgeToFeedInput.ts.ts:167-174 | the errors of the rejected requests of a batch, no more of them than requests |
| `ItemDispatch.ErrorsMembers` | frontend/lib/components/KnowledgeToFeedInput/hooks/useKnowledgeToFeedInput.ts.ts:167-174 | an error is listed exactly when some request rejected with it |
| `ItemDispatch.ErrorsAppend` | frontend/lib/components/KnowledgeToFeedInput/hooks/useKnowledgeToFeedInput.ts.ts:174 | the errors of two runs of requests are the errors of each, in order |
| `ItemDispatch.FailureToastsMatchErrors` | frontend/lib/components/KnowledgeToFeedInput/hooks/useKnowledgeToFeedInput.ts.ts:72-95 | a run of requests publishes exactly one toast per rejected request, in order, each with the handler's key and that request's error text |
| `ItemDispatch.AllResolvedNoToasts` | frontend/lib/components/KnowledgeToFeedInput/hooks/useKnowledgeToFeedInput.ts.ts:40-45 | when every request resolves, no toast is published |
| `ItemDispatch.UploadCallsAt` | frontend/lib/components/KnowledgeToFeedInput/hooks/useKnowledgeToFeedInput.ts.ts:167-169 | one upload request per file, the i-th for the i-th file, all for the batch's brain and chat |
| `ItemDispatch.CrawlCallsAt` | frontend/lib/components/KnowledgeToFeedInput/hooks/useKnowledgeToFeedInput.ts.ts:170-172 | one crawl request per url, the i-th with the fixed crawl config of the i-th url, all for the batch's brain and chat |
| `FeedBrainInChat.Files` | frontend/lib/components/KnowledgeToFeedInput/hooks/useKnowledgeToFeedInput.ts.ts:135-137 | the files of the upload items, no more of them than items |
| `FeedBrainInChat.Urls` | frontend/lib/components/KnowledgeToFeedInput/hooks/useKnowledgeToFeedInput.ts.ts:139-141 | the urls of the crawl items, no more of them than items |
| `FeedBrainInChat.FilesMembers` | frontend/lib/components/KnowledgeToFeedInput/hooks/useKnowledgeToFeedInput.ts.ts:135-137 | a file is in `files` exactly when an upload item of the pending list carries it |
| `FeedBrainInChat.UrlsMembers` | frontend/lib/components/KnowledgeToFeedInput/hooks/useKnowledgeToFeedInput.ts.ts:139-141 | a url is in `urls` exactly when a crawl item of the pending list carries it |
| `FeedBrainInChat.PartitionSizes` | frontend/lib/components/KnowledgeToFeedInput/hooks/useKnowledgeToFeedInput.ts.ts:135-141 | the lengths of `files` and `urls` add up to the length of the pending list |
| `FeedBrainInChat.FilesAppend` | frontend/lib/components/KnowledgeToFeedInput/hooks/useKnowledgeToFeedInput.ts.ts:135-137 | the split keeps list order: the files of a concatenation are the files of its parts, concatenated |
| `FeedBrainInChat.UrlsAppend` | frontend/lib/components/KnowledgeToFeedInput/hooks/useKnowledgeToFeedInput.ts.ts:139-141 | the same for the urls |
| `FeedBrainInChat.DispatchShape` | frontend/lib/components/KnowledgeToFeedInput/hooks/useKnowledgeToFeedInput.ts.ts:167-174 | one request per pending item: the i-th request uploads the i-th file, then the j-th crawl request after them carries the config of the j-th url |
| `FeedBrainInChat.DispatchScoped` | frontend/lib/components/KnowledgeToFeedInput/hooks/useKnowledgeToFeedInput.ts.ts:166-174 | every request of a batch is an upload or a crawl for the batch's brain and resolved chat id, and no upload comes after a crawl |
| `FeedBrainInChat.CreatesChatOnlyWithoutRoute` | frontend/lib/components/KnowledgeToFeedInput/hooks/useKnowledgeToFeedInput.ts.ts:166-182 | the calls of a batch hold exactly one `createChat` when the route has no chat id and none when it has one |
| `FeedBrainInChat.ChatPathParts` | frontend/lib/components/KnowledgeToFeedInput/hooks/useKnowledgeToFeedInput.ts.ts:178-179 | a new chat's route is `/chat/` followed by the chat id, and two chats have the same route exactly when they are the same chat |
| `FeedBrainInChat.HookCallsAreHooks` | frontend/lib/components/KnowledgeToFeedInput/hooks/useKnowledgeToFeedInput.ts.ts:163-164 | the batch's first calls go only to the two optional hooks, each exactly when the caller passed it |
| `FeedBrainInChat.HooksComeFirst` | frontend/lib/components/KnowledgeToFeedInput/hooks/useKnowledgeToFeedInput.ts.ts:163-182 | a batch's calls are its hook calls and then no further hook call, so every service call comes after the busy flag is set at line 165 |
| `FeedBrainInChat.FollowUpIsLast` | frontend/lib/components/KnowledgeToFeedInput/hooks/useKnowledgeToFeedInput.ts.ts:176-182 | a resolved batch's last call is the navigation to `/chat/{id}` for a new chat and the notification fetch for an existing one, and no earlier call navigates or fetches |
| `FeedBrainInChat.DispatchToastsCount` | frontend/lib/components/KnowledgeToFeedInput/hooks/useKnowledgeToFeedInput.ts.ts:167-176 | k rejected requests give exactly k toasts: the failed uploads' UploadFailed toasts, then the failed crawls' CrawlFailed toasts, each with its error's text |
| `FeedBrainInChat.FeedSession.constructor` | frontend/lib/components/KnowledgeToFeedInput/hooks/useKnowledgeToFeedInput.ts.ts:118-127 | a session starts with the given pending list and notifications, the busy flag false, and empty call, toast and busy logs |
| `FeedBrainInChat.FeedSession.CrawlWebsiteHandler` | frontend/lib/components/KnowledgeToFeedInput/hooks/useKnowledgeToFeedInput.ts.ts:29-66 | exactly one crawl request with the fixed config; the toast log grows by the request's failure toast only; nothing else changes |
| `FeedBrainInChat.FeedSession.UploadFileHandler` | frontend/lib/components/KnowledgeToFeedInput/hooks/useKnowledgeToFeedInput.ts.ts:68-98 | exactly one upload request for the file; the toast log grows by the request's failure toast only; nothing else changes |
| `FeedBrainInChat.FeedSession.FetchNotifications` | frontend/lib/components/KnowledgeToFeedInput/hooks/useKnowledgeToFeedInput.ts.ts:128-131 | one fetch for the chat; on success the notification list is replaced wholesale; on failure the list is kept and the error is thrown |
| `FeedBrainInChat.FeedSession.UploadAll` | frontend/lib/components/KnowledgeToFeedInput/hooks/useKnowledgeToFeedInput.ts.ts:167-169 | the call log grows by one upload per file, in order, and the toast log by the failure toasts of the uploads |
| `FeedBrainInChat.FeedSession.CrawlAll` | frontend/lib/components/KnowledgeToFeedInput/hooks/useKnowledgeToFeedInput.ts.ts:170-172 | the call log grows by one crawl per url, in order, and the toast log by the failure toasts of the crawls |
| `FeedBrainInChat.FeedSession.DispatchAll` | frontend/lib/components/KnowledgeToFeedInput/hooks/useKnowledgeToFeedInput.ts.ts:167-174 | the call log grows by all uploads, then all crawls, and the toast log by their failure toasts; a failing item never stops the rest |
| `FeedBrainInChat.FeedSession.RunBatch` | frontend/lib/components/KnowledgeToFeedInput/hooks/useKnowledgeToFeedInput.ts.ts:166-182 | a failed `createChat` throws before any dispatch and leaves the pending list; otherwise every item is dispatched to the resolved chat, the list is cleared, and the batch either logs a navigation to `/chat/{id}` for a new chat or refreshes an existing one, throwing only what the refresh throws; it is only called while the busy flag is set |
| `FeedBrainInChat.FeedSession.FeedBatch` | frontend/lib/components/KnowledgeToFeedInput/hooks/useKnowledgeToFeedInput.ts.ts:162-190 | the hooks run first; the flag is set right after them, before `createChat`, every request and the follow-up; it is reset after the last call and the catch's toast; a thrown error becomes exactly one stringified toast. The full new state is stated for both outcomes of chat resolution |
| `FeedBrainInChat.FeedSession.FeedBrain` | frontend/lib/components/KnowledgeToFeedInput/hooks/useKnowledgeToFeedInput.ts.ts:143-191 | with no brain, exactly one selectBrainFirst toast and nothing else changes, whatever the pending list; with an empty list, exactly one addFiles toast and nothing else changes; past validation, the whole new state of the batch; the busy flag is written true right after the hooks, before any service call, and false after the last call and toast, and it ends false |

## Left out

- `UploadDocumentModal.tsx` is not part of this model. It is presentation: a modal whose only logic is a visibility flag.
- The transport of the four services is not modelled. Each is an oracle whose outcome is a parameter.
- `getAxiosErrorParams` and `JSON.stringify` are library code and not modelled. An error carries its API message or `None`, and stringified text is the symbolic `Stringify(value)`.
- The translated strings are not modelled. Toasts carry the translation key and the interpolated message.
- `Promise.all` is modelled as a sequential loop: uploads in order, then crawls. Each handler catches its request's rejection, so once `Stringify` is total (next line) no handler rejects, and every request is still sent and awaited. Only the order of the item-failure toasts differs. In the model it is dispatch order; in the source it is the order in which the requests complete.
- `ItemDispatch.ErrorText` and `FeedBrainInChat.BatchFailure`: `Stringify` is total, so a `JSON.stringify` that throws is not modelled. Such a throw happens on a circular value or a `BigInt`, at lines 52, 59, 84, 91 and 186.
  - In a handler's `catch`, the throw makes the handler reject, so `Promise.all` (line 174) rejects. The clear (line 176) and the follow-up (lines 178-182) are then skipped, while the other requests go on and their toasts come after the flag is reset.
  - In the batch's `catch` (line 186), the throw escapes the batch, and `feedBrain` rejects after the `finally` has reset the flag.
- `FormData` is not modelled. The upload request carries the file that the form payload wraps.
- React mechanics are not modelled (`useCallback`, `useState`, `useParams`, `useRouter`). `files` and `urls` are computed from the pending list when `FeedBrain` starts, which is the render the source's closure captured.
- `router.push` is modelled as a `Navigate` call in the call log. Its promise is discarded (`void`), so its failure is outside the batch and not modelled.
- Only `createChat` and the notification fetch throw inside the batch. Throws from the hooks, from `publish`, from `t` or from the helper are not modelled.
- No re-entry guard is modelled, because the source has none. `FeedBrain` does not read the busy flag.
- The brain id is `None` for `null`, and the route's chat id is `None` when the route has none.
- `SeqFacts.AppendAssoc` and `FeedBrainInChat.BatchCallsAfter` state only associativity of concatenation. They model nothing in the source and are there to hand the solver the instances a proof step needs.
