/** The batch "feed the brain" logic: the split of the pending knowledge into
    files and urls, the calls and toasts a batch produces, and the session
    state the batch updates step by step. */
module FeedBrainInChat {
  import opened Wrappers
  import opened FeedTypes
  import opened ItemDispatch
  import opened SeqFacts

  /** The title of the chat a batch creates when the route has none. */
  const NewChatTitle: string := "New Chat"

  /** The route of a chat page. */
  function ChatPath(chatId: Id): string
  {
    "/chat/" + chatId
  }

  /** A chat's route is the `/chat/` prefix followed by the chat id, so
      distinct chats have distinct routes. */
  lemma ChatPathParts(chatId: Id, other: Id)
    ensures |ChatPath(chatId)| == 6 + |chatId| && ChatPath(chatId)[..6] == "/chat/" && ChatPath(chatId)[6..] == chatId
    ensures ChatPath(chatId) == ChatPath(other) <==> chatId == other
  {
    assert ChatPath(chatId)[6..] == chatId;
    assert ChatPath(other)[6..] == other;
  }

  // ---------------------------------------------------------------------
  // The files / urls partition

  /** The file of every upload item, in list order. */
  function Files(items: seq<Item>): (files: seq<File>)
    ensures |files| <= |items|
  {
    if items == [] then []
    else (if items[0].UploadItem? then [items[0].file] else []) + Files(items[1..])
  }

  /** The url of every crawl item, in list order. */
  function Urls(items: seq<Item>): (urls: seq<string>)
    ensures |urls| <= |items|
  {
    if items == [] then []
    else (if items[0].CrawlItem? then [items[0].url] else []) + Urls(items[1..])
  }

  /** The files are exactly those of the upload items. */
  lemma {:induction false} FilesMembers(items: seq<Item>)
    ensures forall f :: f in Files(items) <==> UploadItem(f) in items
  {
    if items != [] {
      FilesMembers(items[1..]);
      assert items == [items[0]] + items[1..];
    }
  }

  /** The urls are exactly those of the crawl items. */
  lemma {:induction false} UrlsMembers(items: seq<Item>)
    ensures forall u :: u in Urls(items) <==> CrawlItem(u) in items
  {
    if items != [] {
      UrlsMembers(items[1..]);
      assert items == [items[0]] + items[1..];
    }
  }

  /** Every item lands in exactly one of the two lists. */
  lemma {:induction false} PartitionSizes(items: seq<Item>)
    ensures |Files(items)| + |Urls(items)| == |items|
  {
    if items != [] {
      PartitionSizes(items[1..]);
    }
  }

  /** The split keeps list order: the files of a concatenation are the files
      of its parts, concatenated. */
  lemma {:induction false} FilesAppend(a: seq<Item>, b: seq<Item>)
    ensures Files(a + b) == Files(a) + Files(b)
  {
    if a == [] {
      assert a + b == b;
    } else {
      assert (a + b)[0] == a[0];
      assert (a + b)[1..] == a[1..] + b;
      FilesAppend(a[1..], b);
    }
  }

  /** The same for the urls. */
  lemma {:induction false} UrlsAppend(a: seq<Item>, b: seq<Item>)
    ensures Urls(a + b) == Urls(a) + Urls(b)
  {
    if a == [] {
      assert a + b == b;
    } else {
      assert (a + b)[0] == a[0];
      assert (a + b)[1..] == a[1..] + b;
      UrlsAppend(a[1..], b);
    }
  }

  // ---------------------------------------------------------------------
  // The calls and toasts of one batch

  /** The calls to the optional caller hooks at the start of a batch. */
  function HookCalls(dispatchHook: bool, closeHook: bool): seq<Call>
  {
    (if dispatchHook then [DispatchHasPendingRequests] else []) + (if closeHook then [CloseFeedInput] else [])
  }

  /** The hook calls are calls to the two hooks only, each when it was passed. */
  lemma HookCallsAreHooks(dispatchHook: bool, closeHook: bool)
    ensures forall k :: 0 <= k < |HookCalls(dispatchHook, closeHook)| ==>
      HookCalls(dispatchHook, closeHook)[k].DispatchHasPendingRequests? || HookCalls(dispatchHook, closeHook)[k].CloseFeedInput?
    ensures DispatchHasPendingRequests in HookCalls(dispatchHook, closeHook) <==> dispatchHook
    ensures CloseFeedInput in HookCalls(dispatchHook, closeHook) <==> closeHook
  {
  }

  /** The chat a batch works in: the route's, else the one created; None when creation failed. */
  function ResolvedChat(routeChatId: Option<Id>, created: Result<Id, Thrown>): Option<Id>
  {
    if routeChatId.Some? then routeChatId
    else if created.Ok? then Some(created.value)
    else None
  }

  function ChatCreationCalls(routeChatId: Option<Id>): seq<Call>
  {
    if routeChatId.None? then [CreateChat(NewChatTitle)] else []
  }

  /** What follows the clear: a new chat is navigated to, an existing one refreshed. */
  function FollowUpCalls(routeChatId: Option<Id>, chatId: Id): seq<Call>
  {
    if routeChatId.Some? then [GetChatNotifications(chatId)] else [Navigate(ChatPath(chatId))]
  }

  /** All uploads of the pending list, then all its crawls. */
  function DispatchCalls(brainId: Id, chatId: Id, items: seq<Item>): seq<Call>
  {
    UploadCalls(brainId, chatId, Files(items)) + CrawlCalls(brainId, chatId, Urls(items))
  }

  /** The calls of a batch whose chat id resolved. */
  function BatchCalls(hooks: seq<Call>, routeChatId: Option<Id>, brainId: Id, chatId: Id, items: seq<Item>): seq<Call>
  {
    hooks + ChatCreationCalls(routeChatId) + DispatchCalls(brainId, chatId, items) + FollowUpCalls(routeChatId, chatId)
  }

  /** The toasts the item handlers of a batch publish: upload failures, then crawl failures. */
  function DispatchToasts(uploadOutcomes: seq<Settled>, crawlOutcomes: seq<Settled>): seq<Toast>
  {
    FailureToasts(UploadFailed, uploadOutcomes) + FailureToasts(CrawlFailed, crawlOutcomes)
  }

  /** The batch-level failure a refresh can throw: only an existing chat is refreshed. */
  function RefreshError(routeChatId: Option<Id>, fetched: Result<seq<Notification>, Thrown>): Option<Thrown>
  {
    if routeChatId.Some? && fetched.Err? then Some(fetched.error) else None
  }

  /** The one danger toast a batch-level failure publishes: the whole error, stringified. */
  function BatchFailure(e: Thrown): Toast
  {
    Danger(Raw(Stringify(e.raw)))
  }

  /** What the batch's `catch` publishes for what its `try` threw. */
  function CaughtToasts(thrown: Option<Thrown>): seq<Toast>
  {
    if thrown.Some? then [BatchFailure(thrown.value)] else []
  }

  /** The number of chat-creation calls in a call log. */
  function CreateChatCount(calls: seq<Call>): nat
  {
    if calls == [] then 0
    else (if calls[0].CreateChat? then 1 else 0) + CreateChatCount(calls[1..])
  }

  lemma {:induction false} CreateChatCountAppend(a: seq<Call>, b: seq<Call>)
    ensures CreateChatCount(a + b) == CreateChatCount(a) + CreateChatCount(b)
  {
    if a == [] {
      assert a + b == b;
    } else {
      assert (a + b)[1..] == a[1..] + b;
      CreateChatCountAppend(a[1..], b);
    }
  }

  lemma {:induction false} NoCreateChat(calls: seq<Call>)
    requires forall i :: 0 <= i < |calls| ==> !calls[i].CreateChat?
    ensures CreateChatCount(calls) == 0
  {
    if calls != [] {
      NoCreateChat(calls[1..]);
    }
  }

  /** A log extended step by step by the parts of a batch ends as the log
      followed by the batch's calls: associativity, stated once as a hint
      for the solver. */
  lemma BatchCallsAfter(log: seq<Call>, hooks: seq<Call>, routeChatId: Option<Id>, brainId: Id, chatId: Id, items: seq<Item>)
    ensures log + hooks + ChatCreationCalls(routeChatId) + DispatchCalls(brainId, chatId, items) + FollowUpCalls(routeChatId, chatId)
      == log + BatchCalls(hooks, routeChatId, brainId, chatId, items)
  {
    var cr, d, f := ChatCreationCalls(routeChatId), DispatchCalls(brainId, chatId, items), FollowUpCalls(routeChatId, chatId);
    AppendAssoc(log, hooks, cr);
    AppendAssoc(log, hooks + cr, d);
    AppendAssoc(log, hooks + cr + d, f);
  }

  // ---------------------------------------------------------------------
  // Properties of a batch

  /** One request per pending item: the uploads of the files, in list order,
      then the crawls of the urls, in list order, each crawl with the fixed
      crawl policy. */
  lemma DispatchShape(brainId: Id, chatId: Id, items: seq<Item>)
    ensures |Files(items)| + |Urls(items)| == |items|
    ensures |DispatchCalls(brainId, chatId, items)| == |items|
    ensures forall i :: 0 <= i < |Files(items)| ==>
      DispatchCalls(brainId, chatId, items)[i] == UploadFile(brainId, Files(items)[i], chatId)
    ensures forall j :: 0 <= j < |Urls(items)| ==>
      DispatchCalls(brainId, chatId, items)[|Files(items)| + j]
        == CrawlWebsiteUrl(brainId, CrawlConfigFor(Urls(items)[j]), chatId)
  {
    var files, urls := Files(items), Urls(items);
    var uploads, crawls := UploadCalls(brainId, chatId, files), CrawlCalls(brainId, chatId, urls);
    PartitionSizes(items);
    UploadCallsAt(brainId, chatId, files);
    CrawlCallsAt(brainId, chatId, urls);
    assert DispatchCalls(brainId, chatId, items) == uploads + crawls;
    forall i | 0 <= i < |files|
      ensures (uploads + crawls)[i] == UploadFile(brainId, files[i], chatId)
    {
      assert (uploads + crawls)[i] == uploads[i];
    }
    forall j | 0 <= j < |urls|
      ensures (uploads + crawls)[|files| + j] == CrawlWebsiteUrl(brainId, CrawlConfigFor(urls[j]), chatId)
    {
      assert (uploads + crawls)[|uploads| + j] == crawls[j];
    }
  }

  /** Every request of a batch is an upload or a crawl scoped to the batch's
      brain and resolved chat, and no upload comes after a crawl. */
  lemma DispatchScoped(brainId: Id, chatId: Id, items: seq<Item>)
    ensures forall k :: 0 <= k < |DispatchCalls(brainId, chatId, items)| ==>
      var c := DispatchCalls(brainId, chatId, items)[k];
      (c.UploadFile? || c.CrawlWebsiteUrl?) && c.brainId == brainId && c.chatId == chatId
    ensures forall i, j :: 0 <= i < j < |DispatchCalls(brainId, chatId, items)| ==>
      (DispatchCalls(brainId, chatId, items)[j].UploadFile? ==> DispatchCalls(brainId, chatId, items)[i].UploadFile?)
  {
    DispatchShape(brainId, chatId, items);
    var d := DispatchCalls(brainId, chatId, items);
    var n := |Files(items)|;
    forall k | 0 <= k < |d|
      ensures (d[k].UploadFile? || d[k].CrawlWebsiteUrl?) && d[k].brainId == brainId && d[k].chatId == chatId
      ensures d[k].UploadFile? <==> k < n
    {
      if k >= n {
        assert d[n + (k - n)] == CrawlWebsiteUrl(brainId, CrawlConfigFor(Urls(items)[k - n]), chatId);
      }
    }
  }

  /** A batch that resolved its chat calls `createChat` exactly once when the
      route has no chat id and never when it has one. */
  lemma CreatesChatOnlyWithoutRoute(dispatchHook: bool, closeHook: bool, routeChatId: Option<Id>,
                                    brainId: Id, chatId: Id, items: seq<Item>)
    ensures CreateChatCount(BatchCalls(HookCalls(dispatchHook, closeHook), routeChatId, brainId, chatId, items))
      == if routeChatId.None? then 1 else 0
  {
    var hooks := HookCalls(dispatchHook, closeHook);
    var d := DispatchCalls(brainId, chatId, items);
    DispatchScoped(brainId, chatId, items);
    NoCreateChat(hooks);
    NoCreateChat(d);
    NoCreateChat(FollowUpCalls(routeChatId, chatId));
    assert CreateChatCount(ChatCreationCalls(routeChatId)) == if routeChatId.None? then 1 else 0;
    CreateChatCountAppend(hooks, ChatCreationCalls(routeChatId));
    CreateChatCountAppend(hooks + ChatCreationCalls(routeChatId), d);
    CreateChatCountAppend(hooks + ChatCreationCalls(routeChatId) + d, FollowUpCalls(routeChatId, chatId));
  }

  /** The calls of a batch are its hook calls and then only service calls
      and the navigation: the busy write that follows the hooks precedes
      every call to a service. */
  lemma HooksComeFirst(hooks: seq<Call>, routeChatId: Option<Id>, brainId: Id, chatId: Id, items: seq<Item>)
    ensures
      var b := BatchCalls(hooks, routeChatId, brainId, chatId, items);
      && |hooks| <= |b| && b[..|hooks|] == hooks
      && (forall k :: |hooks| <= k < |b| ==> !b[k].DispatchHasPendingRequests? && !b[k].CloseFeedInput?)
  {
    var rest := ChatCreationCalls(routeChatId) + DispatchCalls(brainId, chatId, items) + FollowUpCalls(routeChatId, chatId);
    var b := BatchCalls(hooks, routeChatId, brainId, chatId, items);
    assert b == hooks + rest;
    NoHookAfterHooks(routeChatId, brainId, chatId, items);
    forall k | |hooks| <= k < |b|
      ensures !b[k].DispatchHasPendingRequests? && !b[k].CloseFeedInput?
    {
      assert b[k] == rest[k - |hooks|];
    }
  }

  /** No call of a batch after its hooks is a hook call. */
  lemma NoHookAfterHooks(routeChatId: Option<Id>, brainId: Id, chatId: Id, items: seq<Item>)
    ensures
      var rest := ChatCreationCalls(routeChatId) + DispatchCalls(brainId, chatId, items) + FollowUpCalls(routeChatId, chatId);
      forall k :: 0 <= k < |rest| ==> !rest[k].DispatchHasPendingRequests? && !rest[k].CloseFeedInput?
  {
    var cr, d, f := ChatCreationCalls(routeChatId), DispatchCalls(brainId, chatId, items), FollowUpCalls(routeChatId, chatId);
    DispatchScoped(brainId, chatId, items);
    forall k | 0 <= k < |cr + d + f|
      ensures !(cr + d + f)[k].DispatchHasPendingRequests? && !(cr + d + f)[k].CloseFeedInput?
    {
      if k < |cr| {
        assert (cr + d + f)[k] == cr[k];
      } else if k < |cr| + |d| {
        assert (cr + d + f)[k] == d[k - |cr|];
      } else {
        assert (cr + d + f)[k] == f[k - |cr| - |d|];
      }
    }
  }

  /** A resolved batch ends with its follow-up, and only there: one
      navigation to `/chat/{id}` for a new chat, otherwise one refresh of
      the route's chat. No other call of the batch navigates or refreshes. */
  lemma FollowUpIsLast(hooks: seq<Call>, routeChatId: Option<Id>, brainId: Id, chatId: Id, items: seq<Item>)
    requires forall k :: 0 <= k < |hooks| ==> hooks[k].DispatchHasPendingRequests? || hooks[k].CloseFeedInput?
    ensures
      var b := BatchCalls(hooks, routeChatId, brainId, chatId, items);
      && |b| > 0
      && b[|b| - 1] == (if routeChatId.None? then Navigate(ChatPath(chatId)) else GetChatNotifications(chatId))
      && (forall k :: 0 <= k < |b| - 1 ==> !b[k].Navigate? && !b[k].GetChatNotifications?)
  {
    var front := hooks + ChatCreationCalls(routeChatId) + DispatchCalls(brainId, chatId, items);
    var b := BatchCalls(hooks, routeChatId, brainId, chatId, items);
    assert b == front + FollowUpCalls(routeChatId, chatId);
    NoFollowUpBefore(hooks, routeChatId, brainId, chatId, items);
    forall k | 0 <= k < |b| - 1
      ensures !b[k].Navigate? && !b[k].GetChatNotifications?
    {
      assert b[k] == front[k];
    }
  }

  /** No call of a batch before its follow-up navigates or refreshes. */
  lemma NoFollowUpBefore(hooks: seq<Call>, routeChatId: Option<Id>, brainId: Id, chatId: Id, items: seq<Item>)
    requires forall k :: 0 <= k < |hooks| ==> hooks[k].DispatchHasPendingRequests? || hooks[k].CloseFeedInput?
    ensures
      var front := hooks + ChatCreationCalls(routeChatId) + DispatchCalls(brainId, chatId, items);
      forall k :: 0 <= k < |front| ==> !front[k].Navigate? && !front[k].GetChatNotifications?
  {
    var cr, d := ChatCreationCalls(routeChatId), DispatchCalls(brainId, chatId, items);
    DispatchScoped(brainId, chatId, items);
    forall k | 0 <= k < |hooks + cr + d|
      ensures !(hooks + cr + d)[k].Navigate? && !(hooks + cr + d)[k].GetChatNotifications?
    {
      if k < |hooks| {
        assert (hooks + cr + d)[k] == hooks[k];
      } else if k < |hooks| + |cr| {
        assert (hooks + cr + d)[k] == cr[k - |hooks|];
      } else {
        assert (hooks + cr + d)[k] == d[k - |hooks| - |cr|];
      }
    }
  }

  /** k failing items give exactly k toasts: one UploadFailed toast per
      rejected upload, then one CrawlFailed toast per rejected crawl, in
      dispatch order, each carrying its error's text. */
  lemma DispatchToastsCount(uploadOutcomes: seq<Settled>, crawlOutcomes: seq<Settled>)
    ensures |DispatchToasts(uploadOutcomes, crawlOutcomes)| == |Errors(uploadOutcomes)| + |Errors(crawlOutcomes)|
    ensures forall i :: 0 <= i < |Errors(uploadOutcomes)| ==>
      DispatchToasts(uploadOutcomes, crawlOutcomes)[i] == ItemFailure(UploadFailed, Errors(uploadOutcomes)[i])
    ensures forall j :: 0 <= j < |Errors(crawlOutcomes)| ==>
      DispatchToasts(uploadOutcomes, crawlOutcomes)[|Errors(uploadOutcomes)| + j]
        == ItemFailure(CrawlFailed, Errors(crawlOutcomes)[j])
  {
    FailureToastsMatchErrors(UploadFailed, uploadOutcomes);
    FailureToastsMatchErrors(CrawlFailed, crawlOutcomes);
  }

  // ---------------------------------------------------------------------
  // The session state

  /** One write to the busy flag (`setHasPendingRequests`), with the lengths
      the call and toast logs had when it happened: the write falls between
      the calls before it and the calls after it. */
  datatype BusyWrite = BusyWrite(value: bool, callsBefore: nat, toastsBefore: nat)

  /** The state the feed logic reads and writes: the shared pending-knowledge
      list, the busy flag, the chat notifications, and logs of the toasts
      published and the calls made (navigation included). */
  class FeedSession {
    /** Whether the caller passed the optional `dispatchHasPendingRequests` hook. */
    const hasDispatchHook: bool
    /** Whether the caller passed the optional `closeFeedInput` hook. */
    const hasCloseHook: bool

    var pending: seq<Item>
    var busy: bool
    var notifications: seq<Notification>
    var toasts: seq<Toast>
    var calls: seq<Call>
    /** Every write to the busy flag, in order, placed against the two logs. */
    ghost var busyLog: seq<BusyWrite>

    constructor (knowledgeToFeed: seq<Item>, chatNotifications: seq<Notification>, dispatchHook: bool, closeHook: bool)
      ensures hasDispatchHook == dispatchHook && hasCloseHook == closeHook
      ensures pending == knowledgeToFeed && notifications == chatNotifications
      ensures !busy && busyLog == []
      ensures toasts == [] && calls == []
    {
      hasDispatchHook, hasCloseHook := dispatchHook, closeHook;
      pending, notifications := knowledgeToFeed, chatNotifications;
      busy, busyLog := false, [];
      toasts, calls := [], [];
    }

    /** Sends one crawl request; a rejection becomes one CrawlFailed toast and never escapes. */
    method CrawlWebsiteHandler(url: string, brainId: Id, chatId: Id, outcome: Settled)
      modifies this`calls, this`toasts
      ensures calls == old(calls) + [CrawlWebsiteUrl(brainId, CrawlConfigFor(url), chatId)]
      ensures toasts == old(toasts) + FailureToast(CrawlFailed, outcome)
    {
      var config := CrawlConfigFor(url);
      calls := calls + [CrawlWebsiteUrl(brainId, config, chatId)];
      match outcome
      case Resolved =>
      case Rejected(e) =>
        toasts := toasts + [ItemFailure(CrawlFailed, e)];
    }

    /** Sends one upload request; a rejection becomes one UploadFailed toast and never escapes. */
    method UploadFileHandler(file: File, brainId: Id, chatId: Id, outcome: Settled)
      modifies this`calls, this`toasts
      ensures calls == old(calls) + [UploadFile(brainId, file, chatId)]
      ensures toasts == old(toasts) + FailureToast(UploadFailed, outcome)
    {
      calls := calls + [UploadFile(brainId, file, chatId)];
      match outcome
      case Resolved =>
      case Rejected(e) =>
        toasts := toasts + [ItemFailure(UploadFailed, e)];
    }

    /** Fetches the chat's notifications and replaces the list wholesale;
        a rejection is thrown to the caller (returned here). */
    method FetchNotifications(chatId: Id, fetched: Result<seq<Notification>, Thrown>) returns (thrown: Option<Thrown>)
      modifies this`calls, this`notifications
      ensures calls == old(calls) + [GetChatNotifications(chatId)]
      ensures fetched.Ok? ==> thrown.None? && notifications == fetched.value
      ensures fetched.Err? ==> thrown == Some(fetched.error) && notifications == old(notifications)
    {
      calls := calls + [GetChatNotifications(chatId)];
      match fetched
      case Ok(list) =>
        notifications := list;
        thrown := None;
      case Err(e) =>
        thrown := Some(e);
    }

    /** Starts one upload per file, in order (the `uploadPromises`). */
    method UploadAll(brainId: Id, chatId: Id, files: seq<File>, uploadOutcomes: seq<Settled>)
      requires |uploadOutcomes| == |files|
      modifies this`calls, this`toasts
      ensures calls == old(calls) + UploadCalls(brainId, chatId, files)
      ensures toasts == old(toasts) + FailureToasts(UploadFailed, uploadOutcomes)
    {
      var i := 0;
      while i < |files|
        invariant 0 <= i <= |files|
        invariant calls == old(calls) + UploadCalls(brainId, chatId, files[..i])
        invariant toasts == old(toasts) + FailureToasts(UploadFailed, uploadOutcomes[..i])
      {
        UploadFileHandler(files[i], brainId, chatId, uploadOutcomes[i]);
        UploadCallsSnoc(brainId, chatId, files, i);
        FailureToastsSnoc(UploadFailed, uploadOutcomes, i);
        var sent, failed := UploadCalls(brainId, chatId, files[..i]), FailureToasts(UploadFailed, uploadOutcomes[..i]);
        var call, toast := [UploadFile(brainId, files[i], chatId)], FailureToast(UploadFailed, uploadOutcomes[i]);
        AppendAssoc(old(calls), sent, call);
        AppendAssoc(old(toasts), failed, toast);
        i := i + 1;
      }
      assert files[..i] == files && uploadOutcomes[..i] == uploadOutcomes;
    }

    /** Starts one crawl per url, in order (the `crawlPromises`). */
    method CrawlAll(brainId: Id, chatId: Id, urls: seq<string>, crawlOutcomes: seq<Settled>)
      requires |crawlOutcomes| == |urls|
      modifies this`calls, this`toasts
      ensures calls == old(calls) + CrawlCalls(brainId, chatId, urls)
      ensures toasts == old(toasts) + FailureToasts(CrawlFailed, crawlOutcomes)
    {
      var j := 0;
      while j < |urls|
        invariant 0 <= j <= |urls|
        invariant calls == old(calls) + CrawlCalls(brainId, chatId, urls[..j])
        invariant toasts == old(toasts) + FailureToasts(CrawlFailed, crawlOutcomes[..j])
      {
        CrawlWebsiteHandler(urls[j], brainId, chatId, crawlOutcomes[j]);
        CrawlCallsSnoc(brainId, chatId, urls, j);
        FailureToastsSnoc(CrawlFailed, crawlOutcomes, j);
        var sent, failed := CrawlCalls(brainId, chatId, urls[..j]), FailureToasts(CrawlFailed, crawlOutcomes[..j]);
        var call, toast := [CrawlWebsiteUrl(brainId, CrawlConfigFor(urls[j]), chatId)], FailureToast(CrawlFailed, crawlOutcomes[j]);
        AppendAssoc(old(calls), sent, call);
        AppendAssoc(old(toasts), failed, toast);
        j := j + 1;
      }
      assert urls[..j] == urls && crawlOutcomes[..j] == crawlOutcomes;
    }

    /** Dispatches every file, then every url, and waits for all of them
        (the `Promise.all`). Each handler catches its request's rejection,
        so the join is the two loops in sequence. */
    method DispatchAll(brainId: Id, chatId: Id, items: seq<Item>, files: seq<File>, urls: seq<string>,
                       uploadOutcomes: seq<Settled>, crawlOutcomes: seq<Settled>)
      requires files == Files(items) && urls == Urls(items)
      requires |uploadOutcomes| == |files| && |crawlOutcomes| == |urls|
      modifies this`calls, this`toasts
      ensures calls == old(calls) + DispatchCalls(brainId, chatId, items)
      ensures toasts == old(toasts) + DispatchToasts(uploadOutcomes, crawlOutcomes)
    {
      UploadAll(brainId, chatId, files, uploadOutcomes);
      CrawlAll(brainId, chatId, urls, crawlOutcomes);
      var uploads, crawls := UploadCalls(brainId, chatId, files), CrawlCalls(brainId, chatId, urls);
      var uploadToasts, crawlToasts := FailureToasts(UploadFailed, uploadOutcomes), FailureToasts(CrawlFailed, crawlOutcomes);
      AppendAssoc(old(calls), uploads, crawls);
      AppendAssoc(old(toasts), uploadToasts, crawlToasts);
    }

    /** The body of the batch's `try` block: resolve the chat, dispatch every
        item, clear the pending list, then navigate to a new chat or refresh
        an existing one. It runs while the busy flag is set. Returns what the
        block throws. */
    method RunBatch(brainId: Id, routeChatId: Option<Id>, created: Result<Id, Thrown>,
                    items: seq<Item>, files: seq<File>, urls: seq<string>,
                    uploadOutcomes: seq<Settled>, crawlOutcomes: seq<Settled>,
                    fetched: Result<seq<Notification>, Thrown>) returns (thrown: Option<Thrown>)
      requires busy
      requires files == Files(items) && urls == Urls(items)
      requires |uploadOutcomes| == |files| && |crawlOutcomes| == |urls|
      modifies this`calls, this`toasts, this`pending, this`notifications
      ensures ResolvedChat(routeChatId, created).None? ==>
        && thrown == Some(created.error)
        && calls == old(calls) + [CreateChat(NewChatTitle)]
        && toasts == old(toasts)
        && pending == old(pending) && notifications == old(notifications)
      ensures ResolvedChat(routeChatId, created).Some? ==>
        var chatId := ResolvedChat(routeChatId, created).value;
        && thrown == RefreshError(routeChatId, fetched)
        && calls == old(calls) + ChatCreationCalls(routeChatId) + DispatchCalls(brainId, chatId, items)
                    + FollowUpCalls(routeChatId, chatId)
        && toasts == old(toasts) + DispatchToasts(uploadOutcomes, crawlOutcomes)
        && pending == []
        && notifications == (if routeChatId.Some? && fetched.Ok? then fetched.value else old(notifications))
    {
      var chatId: Id;
      if routeChatId.Some? {
        chatId := routeChatId.value;
        assert calls == old(calls) + ChatCreationCalls(routeChatId);
      } else {
        calls := calls + [CreateChat(NewChatTitle)];
        if created.Err? {
          return Some(created.error);
        }
        chatId := created.value;
      }
      DispatchAll(brainId, chatId, items, files, urls, uploadOutcomes, crawlOutcomes);
      pending := [];
      if routeChatId.None? {
        calls := calls + [Navigate(ChatPath(chatId))];
        thrown := None;
      } else {
        thrown := FetchNotifications(chatId, fetched);
      }
    }

    /** The batch past validation: its `try`, `catch` and `finally`. */
    method FeedBatch(brainId: Id, routeChatId: Option<Id>, created: Result<Id, Thrown>,
                     items: seq<Item>, files: seq<File>, urls: seq<string>,
                     uploadOutcomes: seq<Settled>, crawlOutcomes: seq<Settled>,
                     fetched: Result<seq<Notification>, Thrown>)
      requires files == Files(items) && urls == Urls(items)
      requires |uploadOutcomes| == |files| && |crawlOutcomes| == |urls|
      modifies this`calls, this`toasts, this`pending, this`notifications, this`busy, this`busyLog
      // The flag is set right after the hooks, before any service call, and
      // reset after the last call and the last toast.
      ensures !busy
      ensures busyLog == old(busyLog) + [BusyWrite(true, |old(calls)| + |HookCalls(hasDispatchHook, hasCloseHook)|, |old(toasts)|)]
                                      + [BusyWrite(false, |calls|, |toasts|)]
      ensures ResolvedChat(routeChatId, created).None? ==>
        && calls == old(calls) + HookCalls(hasDispatchHook, hasCloseHook) + [CreateChat(NewChatTitle)]
        && toasts == old(toasts) + [BatchFailure(created.error)]
        && pending == old(pending) && notifications == old(notifications)
      ensures ResolvedChat(routeChatId, created).Some? ==>
        var chatId := ResolvedChat(routeChatId, created).value;
        && calls == old(calls) + BatchCalls(HookCalls(hasDispatchHook, hasCloseHook), routeChatId, brainId, chatId, items)
        && toasts == old(toasts) + DispatchToasts(uploadOutcomes, crawlOutcomes) + CaughtToasts(RefreshError(routeChatId, fetched))
        && pending == []
        && notifications == (if routeChatId.Some? && fetched.Ok? then fetched.value else old(notifications))
    {
      // try
      var hooks := HookCalls(hasDispatchHook, hasCloseHook);
      calls := calls + hooks;
      busy, busyLog := true, busyLog + [BusyWrite(true, |calls|, |toasts|)];
      var thrown := RunBatch(brainId, routeChatId, created, items, files, urls, uploadOutcomes, crawlOutcomes, fetched);
      // catch: a thrown error becomes one stringified toast
      toasts := toasts + CaughtToasts(thrown);
      // finally
      busy, busyLog := false, busyLog + [BusyWrite(false, |calls|, |toasts|)];
      if ResolvedChat(routeChatId, created).Some? {
        BatchCallsAfter(old(calls), hooks, routeChatId, brainId, ResolvedChat(routeChatId, created).value, items);
      } else {
        assert thrown == Some(created.error);
      }
    }

    /** Feeds the pending knowledge to the selected brain as one batch. */
    method FeedBrain(brainId: Option<Id>, routeChatId: Option<Id>, created: Result<Id, Thrown>,
                     uploadOutcomes: seq<Settled>, crawlOutcomes: seq<Settled>,
                     fetched: Result<seq<Notification>, Thrown>)
      requires |uploadOutcomes| == |Files(pending)| && |crawlOutcomes| == |Urls(pending)|
      modifies this`calls, this`toasts, this`pending, this`notifications, this`busy, this`busyLog
      // Validation: no brain selected.
      ensures brainId.None? ==>
        && toasts == old(toasts) + [Danger(Translated(SelectBrainFirst, None))]
        && calls == old(calls) && pending == old(pending)
        && busy == old(busy) && busyLog == old(busyLog)
        && notifications == old(notifications)
      // Validation: nothing to feed.
      ensures brainId.Some? && old(pending) == [] ==>
        && toasts == old(toasts) + [Danger(Translated(AddFiles, None))]
        && calls == old(calls) && pending == old(pending)
        && busy == old(busy) && busyLog == old(busyLog)
        && notifications == old(notifications)
      // Past validation the busy flag is set right after the hooks, before
      // any service call, and always reset after the last call and toast.
      ensures brainId.Some? && old(pending) != [] ==>
        && !busy
        && busyLog == old(busyLog) + [BusyWrite(true, |old(calls)| + |HookCalls(hasDispatchHook, hasCloseHook)|, |old(toasts)|)]
                                   + [BusyWrite(false, |calls|, |toasts|)]
      // Chat creation failed: one stringified toast, nothing dispatched, nothing cleared.
      ensures brainId.Some? && old(pending) != [] && ResolvedChat(routeChatId, created).None? ==>
        && calls == old(calls) + HookCalls(hasDispatchHook, hasCloseHook) + [CreateChat(NewChatTitle)]
        && toasts == old(toasts) + [BatchFailure(created.error)]
        && pending == old(pending) && notifications == old(notifications)
      // Chat resolved: every item dispatched, pending cleared, then navigate or refresh.
      ensures brainId.Some? && old(pending) != [] && ResolvedChat(routeChatId, created).Some? ==>
        var chatId := ResolvedChat(routeChatId, created).value;
        && calls == old(calls) + BatchCalls(HookCalls(hasDispatchHook, hasCloseHook), routeChatId, brainId.value, chatId, old(pending))
        && toasts == old(toasts) + DispatchToasts(uploadOutcomes, crawlOutcomes) + CaughtToasts(RefreshError(routeChatId, fetched))
        && pending == []
        && notifications == (if routeChatId.Some? && fetched.Ok? then fetched.value else old(notifications))
    {
      var items := pending;
      var files, urls := Files(items), Urls(items);
      if brainId.None? {
        toasts := toasts + [Danger(Translated(SelectBrainFirst, None))];
        return;
      }
      if |items| == 0 {
        toasts := toasts + [Danger(Translated(AddFiles, None))];
        return;
      }
      FeedBatch(brainId.value, routeChatId, created, items, files, urls, uploadOutcomes, crawlOutcomes, fetched);
    }
  }
}
