/** The per-item rules of the upload and crawl handlers: the request each
    handler sends, and the toast a failed request turns into. */
module ItemDispatch {
  import opened Wrappers
  import opened FeedTypes

  /** The fixed crawl policy: the url as given, JavaScript off, one level
      deep, at most 100 pages and 60 seconds. */
  function CrawlConfigFor(url: string): (c: CrawlConfig)
    ensures c.url == url && !c.js
    ensures c.depth == 1 && c.maxPages == 100 && c.maxTime == 60
  {
    CrawlConfig(url, false, 1, 100, 60)
  }

  /** The `message` interpolated into a failure toast: the stringified API
      message when the error is a structured API error, otherwise the
      stringified raw error. */
  function ErrorText(e: Thrown): (j: Json)
    ensures e.apiMessage.Some? ==> j == Stringify(e.apiMessage.value)
    ensures e.apiMessage.None? ==> j == Stringify(e.raw)
  {
    match e.apiMessage
    case Some(m) => Stringify(m)
    case None => Stringify(e.raw)
  }

  /** The one danger toast a failed upload (key UploadFailed) or crawl (key
      CrawlFailed) publishes. */
  function ItemFailure(key: Key, e: Thrown): Toast
  {
    Danger(Translated(key, Some(ErrorText(e))))
  }

  /** The toasts one settled request publishes: none when it resolved, one
      when it rejected. */
  function FailureToast(key: Key, s: Settled): (t: seq<Toast>)
    ensures s.Resolved? <==> t == []
    ensures s.Rejected? ==> t == [ItemFailure(key, s.error)]
  {
    if s.Rejected? then [ItemFailure(key, s.error)] else []
  }

  /** The toasts a run of settled requests publishes, in dispatch order. */
  function FailureToasts(key: Key, outcomes: seq<Settled>): seq<Toast>
  {
    if outcomes == [] then []
    else FailureToasts(key, outcomes[..|outcomes| - 1]) + FailureToast(key, outcomes[|outcomes| - 1])
  }

  /** The errors of the rejected requests, in order (the reference each
      toast run is compared with). */
  function Errors(outcomes: seq<Settled>): (es: seq<Thrown>)
    ensures |es| <= |outcomes|
  {
    if outcomes == [] then []
    else (if outcomes[0].Rejected? then [outcomes[0].error] else []) + Errors(outcomes[1..])
  }

  /** The errors listed are exactly those of the rejected requests. */
  lemma {:induction false} ErrorsMembers(outcomes: seq<Settled>)
    ensures forall e :: e in Errors(outcomes) <==> Rejected(e) in outcomes
  {
    if outcomes != [] {
      ErrorsMembers(outcomes[1..]);
      assert outcomes == [outcomes[0]] + outcomes[1..];
    }
  }

  lemma {:induction false} ErrorsAppend(a: seq<Settled>, b: seq<Settled>)
    ensures Errors(a + b) == Errors(a) + Errors(b)
  {
    if a == [] {
      assert a + b == b;
    } else {
      assert (a + b)[0] == a[0];
      assert (a + b)[1..] == a[1..] + b;
      ErrorsAppend(a[1..], b);
    }
  }

  /** A batch of requests publishes exactly one toast per rejected request,
      in order, each with the key of its handler and the error's text. */
  lemma {:induction false} FailureToastsMatchErrors(key: Key, outcomes: seq<Settled>)
    ensures |FailureToasts(key, outcomes)| == |Errors(outcomes)|
    ensures forall i :: 0 <= i < |Errors(outcomes)| ==>
      FailureToasts(key, outcomes)[i] == ItemFailure(key, Errors(outcomes)[i])
  {
    if outcomes != [] {
      var init, last := outcomes[..|outcomes| - 1], outcomes[|outcomes| - 1];
      assert outcomes == init + [last];
      FailureToastsMatchErrors(key, init);
      ErrorsAppend(init, [last]);
      assert [last][1..] == [];
    }
  }

  /** Extending a run of outcomes by one extends its toasts by that outcome's. */
  lemma FailureToastsSnoc(key: Key, outcomes: seq<Settled>, i: nat)
    requires i < |outcomes|
    ensures FailureToasts(key, outcomes[..i + 1]) == FailureToasts(key, outcomes[..i]) + FailureToast(key, outcomes[i])
  {
    assert outcomes[..i + 1][..i] == outcomes[..i];
  }

  /** When every request resolves, nothing is published. */
  lemma {:induction false} AllResolvedNoToasts(key: Key, outcomes: seq<Settled>)
    requires forall i :: 0 <= i < |outcomes| ==> outcomes[i].Resolved?
    ensures FailureToasts(key, outcomes) == []
  {
    if outcomes != [] {
      AllResolvedNoToasts(key, outcomes[..|outcomes| - 1]);
    }
  }

  /** One upload request per file, in order, all scoped to the same brain and chat. */
  function UploadCalls(brainId: Id, chatId: Id, files: seq<File>): seq<Call>
  {
    if files == [] then []
    else UploadCalls(brainId, chatId, files[..|files| - 1]) + [UploadFile(brainId, files[|files| - 1], chatId)]
  }

  /** One crawl request per url, in order, each with the fixed crawl policy. */
  function CrawlCalls(brainId: Id, chatId: Id, urls: seq<string>): seq<Call>
  {
    if urls == [] then []
    else CrawlCalls(brainId, chatId, urls[..|urls| - 1]) + [CrawlWebsiteUrl(brainId, CrawlConfigFor(urls[|urls| - 1]), chatId)]
  }

  lemma UploadCallsSnoc(brainId: Id, chatId: Id, files: seq<File>, i: nat)
    requires i < |files|
    ensures UploadCalls(brainId, chatId, files[..i + 1]) == UploadCalls(brainId, chatId, files[..i]) + [UploadFile(brainId, files[i], chatId)]
  {
    assert files[..i + 1][..i] == files[..i];
  }

  lemma CrawlCallsSnoc(brainId: Id, chatId: Id, urls: seq<string>, i: nat)
    requires i < |urls|
    ensures CrawlCalls(brainId, chatId, urls[..i + 1])
      == CrawlCalls(brainId, chatId, urls[..i]) + [CrawlWebsiteUrl(brainId, CrawlConfigFor(urls[i]), chatId)]
  {
    assert urls[..i + 1][..i] == urls[..i];
  }

  lemma {:induction false} UploadCallsAt(brainId: Id, chatId: Id, files: seq<File>)
    ensures |UploadCalls(brainId, chatId, files)| == |files|
    ensures forall i :: 0 <= i < |files| ==> UploadCalls(brainId, chatId, files)[i] == UploadFile(brainId, files[i], chatId)
  {
    if files != [] {
      UploadCallsAt(brainId, chatId, files[..|files| - 1]);
    }
  }

  lemma {:induction false} CrawlCallsAt(brainId: Id, chatId: Id, urls: seq<string>)
    ensures |CrawlCalls(brainId, chatId, urls)| == |urls|
    ensures forall i :: 0 <= i < |urls| ==>
      CrawlCalls(brainId, chatId, urls)[i] == CrawlWebsiteUrl(brainId, CrawlConfigFor(urls[i]), chatId)
  {
    if urls != [] {
      CrawlCallsAt(brainId, chatId, urls[..|urls| - 1]);
    }
  }
}
