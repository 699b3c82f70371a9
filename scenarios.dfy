/** Two batches worked through against the contracts of FeedBrain alone,
    as a caller of the session would reason about them. */
module Scenarios {
  import opened Wrappers
  import opened FeedTypes
  import opened ItemDispatch
  import opened FeedBrainInChat

  /** One file and one url, a selected brain and no chat in the route: a
      chat is created, both items are sent to it, and the page moves there,
      all while the busy flag is set. */
  method NewChatScenario()
  {
    var a := File(1);
    var s := new FeedSession([UploadItem(a), CrawlItem("https://x.test")], [], false, false);
    s.FeedBrain(Some("B1"), None, Ok("C1"), [Resolved], [Resolved], Ok([]));
    assert |Files([UploadItem(a), CrawlItem("https://x.test")])| == 1;
    DispatchShape("B1", "C1", [UploadItem(a), CrawlItem("https://x.test")]);
    assert s.calls[0] == CreateChat("New Chat");
    assert s.calls[1] == UploadFile("B1", a, "C1");
    assert s.calls[2] == CrawlWebsiteUrl("B1", CrawlConfig("https://x.test", false, 1, 100, 60), "C1");
    assert ChatPath("C1") == "/chat/C1";
    assert s.calls[3] == Navigate("/chat/C1");
    assert |s.calls| == 4;
    assert s.pending == [] && !s.busy && s.toasts == [];
    assert s.busyLog == [BusyWrite(true, 0, 0), BusyWrite(false, 4, 0)];
  }

  lemma SplitOfThree(f: File, u: string, g: File)
    ensures Files([UploadItem(f), CrawlItem(u), UploadItem(g)]) == [f, g]
    ensures Urls([UploadItem(f), CrawlItem(u), UploadItem(g)]) == [u]
  {
    var items := [UploadItem(f), CrawlItem(u), UploadItem(g)];
    assert items[1..][1..] == [UploadItem(g)] && items[1..][1..][1..] == [];
    assert Files(items[1..][1..]) == [g] && Urls(items[1..][1..]) == [];
    assert Files(items[1..]) == [g] && Urls(items[1..]) == [u];
  }

  lemma SecondOfTwoFails(e: Thrown)
    ensures DispatchToasts([Resolved, Rejected(e)], [Resolved]) == [ItemFailure(UploadFailed, e)]
  {
    assert [Resolved, Rejected(e)][..1] == [Resolved] && [Resolved][..0] == [];
    assert FailureToasts(UploadFailed, [Resolved]) == [];
    assert FailureToasts(CrawlFailed, [Resolved]) == [];
  }

  /** Three items in an existing chat, the second upload failing: exactly
      one toast names that upload's error, the list is cleared, the busy
      flag is reset and the notifications are replaced. */
  method FailingItemScenario(e: Thrown, latest: seq<Notification>)
  {
    var f, g := File(1), File(2);
    var items := [UploadItem(f), CrawlItem("https://y.test"), UploadItem(g)];
    var s := new FeedSession(items, [], true, true);
    SplitOfThree(f, "https://y.test", g);
    s.FeedBrain(Some("B1"), Some("C7"), Err(e), [Resolved, Rejected(e)], [Resolved], Ok(latest));
    SecondOfTwoFails(e);
    assert s.toasts == [ItemFailure(UploadFailed, e)];
    assert s.pending == [] && !s.busy && s.notifications == latest;
  }

  /** The same batch still sends all three items, after the two caller hooks
      and before the refresh, never creates a chat or navigates, and keeps
      the busy flag set from the first request to the refresh. */
  method FailingItemCallsScenario(e: Thrown, latest: seq<Notification>)
  {
    var f, g := File(1), File(2);
    var items := [UploadItem(f), CrawlItem("https://y.test"), UploadItem(g)];
    var s := new FeedSession(items, [], true, true);
    SplitOfThree(f, "https://y.test", g);
    s.FeedBrain(Some("B1"), Some("C7"), Err(e), [Resolved, Rejected(e)], [Resolved], Ok(latest));
    assert s.calls == [DispatchHasPendingRequests, CloseFeedInput] + DispatchCalls("B1", "C7", items)
                      + [GetChatNotifications("C7")];
    DispatchShape("B1", "C7", items);
    SecondOfTwoFails(e);
    assert s.busyLog == [BusyWrite(true, 2, 0), BusyWrite(false, 6, 1)];
  }
}
