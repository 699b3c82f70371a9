/** The entities the feed logic works on: pending knowledge items, the
    requests it sends to the ingestion services, thrown errors and toasts. */
module FeedTypes {
  import opened Wrappers

  /** A UUID as the route and the APIs carry it. */
  type Id = string

  /** A browser file handle; only its identity matters to the feed logic. */
  datatype File = File(handle: nat)

  /** One pending knowledge item: a file to upload or a url to crawl. */
  datatype Item = UploadItem(file: File) | CrawlItem(url: string)

  /** The request body the crawl service receives. */
  datatype CrawlConfig = CrawlConfig(url: string, js: bool, depth: nat, maxPages: nat, maxTime: nat)

  /** Any value a promise can reject with, kept opaque. */
  datatype Value = Value(token: nat)

  /** A thrown error: its raw value, and the `message` that the error-parameter
      helper extracts when the error is a structured API error (None when the
      helper gives back `undefined`). */
  datatype Thrown = Thrown(raw: Value, apiMessage: Option<Value>)

  /** The text `JSON.stringify` produces for a value, kept symbolic. */
  datatype Json = Stringify(of: Value)

  /** The translation keys the feed logic publishes. */
  datatype Key = SelectBrainFirst | AddFiles | CrawlFailed | UploadFailed

  /** A toast text: a translation key with its optional `message`
      interpolation, or a stringified error shown as it is. */
  datatype Text = Translated(key: Key, message: Option<Json>) | Raw(json: Json)

  /** Every toast the feed logic publishes has the "danger" variant. */
  datatype Toast = Danger(text: Text)

  /** One chat notification as the notification service returns it. */
  datatype Notification = Notification(token: nat)

  /** One observable call: an optional caller hook, an external service or
      a page navigation (`router.push`). */
  datatype Call =
    | DispatchHasPendingRequests
    | CloseFeedInput
    | CreateChat(title: string)
    | UploadFile(brainId: Id, file: File, chatId: Id)
    | CrawlWebsiteUrl(brainId: Id, config: CrawlConfig, chatId: Id)
    | GetChatNotifications(chatId: Id)
    | Navigate(path: string)

  /** How one awaited upload or crawl request settled. */
  datatype Settled = Resolved | Rejected(error: Thrown)
}
