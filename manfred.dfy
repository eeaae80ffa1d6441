/** Value types that the app receives from the Manfred API package.
    Only the fields the app's logic looks at are kept; everything Manfred
    decodes beyond these is irrelevant to the modelled behaviour. */
module Manfred {

  /** Swift's `T?`. */
  datatype Option<+T> = None | Some(value: T)

  /** The outcome of a throwing async call: the value, or the thrown error. */
  datatype Result<+T, +E> = Success(value: T) | Failure(error: E)

  /** The errors that can end `fetchPosts` at its `try await`: the transport,
      HTTP status and decoding failures of `session.client.send`, and the
      cancellation of the view's `.task` while the call is suspended. */
  datatype FetchError = TransportError | HttpError(statusCode: int) | DecodingError | Cancelled

  /** URLs are carried as their text. */
  type URL = string

  /** An authenticated session: the access token the timeline request sends and
      the server it belongs to. Sessions are immutable values. */
  datatype Session = Session(accessToken: string, server: string)

  /** A timeline entry as decoded from the home timeline endpoint; its `id` is
      the pagination cursor. */
  datatype Status = Status(id: string)

  /** `Account.formattedUsernameComponents`: the handle, and the server part of
      the account name when it names one. */
  datatype UsernameComponents = UsernameComponents(handle: string, server: Option<string>)

  datatype Account = Account(
    displayName: string,
    avatarStatic: URL,
    formattedUsernameComponents: UsernameComponents)

  /** Mastodon's attachment types. */
  datatype MediaType = Image | Video | Gifv | Audio | Unknown

  datatype MediaAttachment = MediaAttachment(mediaType: MediaType, url: URL)

  /** `CardType` of a preview card (raw values "link", "video", "photo"). */
  datatype CardType = Link | Video | Photo

  datatype PreviewCard = PreviewCard(cardType: CardType, url: URL)

  /** A post as the views see it; `reblog` is the boosted post when this one is a boost. */
  datatype Post = Post(
    account: Account,
    content: Option<string>,
    media: seq<MediaAttachment>,
    card: Option<PreviewCard>,
    reblog: Option<Post>)
}
