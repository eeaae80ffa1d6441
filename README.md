# Oliphaunt core, modelled in Dafny

Oliphaunt is a macOS client for Mastodon. This project models the logic at its
core and proves properties of that model:

- **The timeline pagination engine** (`TimelineController`). It keeps an
  append-only list of statuses and a phase, `empty | loading | loaded`.
  `fetchPosts` sets the phase to `loading` and builds the query parameters
  from the optional `min_id`/`max_id` cursors. On success it appends the
  returned page and sets `loaded`. On failure it shows an alert and changes
  nothing else. `fetchNextPage` pages with `max_id` set to the id of the last
  status. The async call is split into `BeginFetch` and `CompleteFetch`, so a
  second fetch can begin before the first completes, as the Swift code allows.
- **The screen state machine** (`AppViewModel`). The screen starts as
  `loading`. Once `autoLogin` has finished and the session sink is attached,
  each session value gives `onboarding` (no session) or
  `timeline(TimelineController(session))`, with a new controller every time.
- **The image gallery** (`GalleryWindow.swift`). It decodes key presses into
  commands, clamps the selected index, handles commands over
  `(selectedIndex, zoomScale)`, decides when the navigation buttons are
  disabled, and keeps at most one window open through the window manager.
- **What a post view derives from a post** (`PostView.swift`). This covers the
  displayed post and its booster, the image attachments, the link-card URL,
  and which identity labels are shown.

Files: `manfred.dfy` (value types of the Manfred API package), `timeline.dfy`,
`app.dfy`, `gallery.dfy`, `postview.dfy`.

The Swift code has no guard against overlapping fetches. A fetch begun while
another is in flight runs normally. A failure leaves the phase at `loading`; it
never returns to `loaded` or `empty`. A controller whose session is replaced is
not marked in any way. The model follows the code, and lemmas and scenario
methods show what these behaviours mean:

- `Timelines.OverlappingFetchesAppendTwice` and `Timelines.OverlapScenario`:
  two overlapping next-page fetches send the same request, and the same page
  is appended twice.
- `Timelines.FailuresNeverLeaveLoading` and `Timelines.FailureScenario`: once a
  fetch has begun, failures keep the phase at `loading`.
- `AppModel.SupersededFetchScenario`: a controller whose session was replaced
  still takes its page when the page arrives. Nothing shows that controller
  any more, and the new screen's controller is untouched.

## Model

| member | source | states |
|---|---|---|
| `Timelines.TimelineController.constructor` | Oliphaunt/App/TimelineController.swift:6-12 | A new controller holds exactly the given session (a `const`, never reassigned), an empty status list and phase `empty`. |
| `Timelines.TimelineController.BeginFetch` | Oliphaunt/App/TimelineController.swift:24-38 | Whatever the prior phase, the phase becomes `loading` and the list is unchanged. The request carries the session's access token and the query map `QueryParams(minID, maxID)`. |
| `Timelines.TimelineController.CompleteFetch` | Oliphaunt/App/TimelineController.swift:33-44 | The new state is `Completed(old state, result)`. On success the page is appended and the phase is `loaded`. On failure the error is reported as the alert, and the list and phase are untouched. |
| `Timelines.TimelineController.BeginNextPage` | Oliphaunt/App/TimelineController.swift:47-49 | Begins a fetch with no `min_id` and with `max_id` equal to the id of the last status, or absent when the list is empty. |
| `Timelines.CompactMapValues` | Oliphaunt/App/TimelineController.swift:31 | A key is in the result iff its value in the input is non-nil, and each kept key is mapped to the unwrapped value. |
| `Timelines.QueryParams` | Oliphaunt/App/TimelineController.swift:28-31 | The map has `"min_id"` iff `minID` is present and `"max_id"` iff `maxID` is present. These keys map to those values, and there are no other keys. |
| `Timelines.LastID` | Oliphaunt/App/TimelineController.swift:48 | `statuses.last?.id` is nil iff the list is empty; otherwise it is the id of the last element. |
| `Timelines.Began` | Oliphaunt/App/TimelineController.swift:26 | Beginning a fetch sets the phase to `loading` and keeps the list. |
| `Timelines.Completed` | Oliphaunt/App/TimelineController.swift:40-44 | The old list stays a prefix. On success the length grows by the page size, the new tail is the page in server order, and the phase is `loaded`. On failure the state is unchanged. |
| `Timelines.RunAppendsSuccessfulPages` | Oliphaunt/App/TimelineController.swift:24-45 | After any interleaving of begun and completed fetches, the list is the old list followed by every successful page, in the order the completions ran. |
| `Timelines.AppendOnly` | Oliphaunt/App/TimelineController.swift:40 | No sequence of operations removes or reorders a status: the old list is always a prefix of the new one. |
| `Timelines.FailuresNeverLeaveLoading` | Oliphaunt/App/TimelineController.swift:42-44 | With no successful completion the list never changes. The phase is `loading` if a fetch was pending or has begun; otherwise it keeps its old value. No failure leaves `loading`. |
| `Timelines.OverlappingFetchesAppendTwice` | Oliphaunt/App/TimelineController.swift:47-49 | Two next-page fetches begun from the same list, then both completed with the same page, give the old list followed by that page twice, and phase `loaded`. |
| `Timelines.PagingScenario` | Oliphaunt/App/TimelineController.swift:24-49 | The first load sends no cursors and gets ids "20".."11". The next page sends only `max_id = "11"` and gets "10".."1". The list is then all 20 statuses in server order, and the phase is `loaded`. |
| `Timelines.OverlapScenario` | Oliphaunt/App/TimelineController.swift:47-49 | A second next-page fetch begun while the first is outstanding sends the identical request, and its page is appended again. |
| `Timelines.FailureScenario` | Oliphaunt/App/TimelineController.swift:42-44 | A failed next page reports the error, keeps the list, and leaves the phase at `loading`. |
| `AppModel.Route` | Oliphaunt/App/AppViewModel.swift:23-29 | No session routes to `onboarding`. A present session `S` routes to a timeline screen bound to `S`. |
| `AppModel.LastEmissionWins` | Oliphaunt/App/AppViewModel.swift:21-31 | After any non-empty sequence of emissions processed in order, the screen is determined by the last emission alone. |
| `AppModel.AppViewModel.constructor` | Oliphaunt/App/AppViewModel.swift:4-13 | The screen starts as `loading`, nothing is subscribed and no controller exists. `accountController` is a fresh object held in a `const`, so it is never replaced. |
| `AppModel.AppViewModel.AutoLoginFinished` | Oliphaunt/App/AppViewModel.swift:17-32 | After `autoLogin` the sink is attached and stored. The screen is unchanged, so it is still `loading` until the first emission is handled. |
| `AppModel.AppViewModel.SessionEmitted` | Oliphaunt/App/AppViewModel.swift:21-31 | Before the sink is attached an emission changes nothing. After it, the screen becomes `Route(session)`. A present session gives a freshly allocated controller, distinct from every earlier one, bound to that session, with an empty list and phase `empty`. |
| `AppModel.AppViewModel.SessionsEmitted` | Oliphaunt/App/AppViewModel.swift:21-31 | A run of emissions leaves the screen equal to `Process` of them, which is their last one. Exactly one controller is created per present-session emission, and each of them is freshly allocated. Earlier controllers are kept in order. |
| `AppModel.ResumeFetch` | Oliphaunt/App/TimelineController.swift:14-22 | A completion on any controller other than the one currently on screen changes neither the screen nor that controller's statuses or phase. |
| `AppModel.SupersededFetchScenario` | Oliphaunt/App/AppViewModel.swift:24-26 | Session A's controller begins a page and B replaces A. When A's page arrives, B's controller still has an empty list and phase `empty`, and the old controller takes the page. |
| `Gallery.DecodeCommand` | Oliphaunt/App/GalleryWindow.swift:37-49 | Command+"=" gives `increaseZoom` and command+"-" gives `decreaseZoom`, ahead of the arrow keys. Otherwise key code 0x7B gives `navigatePrevious` and 0x7C gives `navigateNext`. Anything else gives nil. Each case is stated as an if-and-only-if. |
| `Gallery.ShortcutDecodes` | Oliphaunt/App/GalleryWindow.swift:32-49 | Every command has a key press that decodes to it. |
| `Gallery.CommandArrowNavigates` | Oliphaunt/App/GalleryWindow.swift:38-45 | An arrow key navigates whatever modifiers are held, unless command is held and the characters are `=` or `-`. |
| `Gallery.Clamp` | Oliphaunt/App/GalleryWindow.swift:130-132 | With at least one item the result is in `[0, count-1]`. An in-range index is unchanged, below range gives 0, and above range gives `count-1`. With no items the expression gives `-1`. |
| `Gallery.ClampIdempotent` | Oliphaunt/App/GalleryWindow.swift:131 | For every count, including no media, clamping an already clamped index changes nothing. |
| `Gallery.ClampMonotone` | Oliphaunt/App/GalleryWindow.swift:131 | Clamping preserves the order of indices. |
| `Gallery.Apply` | Oliphaunt/App/GalleryWindow.swift:120-127 | Zoom commands change `zoomScale` by exactly +1 or -1 and keep `selectedIndex`. Navigation commands keep `zoomScale` and, with at least one item, land in range. |
| `Gallery.NavigationSteps` | Oliphaunt/App/GalleryWindow.swift:124-125 | From an in-range index, previous at 0 stays at 0 and next at `count-1` stays at `count-1`. Elsewhere each moves by exactly one. |
| `Gallery.ZoomIsNetSteps` | Oliphaunt/App/GalleryWindow.swift:122-123 | After any run of commands `zoomScale` has moved by the number of increases minus the number of decreases. |
| `Gallery.IndexStaysInRange` | Oliphaunt/App/GalleryWindow.swift:124-131 | An in-range selected index stays in range under any run of commands. |
| `Gallery.PreviousDisabled` | Oliphaunt/App/GalleryWindow.swift:137-142 | For an index inside a gallery of any size, the previous button is disabled exactly when pressing it would leave the index where it is. |
| `Gallery.NextDisabled` | Oliphaunt/App/GalleryWindow.swift:146-151 | For an index inside the gallery, the next button is disabled exactly when pressing it would leave the index where it is. |
| `Gallery.ShowsNavigationButtons` | Oliphaunt/App/GalleryWindow.swift:116-151 | The buttons are overlaid exactly when some index of the gallery has an enabled button. So they never appear when every button would be disabled. |
| `Gallery.GalleryRoot.constructor` | Oliphaunt/App/GalleryWindow.swift:102-112 | The index must be one of the media's, because `body` reads `media[selectedIndex]`, which traps otherwise. The gallery holds the given media and index, and the zoom scale starts at 1. |
| `Gallery.GalleryRoot.SetSelectedIndex` | Oliphaunt/App/GalleryWindow.swift:130-132 | The selected index becomes `Clamp(index, media.count)`, and the zoom is unchanged. |
| `Gallery.GalleryRoot.Receive` | Oliphaunt/App/GalleryWindow.swift:120-127 | The new `(selectedIndex, zoomScale)` is `Apply` of the old one and the command. |
| `Gallery.GalleryRoot.PreviousPressed` | Oliphaunt/App/GalleryWindow.swift:137-139 | The previous button does what the `navigatePrevious` command does. |
| `Gallery.GalleryRoot.NextPressed` | Oliphaunt/App/GalleryWindow.swift:146-148 | The next button does what the `navigateNext` command does. |
| `Gallery.GalleryWindowController.constructor` | Oliphaunt/App/GalleryWindow.swift:55-74 | Given an index of the media, a new window controller hosts a fresh gallery with the given media and index. It is not yet shown or closed. |
| `Gallery.GalleryWindowController.ShowWindow` | Oliphaunt/App/GalleryWindow.swift:76-79 | Showing brings the window to the front and does not close it. |
| `Gallery.GalleryWindowController.Close` | Oliphaunt/App/GalleryWindow.swift:14 | Closing marks the window closed. |
| `Gallery.GalleryWindowController.KeyDown` | Oliphaunt/App/GalleryWindow.swift:93-99 | A key is handled iff it decodes to a command, and then the gallery applies that command. Any other key is passed on and leaves the gallery unchanged. |
| `Gallery.GalleryWindowManager.constructor` | Oliphaunt/App/GalleryWindow.swift:8-11 | The manager starts with no window controller. |
| `Gallery.GalleryWindowManager.Show` | Oliphaunt/App/GalleryWindow.swift:13-23 | Given an index of the media, any window controller held before is closed. Exactly one new, shown controller is held, with the given media and index. Every earlier controller is closed. |
| `PostDisplay.MakePostView` | Oliphaunt/App/PostView.swift:8-13 | The displayed post is `displayPost(post)`. `booster` is the post's account iff the post is a reblog, and nil otherwise. |
| `PostDisplay.Images` | Oliphaunt/App/PostView.swift:24 | The filter keeps exactly the image-typed media: every kept item is an image, and every image of the input is kept. |
| `PostDisplay.ImagesOfConcat` | Oliphaunt/App/PostView.swift:24 | Filtering a concatenation is the concatenation of the filtered parts, so the images keep their original order. |
| `PostDisplay.ImagesOfImages` | Oliphaunt/App/PostView.swift:24 | Media that are all images pass through the filter unchanged. |
| `PostDisplay.NoImageMeansEmpty` | Oliphaunt/App/PostView.swift:24-27 | If the filter is empty, no media item is an image. |
| `PostDisplay.ImageAttachments` | Oliphaunt/App/PostView.swift:23-30 | The result is nil iff no media item is an image. Otherwise it is the non-empty list of the image media, in order. |
| `PostDisplay.LinkCardURL` | Oliphaunt/App/PostView.swift:116-122 | The result is present iff the post has a card whose type is `link`, and then it is the card's URL. |
| `PostDisplay.TrimLeading` | Oliphaunt/App/PostView.swift:87 | The result is a suffix of the input that does not start with whitespace, and everything removed is whitespace or newlines. |
| `PostDisplay.TrimTrailing` | Oliphaunt/App/PostView.swift:87 | The result is a prefix of the input that does not end with whitespace, and everything removed is whitespace or newlines. |
| `PostDisplay.Trimmed` | Oliphaunt/App/PostView.swift:87 | Trimming leaves text that neither starts nor ends with whitespace. That text is a contiguous slice of the input, and everything cut from either end is whitespace. It is empty iff the input is all whitespace and newlines. |
| `PostDisplay.DisplayNameShown` | Oliphaunt/App/PostView.swift:87-90 | The display name is shown iff it contains a character that is neither whitespace nor a newline. |
| `PostDisplay.IdentityOf` | Oliphaunt/App/PostView.swift:86-113 | The name label is present iff the name is shown, and it is the name. The handle is always shown. The server label is present iff the username's server component is non-nil, and it is that component. |
| `PostDisplay.BlankNameHidden` | Oliphaunt/App/PostView.swift:87 | A name of blanks and a newline is hidden; a name with letters is shown. |

## Left out

- The HTTP client (`session.client.send`), the `Timeline.home` endpoint and JSON decoding belong to the Manfred package, whose code is not part of this model. `BeginFetch` returns the request as a value, and `CompleteFetch` takes the call's outcome as a `Result`.
- The `NSAlert(...).runModal()` on failure is UI. `CompleteFetch` returns the error it would show and leaves the state untouched.
- Combine's `sink`, the `Task { @MainActor }` hops and the `AnyCancellable` storage are concurrency plumbing. Emissions are calls made one at a time, and the stored subscription is the `subscribed` flag.
- AppModel.AppViewModel.AutoLoginFinished: `$session` is a `@Published` publisher, so in Swift it delivers its current value as soon as the sink attaches. The model leaves that first `SessionEmitted` call to the caller, and does not force an emission to follow `AutoLoginFinished`.
- `autoLogin` and the internals of `AccountController` are not part of this model. The end of `autoLogin` is the call `AutoLoginFinished`.
- `Post.displayPost` and `Account.formattedUsernameComponents` are computed by Manfred. The first is a function parameter of `MakePostView`; the second is a field of `Account`.
- `PostView.swift:118` compares the card type with the string `"link"`. The model compares the `CardType` case `link`, whose raw value that is.
- `ImageGalleryView`'s grid layout is floating-point geometry, and its tap-gesture coordinate conversion belongs to AppKit windows.
- `ZoomingView`/`NSScrollView` magnification, the window frame animation in `showWindow`, and `_ImageNavigationButtonStyle` are rendering. The 1 to 10 magnification bounds belong to `NSScrollView`, not to `zoomScale`.
- `zoomScale` is a `CGFloat` in Swift. It only moves in steps of 1 from 1, so it is an integer here.
- The `placeholderImage` state and `imageItem` of `GalleryRoot` are image loading and rendering.
- `LinkPreview`/`LinkPreviewLoader` wrap LinkPresentation asynchronously, and their `NSCache` may evict at any time.
- `ContentView.swift`, `Sidebar.swift` and `MastodonTimelineView.swift` are rendering. `MastodonTimelineView.swift:33-39` calls `fetchNextPage` from the progress row only when there are posts.
- The `NSPasteboard` copy in the link preview's context menu and the `AttributedString` rendering of post content are UI.
- `GalleryWindowManager.shared` is a process-wide singleton in Swift. The model has a plain class, because a single instance changes nothing about `Show`.
- Gallery.GalleryRoot.Receive, Gallery.GalleryRoot.PreviousPressed, Gallery.GalleryRoot.NextPressed: do not model the trap Swift raises when `selectedIndex + 1` overflows at `Int.max` or `selectedIndex - 1` at `Int.min`. Dafny integers are unbounded, and the index comes from a media list.
- Gallery.DecodeCommand: `NSEvent.charactersIgnoringModifiers` is a string compared as a whole. No keyboard layout or dead-key behaviour is modelled.
- Trimming works on Unicode scalar values, which is what a Dafny `char` is. The whitespace set is written out from CoreFoundation's fixed definition of `whitespacesAndNewlines`. That definition includes U+2000 to U+200B, so ZERO WIDTH SPACE counts as whitespace. This model does not follow later Unicode revisions of that set.
