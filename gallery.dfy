/** The image gallery window: key commands, index clamping, the command
    handler over (selected index, zoom scale), the navigation buttons and the
    window manager that keeps one gallery window. */
module Gallery {
  import opened Manfred

  newtype UInt16 = x: int | 0 <= x < 0x1_0000

  /** `NSEvent.ModifierFlags` members. */
  datatype ModifierFlag = CapsLock | Shift | Control | Option | Command | NumericPad | Help | Function

  /** The parts of a key-down `NSEvent` the gallery looks at. */
  datatype KeyEvent = KeyEvent(
    modifierFlags: set<ModifierFlag>,
    charactersIgnoringModifiers: Option<string>,
    keyCode: UInt16)

  datatype GalleryCommand = IncreaseZoom | DecreaseZoom | NavigateNext | NavigatePrevious {
    predicate IsZoom() { this == IncreaseZoom || this == DecreaseZoom }

    /** How far the command moves the zoom scale. */
    function ZoomDelta(): int {
      match this
      case IncreaseZoom => 1
      case DecreaseZoom => -1
      case _ => 0
    }
  }

  const LeftArrow: UInt16 := 0x7B
  const RightArrow: UInt16 := 0x7C

  /** Command-= or command-minus. */
  predicate IsZoomShortcut(event: KeyEvent) {
    Command in event.modifierFlags
    && (event.charactersIgnoringModifiers == Some("=") || event.charactersIgnoringModifiers == Some("-"))
  }

  /** `GalleryCommand.init?(event:)`: the zoom shortcuts are tested before the arrow keys. */
  function DecodeCommand(event: KeyEvent): (c: Option<GalleryCommand>)
    ensures c == Some(IncreaseZoom) <==>
      Command in event.modifierFlags && event.charactersIgnoringModifiers == Some("=")
    ensures c == Some(DecreaseZoom) <==>
      Command in event.modifierFlags && event.charactersIgnoringModifiers == Some("-")
    ensures c == Some(NavigatePrevious) <==> !IsZoomShortcut(event) && event.keyCode == LeftArrow
    ensures c == Some(NavigateNext) <==> !IsZoomShortcut(event) && event.keyCode == RightArrow
    ensures c == None <==> !IsZoomShortcut(event) && event.keyCode != LeftArrow && event.keyCode != RightArrow
  {
    if Command in event.modifierFlags && event.charactersIgnoringModifiers == Some("=") then
      Some(IncreaseZoom)
    else if Command in event.modifierFlags && event.charactersIgnoringModifiers == Some("-") then
      Some(DecreaseZoom)
    else if event.keyCode == LeftArrow then
      Some(NavigatePrevious)
    else if event.keyCode == RightArrow then
      Some(NavigateNext)
    else
      None
  }

  /** The key press that triggers each command (keyCodes 0x18 and 0x1B are
      the = and - keys). */
  function Shortcut(c: GalleryCommand): KeyEvent {
    match c
    case IncreaseZoom => KeyEvent({Command}, Some("="), 0x18)
    case DecreaseZoom => KeyEvent({Command}, Some("-"), 0x1B)
    case NavigatePrevious => KeyEvent({}, Some("\U{F702}"), LeftArrow)
    case NavigateNext => KeyEvent({}, Some("\U{F703}"), RightArrow)
  }

  /** Every command has a key press that decodes to it. */
  lemma ShortcutDecodes(c: GalleryCommand)
    ensures DecodeCommand(Shortcut(c)) == Some(c)
  {
  }

  /** An arrow key navigates whatever modifiers are held, unless command and
      the characters make it a zoom shortcut. */
  lemma CommandArrowNavigates(flags: set<ModifierFlag>, chars: Option<string>)
    requires Command !in flags || (chars != Some("=") && chars != Some("-"))
    ensures DecodeCommand(KeyEvent(flags, chars, LeftArrow)) == Some(NavigatePrevious)
    ensures DecodeCommand(KeyEvent(flags, chars, RightArrow)) == Some(NavigateNext)
  {
  }

  function Min(a: int, b: int): int { if a <= b then a else b }
  function Max(a: int, b: int): int { if a >= b then a else b }

  /** `min(max(0, index), count - 1)`. With no media the expression gives -1. */
  function Clamp(index: int, count: int): (r: int)
    ensures count >= 1 ==> 0 <= r < count
    ensures count >= 1 && 0 <= index < count ==> r == index
    ensures count >= 1 && index < 0 ==> r == 0
    ensures count >= 1 && index >= count ==> r == count - 1
    ensures count < 1 ==> r == count - 1
  {
    Min(Max(0, index), count - 1)
  }

  /** Clamping twice is clamping once. */
  lemma ClampIdempotent(index: int, count: int)
    ensures Clamp(Clamp(index, count), count) == Clamp(index, count)
  {
  }

  /** Clamping keeps the order of indices. */
  lemma ClampMonotone(i: int, j: int, count: int)
    requires i <= j
    ensures Clamp(i, count) <= Clamp(j, count)
  {
  }

  /** `@State selectedIndex` and `@State zoomScale`. */
  datatype GalleryState = GalleryState(selectedIndex: int, zoomScale: int)

  /** The `onReceive` handler for one command, with `count` media items. */
  function Apply(s: GalleryState, command: GalleryCommand, count: int): (t: GalleryState)
    ensures command.IsZoom() ==> t.selectedIndex == s.selectedIndex
    ensures command == IncreaseZoom ==> t.zoomScale == s.zoomScale + 1
    ensures command == DecreaseZoom ==> t.zoomScale == s.zoomScale - 1
    ensures !command.IsZoom() ==> t.zoomScale == s.zoomScale
    ensures !command.IsZoom() && count >= 1 ==> 0 <= t.selectedIndex < count
  {
    match command
    case IncreaseZoom => s.(zoomScale := s.zoomScale + 1)
    case DecreaseZoom => s.(zoomScale := s.zoomScale - 1)
    case NavigatePrevious => s.(selectedIndex := Clamp(s.selectedIndex - 1, count))
    case NavigateNext => s.(selectedIndex := Clamp(s.selectedIndex + 1, count))
  }

  /** At the ends of the gallery navigation stays put; inside it moves by one. */
  lemma NavigationSteps(s: GalleryState, count: int)
    requires count >= 1 && 0 <= s.selectedIndex < count
    ensures Apply(s, NavigatePrevious, count).selectedIndex ==
      if s.selectedIndex == 0 then 0 else s.selectedIndex - 1
    ensures Apply(s, NavigateNext, count).selectedIndex ==
      if s.selectedIndex == count - 1 then count - 1 else s.selectedIndex + 1
  {
  }

  /** The handler applied to a run of commands, first to last. */
  function ApplyAll(s: GalleryState, commands: seq<GalleryCommand>, count: int): GalleryState
    decreases |commands|
  {
    if commands == [] then s else ApplyAll(Apply(s, commands[0], count), commands[1..], count)
  }

  /** `IncreaseZoom` minus `DecreaseZoom` commands among `commands`. */
  function NetZoom(commands: seq<GalleryCommand>): int
    decreases |commands|
  {
    if commands == [] then 0
    else commands[0].ZoomDelta() + NetZoom(commands[1..])
  }

  /** After any run of commands the zoom scale has moved by exactly the net
      number of zoom steps: navigation never touches it. */
  lemma {:induction false} ZoomIsNetSteps(s: GalleryState, commands: seq<GalleryCommand>, count: int)
    ensures ApplyAll(s, commands, count).zoomScale == s.zoomScale + NetZoom(commands)
    decreases |commands|
  {
    if commands != [] {
      ZoomIsNetSteps(Apply(s, commands[0], count), commands[1..], count);
    }
  }

  /** An index inside the gallery stays inside it, whatever the commands. */
  lemma {:induction false} IndexStaysInRange(s: GalleryState, commands: seq<GalleryCommand>, count: int)
    requires 0 <= s.selectedIndex < count
    ensures 0 <= ApplyAll(s, commands, count).selectedIndex < count
    decreases |commands|
  {
    if commands != [] {
      IndexStaysInRange(Apply(s, commands[0], count), commands[1..], count);
    }
  }

  /** `.disabled(selectedIndex <= 0)` on the previous button: for an index
      inside a gallery of any size, it is disabled exactly when pressing it
      would leave the index where it is. */
  function PreviousDisabled(selectedIndex: int): (disabled: bool)
    ensures forall count {:trigger Clamp(selectedIndex - 1, count)} :: 0 <= selectedIndex < count ==>
      (disabled <==> Clamp(selectedIndex - 1, count) == selectedIndex)
  {
    selectedIndex <= 0
  }

  /** `.disabled(selectedIndex >= media.count - 1)` on the next button: for an
      index inside the gallery, it is disabled exactly when pressing it would
      leave the index where it is. */
  function NextDisabled(selectedIndex: int, count: int): (disabled: bool)
    ensures 0 <= selectedIndex < count ==> (disabled <==> Clamp(selectedIndex + 1, count) == selectedIndex)
  {
    selectedIndex >= count - 1
  }

  /** `if media.count > 1`: the buttons are overlaid exactly when some index
      of the gallery has an enabled button, so they are never shown with both
      disabled everywhere. */
  function ShowsNavigationButtons(count: int): (shown: bool)
    ensures shown <==> exists i :: 0 <= i < count && (!PreviousDisabled(i) || !NextDisabled(i, count))
  {
    var shown := count > 1;
    assert shown ==> !NextDisabled(0, count);
    shown
  }

  /** `GalleryRoot`: the gallery view's state. */
  class GalleryRoot {
    const media: seq<MediaAttachment>
    var selectedIndex: int
    var zoomScale: int

    function State(): GalleryState
      reads this
    {
      GalleryState(selectedIndex, zoomScale)
    }

    /** The memberwise initializer; `zoomScale` starts at 1. The body reads
        `media[selectedIndex]`, so the index must be one of the media's. */
    constructor (media: seq<MediaAttachment>, selectedIndex: int)
      requires 0 <= selectedIndex < |media|
      ensures this.media == media
      ensures this.selectedIndex == selectedIndex && zoomScale == 1
    {
      this.media := media;
      this.selectedIndex := selectedIndex;
      zoomScale := 1;
    }

    /** `setSelectedIndex(_:)`. */
    method SetSelectedIndex(index: int)
      modifies this
      ensures selectedIndex == Clamp(index, |media|)
      ensures zoomScale == old(zoomScale)
    {
      selectedIndex := Min(Max(0, index), |media| - 1);
    }

    /** The `onReceive(commandPublisher)` handler. */
    method Receive(command: GalleryCommand)
      modifies this
      ensures State() == Apply(old(State()), command, |media|)
    {
      match command
      case IncreaseZoom => zoomScale := zoomScale + 1;
      case DecreaseZoom => zoomScale := zoomScale - 1;
      case NavigatePrevious => SetSelectedIndex(selectedIndex - 1);
      case NavigateNext => SetSelectedIndex(selectedIndex + 1);
    }

    /** The previous (chevron.left) button's action. */
    method PreviousPressed()
      modifies this
      ensures State() == Apply(old(State()), NavigatePrevious, |media|)
    {
      SetSelectedIndex(selectedIndex - 1);
    }

    /** The next (chevron.right) button's action. */
    method NextPressed()
      modifies this
      ensures State() == Apply(old(State()), NavigateNext, |media|)
    {
      SetSelectedIndex(selectedIndex + 1);
    }

  }

  /** `GalleryWindowController`: one gallery panel. */
  class GalleryWindowController {
    const root: GalleryRoot
    var shown: bool
    var closed: bool

    constructor (media: seq<MediaAttachment>, selectedIndex: int)
      requires 0 <= selectedIndex < |media|
      ensures fresh(root) && root.media == media
      ensures root.selectedIndex == selectedIndex && root.zoomScale == 1
      ensures !shown && !closed
    {
      root := new GalleryRoot(media, selectedIndex);
      shown := false;
      closed := false;
    }

    /** `showWindow(_:)`: the panel is brought to the front (its frame animation is not modelled). */
    method ShowWindow()
      modifies this
      ensures shown && closed == old(closed)
    {
      shown := true;
    }

    /** `close()`. */
    method Close()
      modifies this
      ensures closed && shown == old(shown)
    {
      closed := true;
    }

    /** `keyDown(with:)`: a decoded command is sent to the gallery, whose
        handler applies it; any other key is passed on (`handled` false) and
        the gallery is unchanged. */
    method KeyDown(event: KeyEvent) returns (handled: bool)
      modifies root
      ensures handled <==> DecodeCommand(event).Some?
      ensures root.State() == if handled then Apply(old(root.State()), DecodeCommand(event).value, |root.media|) else old(root.State())
    {
      var command := DecodeCommand(event);
      match command
      case Some(c) =>
        root.Receive(c);
        handled := true;
      case None =>
        handled := false;
    }
  }

  /** `GalleryWindowManager`: holds the current gallery window, if any. */
  class GalleryWindowManager {
    var windowController: GalleryWindowController?
    /** Every window controller `show` has created, oldest first. */
    ghost var created: seq<GalleryWindowController>

    /** Only the last window created may still be open. */
    ghost predicate Valid()
      reads this, created
    {
      && (windowController == null <==> created == [])
      && (created != [] ==> windowController == created[|created| - 1])
      && (forall i :: 0 <= i < |created| - 1 ==> created[i].closed)
    }

    constructor ()
      ensures Valid() && windowController == null
    {
      windowController := null;
      created := [];
    }

    /** `show(media:selectedIndex:sourceRect:placeholderImage:)`: close the held
        window, then create, hold and show a new one. */
    method Show(media: seq<MediaAttachment>, selectedIndex: int)
      requires Valid()
      requires 0 <= selectedIndex < |media|
      modifies this, windowController
      ensures Valid()
      ensures old(windowController) != null ==> old(windowController).closed
      ensures windowController != null && fresh(windowController)
      ensures windowController.root.media == media && windowController.root.selectedIndex == selectedIndex
      ensures windowController.shown && !windowController.closed
      ensures created == old(created) + [windowController]
    {
      if windowController != null {
        windowController.Close();
      }
      var controller := new GalleryWindowController(media, selectedIndex);
      windowController := controller;
      created := created + [controller];
      controller.ShowWindow();
    }
  }
}
