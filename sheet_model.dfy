/** The gesture-to-position state machine of the BottomSheet component,
    written as pure functions over a snapshot of its state.

    Offsets and heights are exact reals. Every `setTimeout` callback the
    component schedules becomes a `Commit` appended to a FIFO queue; since
    every timer of one sheet uses the same delay, they fire in the order
    they were scheduled. A commit records the target offset computed when
    it was scheduled, as the callback's closure does. */
module SheetModel {

  datatype Option<+T> = None | Some(value: T)

  /** Offset the sheet starts at before the mount effect runs, far below the viewport. */
  const InitialBottom: real := -9000.0

  /** Delay, in milliseconds, used when no (or a zero) animation delay is configured. */
  const DefaultAnimationDelay: real := 250.0

  /** The CSS animations the controller switches between. */
  datatype Animation = NoAnimation | OpenModal | Open | ResetModal | Reset | OpenFull | Close

  /** The class name each animation puts on the container. */
  function ClassName(a: Animation): (name: string)
    ensures name == "" <==> a == NoAnimation
  {
    match a
    case NoAnimation => ""
    case OpenModal => "bottom-sheet__animate-open-modal"
    case Open => "bottom-sheet__animate-open"
    case ResetModal => "bottom-sheet__animate-reset-modal"
    case Reset => "bottom-sheet__animate-reset"
    case OpenFull => "bottom-sheet__animate-open-full"
    case Close => "bottom-sheet__animate-close"
  }

  /** A deferred state update, one per scheduled timer callback. */
  datatype Commit =
    | ResetModalCommit             // fixed height: back to fully open
    | CloseFixedCommit(target: real) // fixed height: move to target, then dismiss
    | OpenFullCommit               // expandable: to fullscreen
    | ResetHalfCommit(target: real)  // expandable: back to half open
    | DismissCommit(target: real)    // explicit close: move to target, then onClose

  /** The component's props that the controller reads. */
  datatype Config = Config(isExpandable: bool, hasOnClose: bool, delay: real)

  /** A snapshot of the component's state cells, plus the timers still
      pending, the number of onClose calls made so far, and whether the
      run-once mount effect has already run. */
  datatype Sheet = Sheet(
    height: real,
    isScrolled: bool,
    isFullscreen: bool,
    initTouchY: real,
    bottom: real,
    bottomBase: real,
    animation: Animation,
    pending: seq<Commit>,
    closeCalls: nat,
    mounted: bool)

  /** The animation delay actually used: the supplied one when it is truthy
      (non-zero), the default otherwise. */
  function DelayValue(supplied: Option<real>): (d: real)
    ensures d != 0.0
    ensures supplied.Some? && supplied.value != 0.0 ==> d == supplied.value
    ensures supplied.None? || supplied.value == 0.0 ==> d == DefaultAnimationDelay
  {
    if supplied.Some? && supplied.value != 0.0 then supplied.value else DefaultAnimationDelay
  }

  /** The props as the controller reads them, with the delay default applied. */
  function ConfigOf(isExpandable: bool, hasOnClose: bool, animationDelay: Option<real>): (c: Config)
    ensures c.isExpandable == isExpandable && c.hasOnClose == hasOnClose
    ensures c.delay != 0.0
    ensures animationDelay.None? ==> c.delay == DefaultAnimationDelay
  {
    Config(isExpandable, hasOnClose, DelayValue(animationDelay))
  }

  /** The offsets a sheet of viewport height `h` can rest at: open (0) and
      closed (-h), and for an expandable sheet also half open. */
  predicate IsRest(c: Config, h: real, x: real) {
    x == 0.0 || x == -h || (c.isExpandable && x == (h / 2.0) * -1.0)
  }

  /** A pending commit fits the sheet's mode and targets a rest offset. */
  predicate CommitWellFormed(c: Config, h: real, cm: Commit) {
    match cm
    case ResetModalCommit => !c.isExpandable
    case CloseFixedCommit(t) => !c.isExpandable && IsRest(c, h, t)
    case OpenFullCommit => c.isExpandable
    case ResetHalfCommit(t) => c.isExpandable && IsRest(c, h, t)
    case DismissCommit(t) => IsRest(c, h, t)
  }

  /** What holds of every reachable state: the height is not negative and
      is still zero before mounting, the live offset never rises above 0,
      and the committed offset, like every offset a pending timer will
      commit, is a rest position of the sheet's mode. */
  predicate Inv(c: Config, s: Sheet) {
    && s.height >= 0.0
    && (!s.mounted ==> s.height == 0.0)
    && s.bottom <= 0.0
    && IsRest(c, s.height, s.bottomBase)
    && forall i :: 0 <= i < |s.pending| ==> CommitWellFormed(c, s.height, s.pending[i])
  }

  /** The state of a freshly rendered sheet, before the mount effect: it
      already satisfies the invariant, whatever the props. */
  function Initial(): (s: Sheet)
    ensures forall c: Config :: Inv(c, s)
    ensures s.bottom < s.bottomBase
  {
    Sheet(0.0, false, false, 0.0, InitialBottom, 0.0, NoAnimation, [], 0, false)
  }

  /** The mount effect: copy the viewport height and start the opening
      animation towards the first rest offset. */
  function Mount(c: Config, s: Sheet, viewportHeight: real): (r: Sheet)
    ensures r.height == viewportHeight && r.mounted
    ensures r.bottom == r.bottomBase
    ensures !c.isExpandable ==> r.bottomBase == 0.0 && r.animation == OpenModal
    ensures c.isExpandable ==> r.bottomBase == -viewportHeight / 2.0 && r.animation == Open
    ensures r.(height := s.height, bottom := s.bottom, bottomBase := s.bottomBase,
               animation := s.animation, mounted := s.mounted) == s
  {
    var bottomInitial := if !c.isExpandable then 0.0 else (viewportHeight / 2.0) * -1.0;
    var animation := if !c.isExpandable then OpenModal else Open;
    s.(height := viewportHeight, animation := animation,
       bottom := bottomInitial, bottomBase := bottomInitial, mounted := true)
  }

  /** Touch start records the finger's Y coordinate unless the content is scrolled. */
  function TouchStart(s: Sheet, touchY: real): (r: Sheet)
    ensures s.isScrolled ==> r == s
    ensures !s.isScrolled ==> r.initTouchY == touchY
    ensures r.(initTouchY := s.initTouchY) == s
  {
    if s.isScrolled then s else s.(initTouchY := touchY)
  }

  /** The offset a move to `touchY` asks for: the committed offset plus how
      far the finger went up since touch start. */
  function Candidate(s: Sheet, touchY: real): real {
    s.bottomBase + (s.initTouchY - touchY)
  }

  /** The move is dropped: while scrolled, above the top of travel, above
      the committed offset when fullscreen, or upwards on a fixed-height sheet. */
  predicate MoveRejected(c: Config, s: Sheet, touchY: real) {
    var nb := Candidate(s, touchY);
    s.isScrolled || nb > 0.0 || (s.isFullscreen && nb > s.bottomBase)
    || (nb > s.bottom && !c.isExpandable)
  }

  /** Touch move: take the candidate offset as the live offset, unless one
      of the clamp rules drops the move. */
  function Move(c: Config, s: Sheet, touchY: real): (r: Sheet)
    ensures MoveRejected(c, s, touchY) ==> r == s
    ensures !MoveRejected(c, s, touchY) ==> r == s.(bottom := Candidate(s, touchY))
    ensures r.bottom <= 0.0 || r == s
    ensures s.isFullscreen ==> r.bottom <= s.bottomBase || r == s
    ensures !c.isExpandable ==> r.bottom <= s.bottom
  {
    if s.isScrolled then s
    else
      var newBottomValue := s.bottomBase + (s.initTouchY - touchY);
      if newBottomValue > 0.0 then s
      else if s.isFullscreen && newBottomValue > s.bottomBase then s
      else if newBottomValue > s.bottom && !c.isExpandable then s
      else SetNewBottom(s, newBottomValue)
  }

  /** Setting the live offset, and nothing else. */
  function SetNewBottom(s: Sheet, value: real): (r: Sheet)
    ensures r.bottom == value && r.(bottom := s.bottom) == s
  {
    s.(bottom := value)
  }

  /** Fixed height: the live offset above which a release snaps back open,
      a tenth of the height below the top. */
  function FixedResetThreshold(h: real): (t: real)
    ensures t == -h / 10.0
  {
    (h / 3.0 / 10.0) * 3.0 * -1.0
  }

  /** Expandable: the release goes to fullscreen. Where it holds, the
      reset-to-middle trigger holds too, so only the order of the branches
      makes the release go fullscreen. */
  predicate ToFull(h: real, bottom: real, bottomBase: real): (b: bool)
    ensures b && h >= 0.0 ==> ToMiddle(h, bottom)
  {
    bottom > (h / 2.0) * -1.0 && bottomBase != 0.0
  }

  /** Expandable: the release goes back to half open. */
  predicate ToMiddle(h: real, bottom: real): (b: bool)
    ensures b <==> bottom > -h * 7.0 / 10.0
  {
    bottom > (h / 10.0) * 7.0 * -1.0
  }

  /** Expandable: the release from fullscreen stays near enough to go back to half open. */
  predicate ToFullFromHalf(h: real, bottom: real, bottomBase: real): (b: bool)
    ensures b && h >= 0.0 ==> ToMiddle(h, bottom)
  {
    bottom > (h / 3.0) * 2.0 * -1.0 && bottomBase != (h / 2.0) * -1.0
  }

  /** The outcome of releasing the finger. */
  datatype Snap = NoSnap | SnapResetModal | SnapCloseFixed | SnapOpenFull | SnapResetHalf | SnapCloseNow

  /** The snap decision of touch end, with the branches in the order the
      component tests them. */
  function SnapOf(c: Config, s: Sheet): (k: Snap)
    ensures k == NoSnap <==> s.isScrolled || s.bottom == s.bottomBase || (!c.isExpandable && s.bottom > 0.0)
    ensures k in {SnapResetModal, SnapCloseFixed} ==> !c.isExpandable
    ensures k in {SnapOpenFull, SnapResetHalf, SnapCloseNow} ==> c.isExpandable
  {
    if s.isScrolled || s.bottom == s.bottomBase then NoSnap
    else if !c.isExpandable then
      if s.bottom > 0.0 then NoSnap
      else if s.bottom > FixedResetThreshold(s.height) then SnapResetModal
      else SnapCloseFixed
    else if ToFull(s.height, s.bottom, s.bottomBase) then SnapOpenFull
    else if ToMiddle(s.height, s.bottom) || ToFullFromHalf(s.height, s.bottom, s.bottomBase) then SnapResetHalf
    else SnapCloseNow
  }

  /** Touch end: start the chosen animation and schedule its commit; on the
      expandable close path, leave fullscreen and dismiss at once. The live
      and committed offsets are left as they are until a commit fires. */
  function TouchEnd(c: Config, s: Sheet): (r: Sheet)
    ensures r.bottom == s.bottom && r.bottomBase == s.bottomBase
    ensures r.height == s.height && r.isScrolled == s.isScrolled && r.initTouchY == s.initTouchY
    ensures r.closeCalls == s.closeCalls && r.mounted == s.mounted
    ensures SnapOf(c, s) == NoSnap ==> r == s
    ensures SnapOf(c, s) != NoSnap ==> |r.pending| == |s.pending| + 1 && r.pending[..|s.pending|] == s.pending
    ensures SnapOf(c, s) == SnapResetModal ==> r.animation == ResetModal && r.pending[|s.pending|] == ResetModalCommit
    ensures SnapOf(c, s) == SnapCloseFixed ==> r.animation == Close && r.pending[|s.pending|] == CloseFixedCommit(-s.height)
    ensures SnapOf(c, s) == SnapOpenFull ==> r.animation == OpenFull && r.pending[|s.pending|] == OpenFullCommit
    ensures SnapOf(c, s) == SnapResetHalf ==> r.animation == Reset && r.pending[|s.pending|] == ResetHalfCommit(-s.height / 2.0)
    ensures SnapOf(c, s) == SnapCloseNow ==> r.animation == Close && !r.isFullscreen && r.pending[|s.pending|] == DismissCommit(-s.height)
    ensures SnapOf(c, s) != SnapCloseNow ==> r.isFullscreen == s.isFullscreen
  {
    match SnapOf(c, s)
    case NoSnap => s
    case SnapResetModal => s.(animation := ResetModal, pending := s.pending + [ResetModalCommit])
    case SnapCloseFixed => s.(animation := Close, pending := s.pending + [CloseFixedCommit(-s.height)])
    case SnapOpenFull => s.(animation := OpenFull, pending := s.pending + [OpenFullCommit])
    case SnapResetHalf => s.(animation := Reset, pending := s.pending + [ResetHalfCommit((s.height / 2.0) * -1.0)])
    case SnapCloseNow => CloseSheet(s.(isFullscreen := false))
  }

  /** Explicit dismiss: start the closing animation and schedule the commit
      that moves the sheet out of view and calls onClose. No guard: every
      call schedules one more commit. */
  function CloseSheet(s: Sheet): (r: Sheet)
    ensures r.animation == Close && r.pending == s.pending + [DismissCommit(-s.height)]
    ensures r.(animation := s.animation, pending := s.pending) == s
  {
    s.(animation := Close, pending := s.pending + [DismissCommit(-s.height)])
  }

  /** Content scroll: a positive scroll top locks dragging and forces
      fullscreen; scrolling back to the top only lifts the lock. */
  function Scroll(s: Sheet, scrollTop: real): (r: Sheet)
    ensures r.isScrolled <==> scrollTop > 0.0
    ensures scrollTop > 0.0 ==> r.isFullscreen
    ensures scrollTop <= 0.0 ==> r.isFullscreen == s.isFullscreen
    ensures r.(isScrolled := s.isScrolled, isFullscreen := s.isFullscreen) == s
  {
    if scrollTop > 0.0 then s.(isScrolled := true, isFullscreen := true)
    else s.(isScrolled := false)
  }

  /** What a timer callback does when it fires. */
  function Apply(c: Config, s: Sheet, cm: Commit): (r: Sheet)
    ensures r.bottom == r.bottomBase
    ensures r.bottomBase == (if cm.ResetModalCommit? || cm.OpenFullCommit? then 0.0 else cm.target)
    ensures r.animation == (if cm.CloseFixedCommit? then Close
                            else if cm.DismissCommit? then s.animation else NoAnimation)
    ensures r.isFullscreen == (if cm.OpenFullCommit? then true
                               else if cm.ResetHalfCommit? then false else s.isFullscreen)
    ensures r.closeCalls == s.closeCalls + (if cm.DismissCommit? && c.hasOnClose then 1 else 0)
    ensures r.height == s.height && r.isScrolled == s.isScrolled && r.initTouchY == s.initTouchY
    ensures r.mounted == s.mounted
    ensures r.pending == s.pending + (if cm.CloseFixedCommit? then [DismissCommit(-s.height)] else [])
  {
    match cm
    case ResetModalCommit =>
      s.(bottom := 0.0, bottomBase := 0.0, animation := NoAnimation)
    case CloseFixedCommit(t) =>
      CloseSheet(s.(bottom := t, bottomBase := t))
    case OpenFullCommit =>
      s.(bottom := 0.0, animation := NoAnimation, isFullscreen := true, bottomBase := 0.0)
    case ResetHalfCommit(t) =>
      s.(bottom := t, bottomBase := t, animation := NoAnimation, isFullscreen := false)
    case DismissCommit(t) =>
      s.(bottom := t, bottomBase := t, closeCalls := if c.hasOnClose then s.closeCalls + 1 else s.closeCalls)
  }

  /** The oldest pending timer fires. */
  function FireNext(c: Config, s: Sheet): (r: Sheet)
    requires s.pending != []
    ensures r.bottom == r.bottomBase
    ensures r.closeCalls == s.closeCalls + (if s.pending[0].DismissCommit? && c.hasOnClose then 1 else 0)
    ensures r.pending == s.pending[1..] + (if s.pending[0].CloseFixedCommit? then [DismissCommit(-s.height)] else [])
  {
    Apply(c, s.(pending := s.pending[1..]), s.pending[0])
  }

  /** Everything that can happen to a mounted sheet. */
  datatype Event =
    | TouchStartEvent(touchY: real)
    | TouchMoveEvent(touchY: real)
    | TouchEndEvent
    | ScrollEvent(scrollTop: real)
    | DismissEvent
    | TimerEvent

  predicate IsGesture(e: Event) {
    e.TouchStartEvent? || e.TouchMoveEvent? || e.TouchEndEvent?
  }

  function Step(c: Config, s: Sheet, e: Event): (r: Sheet)
    ensures !e.TimerEvent? ==> r.bottomBase == s.bottomBase
    ensures e.TimerEvent? && s.pending == [] ==> r == s
  {
    match e
    case TouchStartEvent(y) => TouchStart(s, y)
    case TouchMoveEvent(y) => Move(c, s, y)
    case TouchEndEvent => TouchEnd(c, s)
    case ScrollEvent(top) => Scroll(s, top)
    case DismissEvent => CloseSheet(s)
    case TimerEvent => if s.pending == [] then s else FireNext(c, s)
  }

  function Run(c: Config, s: Sheet, events: seq<Event>): Sheet
    decreases |events|
  {
    if events == [] then s else Run(c, Step(c, s, events[0]), events[1..])
  }
}
