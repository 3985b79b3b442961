/** Properties of the bottom sheet's state machine: the invariant every
    event keeps, the snap decision's thresholds and precedence, the scroll
    lock, the timing of onClose, and worked scenarios. */
module SheetProperties {
  import opened SheetModel

  /** A commit that fits the sheet keeps the invariant when it fires. */
  lemma ApplyPreservesInv(c: Config, s: Sheet, cm: Commit)
    requires Inv(c, s) && CommitWellFormed(c, s.height, cm)
    ensures Inv(c, Apply(c, s, cm))
  {
  }

  /** The mount effect runs once, on a sheet whose height is still 0, so every
      commit scheduled before it targeted 0, a rest offset at any height. */
  lemma MountPreservesInv(c: Config, s: Sheet, viewportHeight: real)
    requires Inv(c, s) && !s.mounted && viewportHeight >= 0.0
    ensures Inv(c, Mount(c, s, viewportHeight))
  {
  }

  /** Firing the oldest pending commit keeps the invariant. */
  lemma FireNextPreservesInv(c: Config, s: Sheet)
    requires Inv(c, s) && s.pending != []
    ensures Inv(c, FireNext(c, s))
  {
  }

  /** Every event keeps the invariant. */
  lemma StepPreservesInv(c: Config, s: Sheet, e: Event)
    requires Inv(c, s)
    ensures Inv(c, Step(c, s, e))
  {
  }

  /** Any sequence of events keeps the invariant; in particular the live
      offset never rises above 0 and the committed offset is always a rest
      offset of the sheet's mode. */
  lemma {:induction false} RunPreservesInv(c: Config, s: Sheet, events: seq<Event>)
    requires Inv(c, s)
    ensures Inv(c, Run(c, s, events))
    decreases |events|
  {
    if events != [] {
      StepPreservesInv(c, s, events[0]);
      RunPreservesInv(c, Step(c, s, events[0]), events[1..]);
    }
  }

  /** Without a timer firing, no run of events changes the committed
      offset or calls onClose, and none drops a scheduled commit. */
  lemma {:induction false} RunWithoutTimers(c: Config, s: Sheet, events: seq<Event>)
    requires forall i :: 0 <= i < |events| ==> !events[i].TimerEvent?
    ensures var r := Run(c, s, events);
      r.bottomBase == s.bottomBase && r.closeCalls == s.closeCalls
      && |s.pending| <= |r.pending| && r.pending[..|s.pending|] == s.pending
    decreases |events|
  {
    if events != [] {
      var t := Step(c, s, events[0]);
      assert !events[0].TimerEvent?;
      assert t.bottomBase == s.bottomBase && t.closeCalls == s.closeCalls;
      assert |s.pending| <= |t.pending| && t.pending[..|s.pending|] == s.pending;
      RunWithoutTimers(c, t, events[1..]);
      var r := Run(c, t, events[1..]);
      assert r.pending[..|s.pending|] == r.pending[..|t.pending|][..|s.pending|];
    }
  }

  /** From the first render on, through the mount effect and any events,
      the invariant holds. */
  lemma ReachableInv(c: Config, viewportHeight: real, events: seq<Event>)
    requires viewportHeight >= 0.0
    ensures Inv(c, Run(c, Mount(c, Initial(), viewportHeight), events))
  {
    MountPreservesInv(c, Initial(), viewportHeight);
    RunPreservesInv(c, Mount(c, Initial(), viewportHeight), events);
  }

  /** A run of touch moves changes only the live offset, and keeps it at
      or below 0 when it starts there. */
  lemma {:induction false} MovesOnlyMoveBottom(c: Config, s: Sheet, ys: seq<real>)
    ensures Moves(c, s, ys).(bottom := s.bottom) == s
    ensures s.bottom <= 0.0 ==> Moves(c, s, ys).bottom <= 0.0
    ensures !c.isExpandable ==> Moves(c, s, ys).bottom <= s.bottom
    decreases |ys|
  {
    if ys != [] {
      MovesOnlyMoveBottom(c, Move(c, s, ys[0]), ys[1..]);
    }
  }

  /** The state after the finger passes through `ys`, in order. */
  function Moves(c: Config, s: Sheet, ys: seq<real>): Sheet
    decreases |ys|
  {
    if ys == [] then s else Moves(c, Move(c, s, ys[0]), ys[1..])
  }

  /** While the content is scrolled, no touch gesture changes anything. */
  lemma {:induction false} ScrollLock(c: Config, s: Sheet, events: seq<Event>)
    requires s.isScrolled
    requires forall i :: 0 <= i < |events| ==> IsGesture(events[i])
    ensures Run(c, s, events) == s
    decreases |events|
  {
    if events != [] {
      assert IsGesture(events[0]);
      ScrollLock(c, Step(c, s, events[0]), events[1..]);
    }
  }

  /** For a sheet with some height, the fixed-height threshold lies strictly
      between the closed and the open offset. */
  lemma FixedThresholdBetweenOffsets(h: real)
    ensures h > 0.0 ==> -h < FixedResetThreshold(h) < 0.0
  {
  }

  /** Fixed height, after a real drag: a release within a tenth of the
      height snaps back open, a release further down closes. */
  lemma FixedSnap(c: Config, s: Sheet)
    requires !c.isExpandable && !s.isScrolled && s.bottom != s.bottomBase && s.bottom <= 0.0
    ensures SnapOf(c, s) == SnapResetModal <==> s.bottom > -s.height / 10.0
    ensures SnapOf(c, s) == SnapCloseFixed <==> s.bottom <= -s.height / 10.0
  {
  }

  /** Expandable, after a real drag: above the half-open line and not
      already at the top, the sheet goes fullscreen; otherwise it returns
      to half open down to seven tenths of the height, and closes below.
      The order of the branches matters: where the fullscreen trigger holds,
      the reset-to-middle trigger holds too (see `ToFull`), and fullscreen wins. */
  lemma ExpandableSnap(c: Config, s: Sheet)
    requires c.isExpandable && !s.isScrolled && s.bottom != s.bottomBase && s.height >= 0.0
    ensures SnapOf(c, s) == SnapOpenFull <==> s.bottom > -s.height / 2.0 && s.bottomBase != 0.0
    ensures SnapOf(c, s) == SnapResetHalf <==>
      !(s.bottom > -s.height / 2.0 && s.bottomBase != 0.0) && s.bottom > -s.height * 7.0 / 10.0
    ensures SnapOf(c, s) == SnapCloseNow <==>
      !(s.bottom > -s.height / 2.0 && s.bottomBase != 0.0) && s.bottom <= -s.height * 7.0 / 10.0
  {
  }

  /** Fixed-height close: the first commit moves the sheet out of view and
      calls the dismiss handler, which schedules a second commit; onClose
      runs only when that second commit fires. */
  lemma FixedCloseCallsOnCloseOnce(c: Config, s: Sheet)
    requires !c.isExpandable && !s.isScrolled && s.pending == [] && s.height >= 0.0
    requires s.bottom != s.bottomBase && s.bottom <= FixedResetThreshold(s.height)
    ensures var once := Run(c, s, [TouchEndEvent, TimerEvent]);
      once.closeCalls == s.closeCalls && once.bottom == once.bottomBase == -s.height
      && once.animation == Close && once.pending == [DismissCommit(-s.height)]
    ensures var twice := Run(c, s, [TouchEndEvent, TimerEvent, TimerEvent]);
      twice.closeCalls == s.closeCalls + (if c.hasOnClose then 1 else 0)
      && twice.bottom == twice.bottomBase == -s.height && twice.pending == []
  {
  }

  /** Dismissing twice is not idempotent: it schedules two commits, and
      onClose, when given, runs twice. */
  lemma DismissTwiceClosesTwice(c: Config, s: Sheet)
    requires s.pending == []
    ensures var r := Run(c, s, [DismissEvent, DismissEvent, TimerEvent, TimerEvent]);
      r.closeCalls == s.closeCalls + (if c.hasOnClose then 2 else 0)
      && r.bottom == r.bottomBase == -s.height && r.animation == Close && r.pending == []
  {
  }

  /** No commit is ever cancelled: a reset scheduled after a dismiss fires
      after it and brings the sheet back to half open, although onClose has
      already run. */
  lemma StaleCommitReopens(c: Config)
    requires c.isExpandable && c.hasOnClose
    ensures var s := Mount(c, Initial(), 800.0);
      var r := Run(c, s, [DismissEvent, TouchStartEvent(500.0), TouchMoveEvent(600.0),
                          TouchEndEvent, TimerEvent, TimerEvent]);
      r.closeCalls == 1 && r.bottom == r.bottomBase == -400.0 && r.pending == []
  {
  }

  /** Scrolling the content marks the sheet fullscreen even where it rests
      half open, so "fullscreen" does not imply a committed offset of 0. */
  lemma ScrollFullscreenAtHalf(c: Config, h: real, scrollTop: real)
    requires c.isExpandable && h > 0.0 && scrollTop > 0.0
    ensures var r := Scroll(Mount(c, Initial(), h), scrollTop);
      r.isFullscreen && r.bottomBase == -h / 2.0 && r.bottomBase != 0.0
  {
  }

  /** Expandable, height 800: a drag from the half-open rest up to 50
      below the top goes fullscreen once the commit fires. */
  lemma ExpandableScenario(c: Config)
    requires c.isExpandable
    ensures var s := Mount(c, Initial(), 800.0);
      s.bottomBase == -400.0
      && var r := Run(c, s, [TouchStartEvent(500.0), TouchMoveEvent(850.0), TouchMoveEvent(150.0),
                             TouchEndEvent]);
         r.bottom == -50.0 && r.animation == OpenFull
         && var f := Run(c, r, [TimerEvent]);
            f.bottom == f.bottomBase == 0.0 && f.isFullscreen && f.animation == NoAnimation
  {
  }

  /** Fixed height 800: a drag 400 down passes the threshold of 80 and the
      release closes the sheet to -800, calling onClose. */
  lemma FixedScenario(c: Config)
    requires !c.isExpandable && c.hasOnClose
    ensures var s := Mount(c, Initial(), 800.0);
      var r := Run(c, s, [TouchStartEvent(100.0), TouchMoveEvent(500.0), TouchEndEvent,
                          TimerEvent, TimerEvent]);
      r.bottom == r.bottomBase == -800.0 && r.closeCalls == 1
  {
  }
}
