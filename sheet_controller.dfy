/** The BottomSheet component as a stateful controller: its state cells are
    fields, its event handlers are methods that update them in place, and
    each method is proved to do what the matching function of SheetModel
    says, so the invariant proved there holds of every reachable object. */
module SheetController {
  import opened SheetModel
  import SheetProperties

  class BottomSheet {
    // props, fixed for the life of the component
    const isExpandable: bool
    const hasOnClose: bool
    const animationDelayValue: real

    // state cells
    var height: real
    var isScrolled: bool
    var isFullscreen: bool
    var initTouchY: real
    var bottom: real
    var bottomBase: real
    var animationName: Animation

    // timer callbacks scheduled and not yet fired, oldest first
    var pending: seq<Commit>
    // how many times onClose has been called
    var closeCalls: nat
    // whether the run-once mount effect has run
    var mounted: bool

    function Props(): Config {
      Config(isExpandable, hasOnClose, animationDelayValue)
    }

    ghost function State(): Sheet
      reads this
    {
      Sheet(height, isScrolled, isFullscreen, initTouchY, bottom, bottomBase,
            animationName, pending, closeCalls, mounted)
    }

    ghost predicate Valid()
      reads this
    {
      Inv(Props(), State())
    }

    /** First render: props are read, the delay default is applied, and
        every state cell holds its initial value. */
    constructor (isExpandable: bool, hasOnClose: bool, animationDelay: Option<real>)
      ensures Props() == ConfigOf(isExpandable, hasOnClose, animationDelay)
      ensures State() == Initial() && Valid()
    {
      this.isExpandable := isExpandable;
      this.hasOnClose := hasOnClose;
      this.animationDelayValue := if animationDelay.Some? && animationDelay.value != 0.0
        then animationDelay.value else DefaultAnimationDelay;
      height := 0.0;
      isScrolled := false;
      isFullscreen := false;
      initTouchY := 0.0;
      bottom := InitialBottom;
      bottomBase := 0.0;
      animationName := NoAnimation;
      pending := [];
      closeCalls := 0;
      mounted := false;
    }

    /** The mount effect: copy the viewport height and open the sheet. */
    method Mount(viewportHeight: real)
      requires Valid() && !mounted && viewportHeight >= 0.0
      modifies this
      ensures State() == SheetModel.Mount(Props(), old(State()), viewportHeight) && Valid()
    {
      SheetProperties.MountPreservesInv(Props(), State(), viewportHeight);
      height := viewportHeight;
      var bottomInitial: real;
      if !isExpandable {
        bottomInitial := 0.0;
        animationName := OpenModal;
      } else {
        bottomInitial := (viewportHeight / 2.0) * -1.0;
        animationName := Open;
      }
      bottom := bottomInitial;
      bottomBase := bottomInitial;
      mounted := true;
    }

    method OnTouchStart(touchY: real)
      requires Valid()
      modifies this
      ensures State() == TouchStart(old(State()), touchY) && Valid()
    {
      if isScrolled {
        return;
      }
      initTouchY := touchY;
    }

    method OnTouchEnd()
      requires Valid()
      modifies this
      ensures State() == TouchEnd(Props(), old(State())) && Valid()
    {
      SheetProperties.StepPreservesInv(Props(), State(), TouchEndEvent);
      if isScrolled || bottom == bottomBase {
        return;
      }

      if !isExpandable {
        var triggerNonExpandableReset := (height / 3.0 / 10.0) * 3.0 * -1.0;
        if bottom > 0.0 {
          return;
        } else if bottom > triggerNonExpandableReset {
          animationName := ResetModal;
          pending := pending + [ResetModalCommit];
        } else {
          animationName := Close;
          pending := pending + [CloseFixedCommit(-height)];
        }
      }

      if isExpandable {
        var triggerFullHeight := bottom > (height / 2.0) * -1.0 && bottomBase != 0.0;
        var triggerResetToMiddle := bottom > (height / 10.0) * 7.0 * -1.0;
        var triggerResetToFull := bottom > (height / 3.0) * 2.0 * -1.0 && bottomBase != (height / 2.0) * -1.0;

        if triggerFullHeight {
          animationName := OpenFull;
          pending := pending + [OpenFullCommit];
        } else if triggerResetToMiddle || triggerResetToFull {
          animationName := Reset;
          pending := pending + [ResetHalfCommit((height / 2.0) * -1.0)];
        } else {
          isFullscreen := false;
          CloseBottomSheet();
        }
      }
    }

    /** Explicit dismiss: start the closing animation and schedule its commit. */
    method CloseBottomSheet()
      modifies this
      ensures State() == CloseSheet(old(State()))
      ensures old(Valid()) ==> Valid()
    {
      if Valid() {
        SheetProperties.StepPreservesInv(Props(), State(), DismissEvent);
      }
      animationName := Close;
      pending := pending + [DismissCommit(-height)];
    }

    method SetNewBottom(value: real)
      modifies this`bottom
      ensures bottom == value
    {
      bottom := value;
    }

    method OnMove(touchY: real)
      requires Valid()
      modifies this
      ensures State() == Move(Props(), old(State()), touchY) && Valid()
    {
      if isScrolled {
        return;
      }
      var differenceInTouch := initTouchY - touchY;
      var newBottomValue := bottomBase + differenceInTouch;

      if newBottomValue > 0.0 {
        return;
      }
      if isFullscreen {
        if newBottomValue > bottomBase {
          return;
        }
      }
      if newBottomValue > bottom {
        if !isExpandable {
          return;
        }
      }
      SetNewBottom(newBottomValue);
    }

    method OnScroll(scrollTop: real)
      requires Valid()
      modifies this
      ensures State() == Scroll(old(State()), scrollTop) && Valid()
    {
      if scrollTop > 0.0 {
        isScrolled := true;
        isFullscreen := true;
      } else {
        isScrolled := false;
      }
    }

    /** The oldest pending timer callback runs. */
    method FireNext()
      requires Valid() && pending != []
      modifies this
      ensures State() == SheetModel.FireNext(Props(), old(State())) && Valid()
    {
      ghost var s0 := State();
      SheetProperties.FireNextPreservesInv(Props(), s0);
      var cm := pending[0];
      pending := pending[1..];
      match cm
      case ResetModalCommit =>
        bottom := 0.0;
        bottomBase := 0.0;
        animationName := NoAnimation;
      case CloseFixedCommit(t) =>
        bottom := t;
        bottomBase := t;
        CloseBottomSheet();
      case OpenFullCommit =>
        bottom := 0.0;
        animationName := NoAnimation;
        isFullscreen := true;
        bottomBase := 0.0;
      case ResetHalfCommit(t) =>
        bottom := t;
        bottomBase := t;
        animationName := NoAnimation;
        isFullscreen := false;
      case DismissCommit(t) =>
        bottom := t;
        bottomBase := t;
        if hasOnClose {
          closeCalls := closeCalls + 1;
        }
    }
  }
}
