/**
 * The custom cursor of src/components/CustomCursor.tsx: a ring that trails the mouse
 * and a dot that tracks it. Two flags, `visible` and `pointer`, are updated by the
 * document's mouse listeners, and `applyState` projects them onto the two elements'
 * inline styles. Mouse moves skip `applyState` when the projection would not change.
 */
module CustomCursor {

  /** The two flags of `stateRef`. */
  datatype Flags = Flags(pointer: bool, visible: bool)

  /** The inline style values `applyState` writes: ring opacity, ring scale, dot opacity. */
  datatype Look = Look(ringOpacity: real, ringScale: real, dotOpacity: real)

  /** A CSS `translate(x px, y px)` on one of the two elements. */
  datatype Translate = Translate(x: real, y: real)

  /**
   * The events the listeners receive. For a move, `clickable` says whether the
   * target has an ancestor matching
   * `a,button,[role="button"],input,textarea,select,label,[tabindex]`.
   */
  datatype MouseEvent = Move(x: real, y: real, clickable: bool) | Leave | Enter

  /** The three listeners: on `window` for moves, on the document element for leave and enter. */
  datatype Listener = MoveListener | LeaveListener | EnterListener

  const AllListeners: set<Listener> := {MoveListener, LeaveListener, EnterListener}

  /** The initial inline `transform` of both elements. */
  const Offscreen := Translate(-200.0, -200.0)

  function ListenerFor(e: MouseEvent): Listener
  {
    match e
    case Move(_, _, _) => MoveListener
    case Leave => LeaveListener
    case Enter => EnterListener
  }

  /** `applyState`: the styles that show the flags. */
  function ApplyState(f: Flags): (l: Look)
    ensures l.ringOpacity == 1.0 <==> f.visible
    ensures l.ringOpacity == 0.0 <==> !f.visible
    ensures l.ringScale == 1.6 <==> f.pointer
    ensures l.ringScale == 1.0 <==> !f.pointer
    ensures l.dotOpacity == 1.0 <==> f.visible && !f.pointer
    ensures l.dotOpacity == 0.0 <==> !f.visible || f.pointer
  {
    Look(if f.visible then 1.0 else 0.0,
         if f.pointer then 1.6 else 1.0,
         if f.visible && !f.pointer then 1.0 else 0.0)
  }

  /** How each handler changes the flags. */
  function Step(f: Flags, e: MouseEvent): Flags
  {
    match e
    case Move(_, _, clickable) => Flags(clickable, true)
    case Leave => f.(visible := false)
    case Enter => f.(visible := true)
  }

  /** Whether the handler calls `applyState`: a move only when `pointer` changes or the cursor was hidden. */
  function Applies(f: Flags, e: MouseEvent): bool
  {
    match e
    case Move(_, _, clickable) => clickable != f.pointer || !f.visible
    case _ => true
  }

  /** After any mouse move the cursor is visible and `pointer` is the target's clickability. */
  lemma MoveShowsAndClassifies(f: Flags, x: real, y: real, clickable: bool)
    ensures Step(f, Move(x, y, clickable)).visible
    ensures Step(f, Move(x, y, clickable)).pointer == clickable
  {
  }

  /** Leaving hides the cursor and entering shows it; neither touches `pointer`. */
  lemma LeaveEnterKeepPointer(f: Flags)
    ensures !Step(f, Leave).visible && Step(f, Leave).pointer == f.pointer
    ensures Step(f, Enter).visible && Step(f, Enter).pointer == f.pointer
  {
  }

  /**
   * Skipping `applyState` on a move is exact: a move calls it if and only if the
   * styles for the new flags differ from the styles for the old ones.
   */
  lemma SkipIsExact(f: Flags, x: real, y: real, clickable: bool)
    ensures Applies(f, Move(x, y, clickable)) <==>
            ApplyState(Step(f, Move(x, y, clickable))) != ApplyState(f)
  {
  }

  /** Over an interactive element the dot is hidden and the ring enlarged. */
  lemma DotHiddenOverInteractive(f: Flags)
    requires f.pointer
    ensures ApplyState(f).dotOpacity == 0.0 && ApplyState(f).ringScale == 1.6
  {
  }

  /** The component's element styles and its listeners. */
  class Cursor {
    /** `matchMedia('(hover: none)')`, evaluated once for the session. */
    const isTouch: bool
    var flags: Flags
    var look: Look
    var ringAt: Translate
    var dotAt: Translate
    var listeners: set<Listener>

    /** The styles on screen are always `applyState` of the flags; touch devices never listen. */
    ghost predicate Valid()
      reads this
    {
      look == ApplyState(flags) && (isTouch ==> listeners == {})
    }

    /** Whether the component renders its two elements (it returns `null` on touch devices). */
    predicate Rendered()
      reads this
    {
      !isTouch
    }

    /** First render: both elements off screen at opacity 0; the ring's `scale` is unset, that is 1. */
    constructor (isTouch: bool)
      ensures Valid() && this.isTouch == isTouch
      ensures Rendered() <==> !isTouch
      ensures flags == Flags(false, false) && look == Look(0.0, 1.0, 0.0)
      ensures ringAt == Offscreen && dotAt == Offscreen && listeners == {}
    {
      this.isTouch := isTouch;
      flags := Flags(false, false);
      look := Look(0.0, 1.0, 0.0);
      ringAt := Offscreen;
      dotAt := Offscreen;
      listeners := {};
    }

    /** The mount effect: on a touch device it returns at once, otherwise it adds the three listeners. */
    method Mount()
      requires Valid()
      modifies this
      ensures Valid()
      ensures listeners == if isTouch then old(listeners) else old(listeners) + AllListeners
      ensures flags == old(flags) && look == old(look) && ringAt == old(ringAt) && dotAt == old(dotAt)
    {
      if isTouch {
        return;
      }
      listeners := listeners + AllListeners;
    }

    /** The effect's cleanup removes exactly the three listeners it added. */
    method Unmount()
      requires Valid()
      modifies this
      ensures Valid()
      ensures listeners == old(listeners) - AllListeners
      ensures flags == old(flags) && look == old(look) && ringAt == old(ringAt) && dotAt == old(dotAt)
    {
      listeners := listeners - AllListeners;
    }

    /**
     * The browser delivers `e` to its listener if that listener is attached; otherwise
     * nothing happens. `applied` says whether `applyState` ran.
     */
    method Dispatch(e: MouseEvent) returns (applied: bool)
      requires Valid()
      modifies this
      ensures Valid() && listeners == old(listeners)
      ensures ListenerFor(e) in listeners ==> flags == Step(old(flags), e) && applied == Applies(old(flags), e)
      ensures ListenerFor(e) !in listeners ==> flags == old(flags) && look == old(look) && !applied
      ensures if ListenerFor(e) in listeners && e.Move? then ringAt == dotAt == Translate(e.x, e.y)
              else ringAt == old(ringAt) && dotAt == old(dotAt)
    {
      applied := false;
      if ListenerFor(e) !in listeners {
        return;
      }
      match e
      case Move(x, y, clickable) =>
        applied := OnMove(x, y, clickable);
      case Leave =>
        OnLeave();
        applied := true;
      case Enter =>
        OnEnter();
        applied := true;
    }

    /** `applyState`. */
    method Apply()
      modifies this
      ensures look == ApplyState(flags)
      ensures flags == old(flags) && ringAt == old(ringAt) && dotAt == old(dotAt) && listeners == old(listeners)
    {
      look := ApplyState(flags);
    }

    method OnMove(x: real, y: real, clickable: bool) returns (changed: bool)
      requires Valid()
      modifies this
      ensures Valid() && listeners == old(listeners)
      ensures flags == Step(old(flags), Move(x, y, clickable))
      ensures changed == Applies(old(flags), Move(x, y, clickable))
      ensures ringAt == dotAt == Translate(x, y)
    {
      dotAt := Translate(x, y);
      ringAt := Translate(x, y);
      var wasVisible := flags.visible;
      flags := flags.(visible := true);
      changed := clickable != flags.pointer || !wasVisible;
      flags := flags.(pointer := clickable);
      if changed {
        Apply();
      }
    }

    method OnLeave()
      requires Valid()
      modifies this
      ensures Valid() && listeners == old(listeners)
      ensures flags == Step(old(flags), Leave)
      ensures ringAt == old(ringAt) && dotAt == old(dotAt)
    {
      flags := flags.(visible := false);
      Apply();
    }

    method OnEnter()
      requires Valid()
      modifies this
      ensures Valid() && listeners == old(listeners)
      ensures flags == Step(old(flags), Enter)
      ensures ringAt == old(ringAt) && dotAt == old(dotAt)
    {
      flags := flags.(visible := true);
      Apply();
    }
  }
}
