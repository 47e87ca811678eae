/**
 * kol-popover: a floating panel positioned next to its trigger element.
 *
 * Opening adds the body listeners and requests a position; the geometry
 * library answers asynchronously with coordinates, which `setPosition`
 * writes into the panel's style. Moving the panel requests a new position,
 * and once the position is stable the callback given to the request runs;
 * the one `showPopover` gives sets `_show`. Hiding resets `_show` and the
 * `_open` attribute, focuses the trigger and removes the listeners.
 *
 * The asynchronous position request is the event `ComputePosition`; its
 * answer is a later call of `SetPosition` by the environment. The DOM
 * elements are present or absent, and their style properties are strings.
 */
module Popover {
  import opened Js
  import opened Validation

  /** The arrow offsets the geometry library reports; a missing offset is `None`. */
  datatype ArrowData = ArrowData(x: Option<int>, y: Option<int>)

  /** The inline style of the arrow element. */
  datatype ArrowStyle = ArrowStyle(inset: string, translate: string)

  /** `offset || 0` */
  function OffsetOrZero(o: Option<int>): (r: int)
  {
    if o.Some? then o.value else 0
  }

  /** A CSS pixel length: `${n}px`. */
  function Px(n: int): (r: string)
  {
    IntToString(n) + "px"
  }

  /** The arrow style per placement; any other placement leaves the arrow as it is. */
  function ArrowStyleFor(placement: string, a: ArrowData): (r: Option<ArrowStyle>)
  {
    if placement == "top" then Some(ArrowStyle("100% auto auto " + Px(OffsetOrZero(a.x)), "0 -50%"))
    else if placement == "right" then Some(ArrowStyle(Px(OffsetOrZero(a.y)) + " 100% auto auto", "50% 0"))
    else if placement == "bottom" then Some(ArrowStyle("auto auto 100% " + Px(OffsetOrZero(a.x)), "0 50%"))
    else if placement == "left" then Some(ArrowStyle(Px(OffsetOrZero(a.y)) + " auto auto 100%", "-50% 0"))
    else None
  }

  /**
   * Only the four sides style the arrow; each side's translation is its
   * own, a missing offset counts as 0, and a side reads only its own axis.
   */
  lemma ArrowStyleBySide(placement: string, a: ArrowData, b: ArrowData)
    ensures ArrowStyleFor(placement, a).Some? <==> placement in {"top", "right", "bottom", "left"}
    ensures ArrowStyleFor(placement, ArrowData(None, a.y)) == ArrowStyleFor(placement, ArrowData(Some(0), a.y))
    ensures ArrowStyleFor(placement, ArrowData(a.x, None)) == ArrowStyleFor(placement, ArrowData(a.x, Some(0)))
    ensures (placement == "top" || placement == "bottom") && OffsetOrZero(a.x) == OffsetOrZero(b.x) ==>
      ArrowStyleFor(placement, a) == ArrowStyleFor(placement, b)
    ensures (placement == "left" || placement == "right") && OffsetOrZero(a.y) == OffsetOrZero(b.y) ==>
      ArrowStyleFor(placement, a) == ArrowStyleFor(placement, b)
  {
  }

  /** The translation tells the side: different sides never share it. */
  lemma ArrowTranslateNamesSide(p: string, q: string, a: ArrowData, b: ArrowData)
    requires ArrowStyleFor(p, a).Some? && ArrowStyleFor(q, b).Some?
    ensures ArrowStyleFor(p, a).value.translate == ArrowStyleFor(q, b).value.translate <==> p == q
  {
  }

  /** Two different non-negative numbers never have the same decimal notation. */
  lemma NatToStringInjective(m: nat, n: nat)
    ensures NatToString(m) == NatToString(n) <==> m == n
  {
    if NatToString(m) == NatToString(n) {
      ParseNatToString(m);
      ParseNatToString(n);
    }
  }

  /** Two pixel lengths are the same string exactly when the numbers are equal. */
  lemma PxInjective(m: int, n: int)
    ensures Px(m) == Px(n) <==> m == n
  {
    if Px(m) == Px(n) {
      assert IntToString(m) == Px(m)[..|Px(m)| - 2];
      assert IntToString(n) == Px(n)[..|Px(n)| - 2];
      IntToStringReadsBack(m);
      IntToStringReadsBack(n);
    }
  }

  /**
   * With the previous coordinates written by `setPosition` itself, the
   * panel counts as moved exactly when a coordinate number changed, so a
   * repeated answer runs the callback instead of requesting again.
   */
  lemma MovedIffCoordinatesChanged(x0: int, y0: int, x: int, y: int)
    ensures (Px(x0) != Px(x) || Px(y0) != Px(y)) <==> (x0 != x || y0 != y)
  {
    PxInjective(x0, x);
    PxInjective(y0, y);
  }

  /** The position request `alignPopover` makes, if trigger and panel exist outside tests. */
  function AlignEvents(env: Env, s: State, hasTrigger: bool, hasPopover: bool, cb: Option<Callback>): (r: seq<Event>)
    ensures |r| <= 1
    ensures |r| == 1 <==> !env.testEnvironment && hasTrigger && hasPopover
  {
    if !env.testEnvironment && hasTrigger && hasPopover then [ComputePosition(Get(s, "_alignment"), cb)] else []
  }

  /** The class object of the panel: `popover` always, `hidden` unless open, `show` when shown. */
  function PopoverClasses(s: State): (r: set<string>)
  {
    {"popover"} + (if !Truthy(Get(s, "_open")) then {"hidden"} else {}) + (if Truthy(Get(s, "_show")) then {"show"} else {})
  }

  lemma PopoverClassesByState(s: State)
    ensures "popover" in PopoverClasses(s)
    ensures "hidden" in PopoverClasses(s) <==> !Truthy(Get(s, "_open"))
    ensures "show" in PopoverClasses(s) <==> Truthy(Get(s, "_show"))
    ensures PopoverClasses(s) <= {"popover", "hidden", "show"}
  {
  }

  /**
   * The `_show` write of hiding removes the `show` class and the aligned
   * callback adds it; neither write changes `hidden`, which follows `_open`
   * alone (see `HideThenOpenWatcherHidesPanel` for the watcher that hiding
   * triggers).
   */
  lemma ShowClassFollowsShowState(s: State)
    ensures "show" !in PopoverClasses(s["_show" := Bool(false)])
    ensures "show" in PopoverClasses(s["_show" := Bool(true)])
    ensures ("hidden" in PopoverClasses(s["_show" := Bool(false)])) == ("hidden" in PopoverClasses(s))
    ensures ("hidden" in PopoverClasses(s["_show" := Bool(true)])) == ("hidden" in PopoverClasses(s))
  {
    assert Get(s["_show" := Bool(false)], "_open") == Get(s, "_open");
    assert Get(s["_show" := Bool(true)], "_open") == Get(s, "_open");
  }

  /**
   * Hiding also assigns `false` to the `_open` attribute, and the framework
   * runs the `_open` watcher on it. When that watcher commits `false`, the
   * panel is both not shown and hidden.
   */
  lemma HideThenOpenWatcherHidesPanel(env: Env, s: State)
    requires env.commit(Call(Validation.ValidateOpen, "_open", Bool(false), NoOptions)) == Some(Bool(false))
    ensures var h := Commit(env, s["_show" := Bool(false)], Call(Validation.ValidateOpen, "_open", Bool(false), NoOptions));
      "hidden" in PopoverClasses(h) && "show" !in PopoverClasses(h)
  {
    var h := Commit(env, s["_show" := Bool(false)], Call(Validation.ValidateOpen, "_open", Bool(false), NoOptions));
    assert Get(h, "_open") == Bool(false);
    assert Get(h, "_show") == Bool(false);
  }

  /** The class of the arrow element: `arrow` and the alignment. */
  function ArrowClass(s: State): (r: string)
  {
    "arrow " + ToStr(Get(s, "_alignment"))
  }

  /**
   * The arrow's class is `arrow` followed by the alignment, so two string
   * alignments give the same class exactly when they are equal.
   */
  lemma ArrowClassNamesAlignment(s: State, t: State)
    ensures ArrowClass(s)[..6] == "arrow "
    ensures Get(s, "_alignment").Str? ==> ArrowClass(s)[6..] == Get(s, "_alignment").s
    ensures Get(s, "_alignment").Str? && Get(t, "_alignment").Str? ==>
      (ArrowClass(s) == ArrowClass(t) <==> Get(s, "_alignment") == Get(t, "_alignment"))
  {
    if Get(s, "_alignment").Str? && Get(t, "_alignment").Str? && ArrowClass(s) == ArrowClass(t) {
      assert ArrowClass(s)[6..] == ArrowClass(t)[6..];
    }
  }

  const InitialAlignment: JsValue := Str("top")

  /** The state before any watcher runs. */
  function InitialState(): (r: State)
  {
    map["_alignment" := Str("top"), "_open" := Bool(false), "_show" := Bool(false)]
  }

  class KolPopover {
    const env: Env
    /** The `_alignment` attribute. */
    var alignmentProp: JsValue
    /** The `_open` attribute, which the component itself resets when it hides. */
    var openProp: JsValue
    var state: State
    /** Whether the trigger, panel and arrow elements have been caught. */
    var hasTrigger: bool
    var hasPopover: bool
    var hasArrow: bool
    /** The inline style properties the component writes. */
    var popoverLeft: string
    var popoverTop: string
    var arrowInset: string
    var arrowTranslate: string
    var trace: seq<Event>

    constructor (env: Env, alignment: Option<JsValue>, open: Option<JsValue>)
      ensures this.env == env && trace == [] && state == InitialState()
      ensures alignmentProp == (if alignment.Some? then alignment.value else InitialAlignment)
      ensures openProp == (if open.Some? then open.value else Bool(false))
      ensures !hasTrigger && !hasPopover && !hasArrow
      ensures popoverLeft == "" && popoverTop == "" && arrowInset == "" && arrowTranslate == ""
    {
      this.env := env;
      alignmentProp := if alignment.Some? then alignment.value else InitialAlignment;
      openProp := if open.Some? then open.value else Bool(false);
      state := InitialState();
      hasTrigger, hasPopover, hasArrow := false, false, false;
      popoverLeft, popoverTop, arrowInset, arrowTranslate := "", "", "", "";
      trace := [];
    }

    /** `alignPopover`: request a position, handing on the callback. */
    method AlignPopover(cb: Option<Callback>)
      modifies this`trace
      ensures trace == old(trace) + AlignEvents(env, state, hasTrigger, hasPopover, cb)
    {
      if !env.testEnvironment && hasTrigger && hasPopover {
        trace := trace + [ComputePosition(Get(state, "_alignment"), cb)];
      }
    }

    /** The callback that `showPopover` hands to the alignment. */
    method RunCallback(cb: Callback)
      modifies this`state
      ensures state == old(state)["_show" := Bool(true)]
    {
      match cb
      case ShowWhenAligned => state := state["_show" := Bool(true)];
    }

    /**
     * `setPosition`: with a panel, write the coordinates and the arrow style
     * of the placement; then request a new position if a coordinate string
     * changed, and otherwise run the callback, if there is one.
     */
    method SetPosition(x: int, y: int, arrow: Option<ArrowData>, placement: string, cb: Option<Callback>)
      modifies this`popoverLeft, this`popoverTop, this`arrowInset, this`arrowTranslate, this`state, this`trace
      ensures !hasPopover ==>
        popoverLeft == old(popoverLeft) && popoverTop == old(popoverTop)
        && arrowInset == old(arrowInset) && arrowTranslate == old(arrowTranslate)
        && state == old(state) && trace == old(trace)
      ensures hasPopover ==> popoverLeft == Px(x) && popoverTop == Px(y)
      ensures var style := if hasPopover && hasArrow && arrow.Some? then ArrowStyleFor(placement, arrow.value) else None;
        (style.Some? ==> arrowInset == style.value.inset && arrowTranslate == style.value.translate)
        && (style.None? ==> arrowInset == old(arrowInset) && arrowTranslate == old(arrowTranslate))
      ensures hasPopover && (old(popoverLeft) != Px(x) || old(popoverTop) != Px(y)) ==>
        state == old(state) && trace == old(trace) + AlignEvents(env, state, hasTrigger, hasPopover, cb)
      ensures hasPopover && old(popoverLeft) == Px(x) && old(popoverTop) == Px(y) ==>
        trace == old(trace) && state == (if cb.Some? then old(state)["_show" := Bool(true)] else old(state))
    {
      if hasPopover {
        var oldLeft, oldTop := popoverLeft, popoverTop;
        popoverLeft, popoverTop := Px(x), Px(y);
        if hasArrow && arrow.Some? {
          var style := ArrowStyleFor(placement, arrow.value);
          if style.Some? {
            arrowInset, arrowTranslate := style.value.inset, style.value.translate;
          }
        }
        if oldLeft != popoverLeft || oldTop != popoverTop {
          AlignPopover(cb);
        } else if cb.Some? {
          RunCallback(cb.value);
        }
      }
    }

    /** `showPopover`: add the body listeners, then request a position that shows the panel. */
    method ShowPopover()
      modifies this`trace
      ensures trace == old(trace) + [AddBodyListeners]
                       + AlignEvents(env, state, hasTrigger, hasPopover, Some(ShowWhenAligned))
    {
      trace := trace + [AddBodyListeners];
      AlignPopover(Some(ShowWhenAligned));
    }

    /** `hidePopover`: `_show` and the `_open` attribute go false, the trigger is focused, listeners removed. */
    method HidePopover()
      modifies this`state, this`openProp, this`trace
      ensures state == old(state)["_show" := Bool(false)] && openProp == Bool(false)
      ensures trace == old(trace) + (if hasTrigger then [FocusTrigger] else []) + [RemoveBodyListeners]
    {
      state := state["_show" := Bool(false)];
      openProp := Bool(false);
      if hasTrigger {
        trace := trace + [FocusTrigger];
      }
      trace := trace + [RemoveBodyListeners];
    }

    /** The keyup listener: only the Escape key hides. */
    method HidePopoverByEscape(key: string)
      modifies this`state, this`openProp, this`trace
      ensures key == "Escape" ==>
        state == old(state)["_show" := Bool(false)] && openProp == Bool(false)
        && trace == old(trace) + (if hasTrigger then [FocusTrigger] else []) + [RemoveBodyListeners]
      ensures key != "Escape" ==> state == old(state) && openProp == old(openProp) && trace == old(trace)
    {
      if key == "Escape" {
        HidePopover();
      }
    }

    /** The click listener: a click outside an existing panel hides. */
    method HidePopoverByClickOutside(targetInPopover: bool)
      modifies this`state, this`openProp, this`trace
      ensures hasPopover && !targetInPopover ==>
        state == old(state)["_show" := Bool(false)] && openProp == Bool(false)
        && trace == old(trace) + (if hasTrigger then [FocusTrigger] else []) + [RemoveBodyListeners]
      ensures !(hasPopover && !targetInPopover) ==>
        state == old(state) && openProp == old(openProp) && trace == old(trace)
    {
      if hasPopover && !targetInPopover {
        HidePopover();
      }
    }

    /** The host ref: when there is a host, the trigger is its previous sibling, if any. */
    method CatchTriggerElement(hostPresent: bool, hasPreviousSibling: bool)
      modifies this`hasTrigger
      ensures hasTrigger == if hostPresent then hasPreviousSibling else old(hasTrigger)
    {
      if hostPresent {
        hasTrigger := hasPreviousSibling;
      }
    }

    method CatchPopoverElement(present: bool)
      modifies this`hasPopover
      ensures hasPopover == present
    {
      hasPopover := present;
    }

    method CatchArrowElement(present: bool)
      modifies this`hasArrow
      ensures hasArrow == present
    {
      hasArrow := present;
    }

    /** The call of one validation helper and the patch it performs. */
    method RunHelper(c: Call)
      modifies this`state, this`trace
      ensures state == Commit(env, old(state), c)
      ensures trace == old(trace) + [Helper(c)]
    {
      trace := trace + [Helper(c)];
      state := Commit(env, state, c);
    }

    method ValidateAlignment(value: JsValue)
      modifies this`state, this`trace
      ensures state == Commit(env, old(state), Call(Validation.ValidateAlignment, "_alignment", value, NoOptions))
      ensures trace == old(trace) + [Helper(Call(Validation.ValidateAlignment, "_alignment", value, NoOptions))]
    {
      RunHelper(Call(Validation.ValidateAlignment, "_alignment", value, NoOptions));
    }

    /** Validate `_open`, then show the panel when the value is truthy; `_show` is left to the callback. */
    method ValidateOpen(value: JsValue)
      modifies this`state, this`trace
      ensures state == Commit(env, old(state), Call(Validation.ValidateOpen, "_open", value, NoOptions))
      ensures trace == old(trace) + [Helper(Call(Validation.ValidateOpen, "_open", value, NoOptions))]
        + (if Truthy(value)
           then [AddBodyListeners] + AlignEvents(env, old(state), hasTrigger, hasPopover, Some(ShowWhenAligned))
           else [])
    {
      RunHelper(Call(Validation.ValidateOpen, "_open", value, NoOptions));
      if Truthy(value) {
        ShowPopover();
      }
    }

    method ValidateShow(value: JsValue)
      modifies this`state, this`trace
      ensures state == Commit(env, old(state), Call(Validation.ValidateShow, "_show", value, NoOptions))
      ensures trace == old(trace) + [Helper(Call(Validation.ValidateShow, "_show", value, NoOptions))]
    {
      RunHelper(Call(Validation.ValidateShow, "_show", value, NoOptions));
    }

    /** Alignment first, then open. */
    method ComponentWillLoad()
      modifies this`state, this`trace
      ensures var c1 := Call(Validation.ValidateAlignment, "_alignment", alignmentProp, NoOptions);
              var c2 := Call(Validation.ValidateOpen, "_open", openProp, NoOptions);
              var s1 := Commit(env, old(state), c1);
        state == Commit(env, s1, c2)
        && trace == old(trace) + [Helper(c1), Helper(c2)]
           + (if Truthy(openProp)
              then [AddBodyListeners] + AlignEvents(env, s1, hasTrigger, hasPopover, Some(ShowWhenAligned))
              else [])
    {
      ValidateAlignment(alignmentProp);
      ValidateOpen(openProp);
    }
  }
}
