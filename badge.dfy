/**
 * kol-badge: a coloured label with an optional embedded smart button.
 *
 * `_color` is validated by the colour helper, whose before-patch hook copies
 * the derived background and foreground colours into two plain fields;
 * `_label` is validated by the label helper, whose after-patch hook emits an
 * accessibility hint for labels longer than 32 characters; `_smartButton` is
 * parsed from JSON when the object handler runs its callback, and whatever
 * the parse leaves in `value` (the parsed object, or the raw input when the
 * parse throws) is written to the state.
 *
 * Hooks run only when the helper patches the state, and they see the value
 * that is patched in: the before-patch hook before the merge, the
 * after-patch hook after it.
 */
module Badge {
  import opened Js
  import opened Validation

  /** The attribute defaults declared with the props. */
  function DefaultProps(): (r: map<string, JsValue>)
  {
    map["_color" := Str("#000"), "_hideLabel" := Bool(false), "_iconOnly" := Bool(false)]
  }

  const InitialBackground: string := "#000"
  const InitialForeground: string := "#fff"

  /** The state before any watcher runs; the label placeholder is an ellipsis. */
  function InitialState(): (r: State)
  {
    map["_color" := Obj(map["backgroundColor" := Str(InitialBackground), "foregroundColor" := Str(InitialForeground)]),
        "_label" := Str("…")]
  }

  /** What the component holds: its state, the two colour fields and what it emitted. */
  datatype BadgeView = BadgeView(state: State, bgColor: string, fgColor: string, trace: seq<Event>)

  // ---------------------------------------------------------------------------
  // _color

  /** The colour helper call: default '#000', `handleColorChange` as before-patch hook. */
  function ColorCall(value: JsValue): (r: Call)
  {
    Call(ValidateColor, "_color", value, Options(Some(Str("#000")), Some(BadgeColorChange), None))
  }

  /** `handleColorChange`: the two colour fields take the pair the colour helper derives. */
  function HandleColorChange(env: Env, w: BadgeView, value: JsValue): (r: BadgeView)
  {
    var pair := env.colorPair(value);
    w.(bgColor := pair.backgroundColor, fgColor := pair.foregroundColor)
  }

  /** The `_color` watcher: the helper call, and on a patch the hook and then the merge. */
  function ReactColor(env: Env, w: BadgeView, value: JsValue): (r: BadgeView)
  {
    var c := ColorCall(value);
    var w1 := w.(trace := w.trace + [Helper(c)]);
    match env.commit(c)
    case None => w1
    case Some(v) => HandleColorChange(env, w1, v).(state := w1.state["_color" := v])
  }

  /**
   * A patched colour sets both colour fields from the derived pair and the
   * `_color` key; nothing else changes, and without a patch only the call
   * is recorded.
   */
  lemma ColorPatchSetsPair(env: Env, w: BadgeView, value: JsValue)
    ensures var r := ReactColor(env, w, value);
      r.trace == w.trace + [Helper(ColorCall(value))]
    ensures var r := ReactColor(env, w, value); var c := ColorCall(value);
      env.commit(c).Some? ==>
        r.bgColor == env.colorPair(env.commit(c).value).backgroundColor
        && r.fgColor == env.colorPair(env.commit(c).value).foregroundColor
        && r.state == w.state["_color" := env.commit(c).value]
    ensures var r := ReactColor(env, w, value);
      env.commit(ColorCall(value)).None? ==> r == w.(trace := r.trace)
  {
  }

  // ---------------------------------------------------------------------------
  // _label

  const MaxLabelLength: nat := 32

  const TooLongPrefix: string := "[KolBadge] The label is too long for a badge ("
  const TooLongSuffix: string := " > 32)."

  /** The hint text for a label of `n` characters. */
  function TooLongMessage(n: nat): (r: string)
  {
    TooLongPrefix + NatToString(n) + TooLongSuffix
  }

  /** The length a hint text reports: the number right after the fixed prefix. */
  function ReportedLength(msg: string): (r: Option<nat>)
  {
    if |TooLongPrefix| <= |msg| && msg[..|TooLongPrefix|] == TooLongPrefix then
      var digits := LeadingDigits(msg[|TooLongPrefix|..]);
      if digits == [] then None else Some(ParseNat(digits))
    else None
  }

  /** The message contains the length it was built from. */
  lemma ReportedLengthOfMessage(n: nat)
    ensures ReportedLength(TooLongMessage(n)) == Some(n)
  {
    var msg := TooLongMessage(n);
    assert msg[..|TooLongPrefix|] == TooLongPrefix;
    assert msg[|TooLongPrefix|..] == NatToString(n) + TooLongSuffix;
    LeadingDigitsOfConcat(NatToString(n), TooLongSuffix);
    ParseNatToString(n);
  }

  /** The after-patch hook of the label watcher. */
  function LabelHints(v: JsValue): (r: seq<Event>)
  {
    if TypeOf(v) == "string" && |v.s| > MaxLabelLength then [A11yHint(TooLongMessage(|v.s|))] else []
  }

  /** One hint exactly for a string over 32 characters, and it reports that length. */
  lemma LabelHintOnlyWhenTooLong(v: JsValue)
    ensures |LabelHints(v)| <= 1
    ensures |LabelHints(v)| == 1 <==> v.Str? && |v.s| > MaxLabelLength
    ensures |LabelHints(v)| == 1 ==>
      LabelHints(v)[0].A11yHint? && ReportedLength(LabelHints(v)[0].text) == Some(|v.s|)
  {
    if v.Str? && |v.s| > MaxLabelLength {
      ReportedLengthOfMessage(|v.s|);
    }
  }

  function LabelCall(value: JsValue): (r: Call)
  {
    Call(ValidateLabel, "_label", value, Options(None, None, Some(BadgeLabelLength)))
  }

  /** The `_label` watcher: the helper call, and on a patch the merge and then the hook. */
  function ReactLabel(env: Env, w: BadgeView, value: JsValue): (r: BadgeView)
  {
    var c := LabelCall(value);
    match env.commit(c)
    case None => w.(trace := w.trace + [Helper(c)])
    case Some(v) => w.(state := w.state["_label" := v], trace := w.trace + [Helper(c)] + LabelHints(v))
  }

  /** The label watcher writes only `_label` and the colour fields do not move. */
  lemma LabelWatchKeepsColors(env: Env, w: BadgeView, value: JsValue)
    ensures var r := ReactLabel(env, w, value);
      r.bgColor == w.bgColor && r.fgColor == w.fgColor
      && forall k :: k != "_label" ==> Get(r.state, k) == Get(w.state, k)
    ensures var r := ReactLabel(env, w, value);
      r.trace[..|w.trace| + 1] == w.trace + [Helper(LabelCall(value))]
  {
  }

  // ---------------------------------------------------------------------------
  // _smartButton

  /** The value left in `value` after the try block: the parse result or the raw input. */
  function ParsedSmartButton(env: Env, value: JsValue): (r: JsValue)
  {
    match env.parseJson(value)
    case Some(p) => p
    case None => value
  }

  /** The `_smartButton` watcher: when the object handler runs, the parsed or raw value is set. */
  function ReactSmartButton(env: Env, w: BadgeView, value: JsValue): (r: BadgeView)
  {
    if env.objectHandlerRuns(value) then w.(state := w.state["_smartButton" := ParsedSmartButton(env, value)])
    else w
  }

  /**
   * When the handler runs, `_smartButton` is the parse result when parsing
   * succeeds and the untouched input when it throws; nothing else changes.
   */
  lemma SmartButtonStoresParseOrInput(env: Env, w: BadgeView, value: JsValue)
    ensures var r := ReactSmartButton(env, w, value);
      env.objectHandlerRuns(value) ==>
        Get(r.state, "_smartButton") == (if env.parseJson(value).Some? then env.parseJson(value).value else value)
    ensures var r := ReactSmartButton(env, w, value);
      forall k :: k != "_smartButton" ==> Get(r.state, k) == Get(w.state, k)
    ensures var r := ReactSmartButton(env, w, value);
      r.bgColor == w.bgColor && r.fgColor == w.fgColor && r.trace == w.trace
    ensures !env.objectHandlerRuns(value) ==> ReactSmartButton(env, w, value) == w
  {
  }

  /** The smart-button class and the embedded button need a non-null object. */
  predicate ShowsSmartButton(s: State)
  {
    IsObject(Get(s, "_smartButton"))
  }

  /**
   * A text that fails to parse is stored as it is, so no smart button is
   * shown, whatever the state held before.
   */
  lemma FailedParseHidesSmartButton(env: Env, w: BadgeView, value: JsValue)
    requires env.objectHandlerRuns(value) && env.parseJson(value).None? && value.Str?
    ensures !ShowsSmartButton(ReactSmartButton(env, w, value).state)
    ensures ReactSmartButton(env, ReactSmartButton(env, w, value), value) == ReactSmartButton(env, w, value)
  {
  }

  /** An earlier smart button is dropped, not kept, by a later text that fails to parse. */
  lemma FailedParseDropsPreviousButton(env: Env, w: BadgeView, value: JsValue)
    requires ShowsSmartButton(w.state)
    requires env.objectHandlerRuns(value) && env.parseJson(value).None? && value.Str?
    ensures Get(ReactSmartButton(env, w, value).state, "_smartButton") != Get(w.state, "_smartButton")
  {
  }

  // ---------------------------------------------------------------------------
  // Load and render

  /** componentWillLoad: colour, then label, then smart button, each from its attribute. */
  function LoadAll(env: Env, props: map<string, JsValue>, w: BadgeView): (r: BadgeView)
  {
    ReactSmartButton(env, ReactLabel(env, ReactColor(env, w, Get(props, "_color")), Get(props, "_label")),
      Get(props, "_smartButton"))
  }

  /** The load calls the colour helper, then the label helper, and nothing else in between. */
  lemma LoadCallsColorThenLabel(env: Env, props: map<string, JsValue>, w: BadgeView)
    ensures var r := LoadAll(env, props, w);
      |r.trace| >= |w.trace| + 2
      && r.trace[|w.trace|] == Helper(ColorCall(Get(props, "_color")))
      && r.trace[|w.trace| + 1] == Helper(LabelCall(Get(props, "_label")))
  {
    var w1 := ReactColor(env, w, Get(props, "_color"));
    var w2 := ReactLabel(env, w1, Get(props, "_label"));
    ColorPatchSetsPair(env, w, Get(props, "_color"));
    LabelWatchKeepsColors(env, w1, Get(props, "_label"));
    SmartButtonStoresParseOrInput(env, w2, Get(props, "_smartButton"));
    assert w2.trace[..|w1.trace| + 1] == w1.trace + [Helper(LabelCall(Get(props, "_label")))];
    assert w2.trace[|w1.trace|] == (w1.trace + [Helper(LabelCall(Get(props, "_label")))])[|w1.trace|];
  }

  /** The label is hidden when `_hideLabel || _iconOnly` is truthy. */
  function SpanHideLabel(props: map<string, JsValue>): (r: JsValue)
  {
    Or(Get(props, "_hideLabel"), Get(props, "_iconOnly"))
  }

  lemma HideLabelEitherFlag(props: map<string, JsValue>)
    ensures Truthy(SpanHideLabel(props)) <==> Truthy(Get(props, "_hideLabel")) || Truthy(Get(props, "_iconOnly"))
    ensures Get(props, "_hideLabel") == Bool(false) && Get(props, "_iconOnly") == Bool(false) ==>
      SpanHideLabel(props) == Bool(false)
  {
  }

  /** The attributes of the embedded kol-button-wc, when it is rendered. */
  function EmbeddedButton(s: State, id: string): (r: Option<map<string, JsValue>>)
  {
    if ShowsSmartButton(s) then
      var sb := Get(s, "_smartButton");
      Some(map["_ariaControls" := Str(id), "_ariaLabel" := Member(sb, "_ariaLabel"),
               "_customClass" := Member(sb, "_customClass"), "_disabled" := Member(sb, "_disabled"),
               "_hideLabel" := Bool(true), "_icon" := Member(sb, "_icon"), "_id" := Member(sb, "_id"),
               "_label" := Member(sb, "_label"), "_on" := Member(sb, "_on"),
               "_tooltipAlign" := Member(sb, "_tooltipAlign"), "_variant" := Member(sb, "_variant")])
    else None
  }

  /** The embedded button is rendered exactly with the smart-button class, controls the label and hides its own. */
  lemma EmbeddedButtonWithSmartButton(s: State, id: string)
    ensures EmbeddedButton(s, id).Some? <==> IsObject(Get(s, "_smartButton"))
    ensures EmbeddedButton(s, id).Some? ==>
      EmbeddedButton(s, id).value["_ariaControls"] == Str(id)
      && EmbeddedButton(s, id).value["_hideLabel"] == Bool(true)
      && EmbeddedButton(s, id).value["_label"] == Member(Get(s, "_smartButton"), "_label")
  {
  }

  // ---------------------------------------------------------------------------
  // The component

  class KolBadge {
    const env: Env
    /** The id of the label span, which the smart button controls. */
    const id: string
    /** The attribute values the host has set before the component loads. */
    const props: map<string, JsValue>
    var state: State
    var bgColorStr: string
    var colorStr: string
    var trace: seq<Event>

    constructor (env: Env, id: string, attrs: map<string, JsValue>)
      ensures this.env == env && this.id == id && props == DefaultProps() + attrs
      ensures state == InitialState() && trace == []
      ensures bgColorStr == InitialBackground && colorStr == InitialForeground
    {
      this.env := env;
      this.id := id;
      props := DefaultProps() + attrs;
      state := InitialState();
      bgColorStr := InitialBackground;
      colorStr := InitialForeground;
      trace := [];
    }

    /** The before-patch hook of the colour watcher. */
    method HandleColorChange(value: JsValue)
      modifies this`bgColorStr, this`colorStr
      ensures bgColorStr == env.colorPair(value).backgroundColor
      ensures colorStr == env.colorPair(value).foregroundColor
    {
      var colorPair := env.colorPair(value);
      bgColorStr := colorPair.backgroundColor;
      colorStr := colorPair.foregroundColor;
    }

    method ValidateColor(value: JsValue)
      modifies this`state, this`bgColorStr, this`colorStr, this`trace
      ensures BadgeView(state, bgColorStr, colorStr, trace)
        == ReactColor(env, BadgeView(old(state), old(bgColorStr), old(colorStr), old(trace)), value)
    {
      var c := ColorCall(value);
      trace := trace + [Helper(c)];
      match env.commit(c)
      case None =>
      case Some(v) =>
        HandleColorChange(v);
        state := state["_color" := v];
    }

    method ValidateLabel(value: JsValue)
      modifies this`state, this`trace
      ensures BadgeView(state, bgColorStr, colorStr, trace)
        == ReactLabel(env, BadgeView(old(state), bgColorStr, colorStr, old(trace)), value)
    {
      var c := LabelCall(value);
      trace := trace + [Helper(c)];
      match env.commit(c)
      case None =>
      case Some(v) =>
        state := state["_label" := v];
        if TypeOf(v) == "string" && |v.s| > MaxLabelLength {
          trace := trace + [A11yHint(TooLongMessage(|v.s|))];
        }
    }

    method ValidateSmartButton(value: JsValue)
      modifies this`state
      ensures BadgeView(state, bgColorStr, colorStr, trace)
        == ReactSmartButton(env, BadgeView(old(state), bgColorStr, colorStr, trace), value)
    {
      if env.objectHandlerRuns(value) {
        var v := value;
        var parsed := env.parseJson(value);
        if parsed.Some? {
          v := parsed.value;
        }
        state := state["_smartButton" := v];
      }
    }

    method ComponentWillLoad()
      modifies this`state, this`bgColorStr, this`colorStr, this`trace
      ensures BadgeView(state, bgColorStr, colorStr, trace)
        == LoadAll(env, props, BadgeView(old(state), old(bgColorStr), old(colorStr), old(trace)))
    {
      ValidateColor(Get(props, "_color"));
      ValidateLabel(Get(props, "_label"));
      ValidateSmartButton(Get(props, "_smartButton"));
    }
  }
}
