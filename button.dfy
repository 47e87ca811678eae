/**
 * kol-button-wc: the internal button web component.
 *
 * Each public attribute has a watcher that hands the raw value to a
 * validation helper (`watchString`, `watchBoolean`, `watchValidator`, ...)
 * which patches one key of `state`; `_on` is merged in place when it is an
 * object. `componentWillLoad` runs all seventeen watchers once, in a fixed
 * order. Clicking dispatches on `_type` and `_on`, and rendering derives the
 * ARIA attributes, the tooltip and the class list from the state.
 *
 * The watcher for `_ariaCurrent` is kept as the component has it: it
 * validates the aria-current value but stores it under `_ariaControls`, and
 * the accepted-values text it passes says `data` where the predicate accepts
 * `date`.
 */
module Button {
  import opened Js
  import opened Validation

  /** The declared attributes of the component. */
  datatype Attr =
    | AccessKey | AriaControls | AriaCurrent | AriaExpanded | AriaLabel | CustomClass
    | Disabled | Icon | IconAlign | IconOnly | Id | Label | On | TabIndex | TooltipAlign
    | Type | Variant

  /** The attribute's name, which is also its state key. */
  function Name(a: Attr): (r: string)
  {
    match a
    case AccessKey => "_accessKey"
    case AriaControls => "_ariaControls"
    case AriaCurrent => "_ariaCurrent"
    case AriaExpanded => "_ariaExpanded"
    case AriaLabel => "_ariaLabel"
    case CustomClass => "_customClass"
    case Disabled => "_disabled"
    case Icon => "_icon"
    case IconAlign => "_iconAlign"
    case IconOnly => "_iconOnly"
    case Id => "_id"
    case Label => "_label"
    case On => "_on"
    case TabIndex => "_tabIndex"
    case TooltipAlign => "_tooltipAlign"
    case Type => "_type"
    case Variant => "_variant"
  }

  /** The attribute defaults declared with the props. */
  function DefaultProps(): (r: map<string, JsValue>)
  {
    map["_ariaLabel" := Str(""), "_disabled" := Bool(false), "_iconAlign" := Str("left"),
        "_iconOnly" := Bool(false), "_tooltipAlign" := Str("top"), "_type" := Str("button"),
        "_variant" := Str("normal")]
  }

  /** The state before any watcher runs. */
  function InitialState(): (r: State)
  {
    map["_ariaLabel" := Str(""), "_icon" := Obj(map[]), "_iconAlign" := Str("left"),
        "_label" := Str(""), "_on" := Obj(map[]), "_type" := Str("button")]
  }

  /** The tokens the aria-current hint names inside its braces. */
  const AriaCurrentListed: seq<string> := ["data", "location", "page", "step", "time"]

  /** The tokens separated by commas, as the hint writes them. */
  function CommaList(ts: seq<string>): (r: string)
  {
    if |ts| == 0 then "" else if |ts| == 1 then ts[0] else ts[0] + ", " + CommaList(ts[1..])
  }

  /**
   * The accepted-values description handed to watchValidator for
   * aria-current: `boolean` and `String {` with the listed tokens and `}`,
   * the watcher's literal set (`AriaCurrentExpectedIsSourceText`).
   */
  const AriaCurrentExpected: set<string> := {"boolean", "String {" + CommaList(AriaCurrentListed) + "}"}

  /** Five tokens in a comma list, written out. */
  lemma CommaListOfFive(a: string, b: string, c: string, d: string, e: string)
    ensures CommaList([a, b, c, d, e]) == a + ", " + (b + ", " + (c + ", " + (d + ", " + e)))
  {
    assert CommaList([d, e]) == d + ", " + e by { assert [d, e][1..] == [e]; }
    assert CommaList([c, d, e]) == c + ", " + CommaList([d, e]) by { assert [c, d, e][1..] == [d, e]; }
    assert CommaList([b, c, d, e]) == b + ", " + CommaList([c, d, e]) by { assert [b, c, d, e][1..] == [c, d, e]; }
    assert [a, b, c, d, e][1..] == [b, c, d, e];
  }

  /** The listed tokens read `data, location, page, step, time`. */
  lemma ListedCommaList()
    ensures CommaList(AriaCurrentListed) == "data, location, page, step, time"
  {
    CommaListOfFive("data", "location", "page", "step", "time");
  }

  /** The description is the two-entry set literal of the aria-current watcher. */
  lemma AriaCurrentExpectedIsSourceText()
    ensures AriaCurrentExpected == {"boolean", "String {data, location, page, step, time}"}
  {
    ListedCommaList();
    assert "String {" + "data, location, page, step, time" + "}" == "String {data, location, page, step, time}";
  }

  /** The state key the watcher of `attr` writes. */
  function TargetKey(attr: Attr): (r: string)
  {
    if attr == AriaCurrent then "_ariaControls" else Name(attr)
  }

  /** The helper call each watcher makes; `_on` is handled without a helper. */
  function WatchCall(attr: Attr, value: JsValue): (r: Option<Call>)
    ensures r.Some? <==> attr != On
    ensures r.Some? ==> r.value.key == TargetKey(attr) && r.value.value == value
  {
    match attr
    case AccessKey => Some(Call(WatchString, "_accessKey", value, NoOptions))
    case AriaControls => Some(Call(WatchString, "_ariaControls", value, NoOptions))
    case AriaCurrent =>
      Some(Call(WatchValidator(AriaCurrentValue, AriaCurrentExpected), "_ariaControls", value, NoOptions))
    case AriaExpanded => Some(Call(WatchBoolean, "_ariaExpanded", value, NoOptions))
    case AriaLabel => Some(Call(ValidateAriaLabel, "_ariaLabel", value, NoOptions))
    case CustomClass => Some(Call(WatchString, "_customClass", value, Options(Some(Undefined), None, None)))
    case Disabled => Some(Call(WatchBoolean, "_disabled", value, NoOptions))
    case Icon => Some(Call(ValidateIcon, "_icon", value, NoOptions))
    case IconAlign => Some(Call(WatchIconAlign, "_iconAlign", value, NoOptions))
    case IconOnly => Some(Call(WatchBoolean, "_iconOnly", value, Options(Some(Bool(false)), None, None)))
    case Id => Some(Call(WatchString, "_id", value, NoOptions))
    case Label => Some(Call(ValidateLabel, "_label", value, NoOptions))
    case On => None
    case TabIndex => Some(Call(ValidateTabIndex, "_tabIndex", value, NoOptions))
    case TooltipAlign => Some(Call(WatchTooltipAlignment, "_tooltipAlign", value, NoOptions))
    case Type => Some(Call(WatchButtonType, "_type", value, NoOptions))
    case Variant => Some(Call(WatchButtonVariant, "_variant", value, NoOptions))
  }

  /** What the class holds: its state and everything it has emitted. */
  datatype View = View(state: State, trace: seq<Event>)

  /**
   * The watcher of `attr` reacting to `value`: the helper call (or, for
   * `_on`, the shallow merge of an object), and the disabled-control hint
   * when `_disabled` is set to `true`.
   */
  function React(env: Env, w: View, attr: Attr, value: JsValue): (r: View)
  {
    match WatchCall(attr, value)
    case None => if IsObject(value) then w.(state := w.state["_on" := value]) else w
    case Some(c) =>
      var hint := if attr == Disabled && value == Bool(true) then [A11yHintDisabled] else [];
      View(Commit(env, w.state, c), w.trace + [Helper(c)] + hint)
  }

  /** A watcher only appends to the trace: the helper call, then any hint. */
  lemma ReactExtendsTrace(env: Env, w: View, attr: Attr, value: JsValue)
    ensures var r := React(env, w, attr, value);
      |w.trace| <= |r.trace| && r.trace[..|w.trace|] == w.trace
    ensures var r := React(env, w, attr, value);
      attr != On ==> |r.trace| > |w.trace| && r.trace[|w.trace|] == Helper(WatchCall(attr, value).value)
  {
  }

  /** `_on` emits nothing; it is merged exactly when the value is a non-null object. */
  lemma ReactOnMergesObjects(env: Env, w: View, value: JsValue)
    ensures React(env, w, On, value).trace == w.trace
    ensures IsObject(value) ==> React(env, w, On, value).state == w.state["_on" := value]
    ensures !IsObject(value) ==> React(env, w, On, value).state == w.state
  {
  }

  /** The disabled-control hint follows the boolean watch exactly when the value is `true`. */
  lemma ReactDisabledHints(env: Env, w: View, value: JsValue)
    ensures var r := React(env, w, Disabled, value);
      r.trace == w.trace + [Helper(Call(WatchBoolean, "_disabled", value, NoOptions))]
                 + (if value == Bool(true) then [A11yHintDisabled] else [])
    ensures forall attr :: attr != Disabled ==> A11yHintDisabled !in React(env, w, attr, value).trace[|w.trace|..]
  {
  }

  /** A watcher writes no state key but its target. */
  lemma ReactWritesOnlyTarget(env: Env, w: View, attr: Attr, value: JsValue, k: string)
    requires k != TargetKey(attr)
    ensures var r := React(env, w, attr, value);
      (k in r.state <==> k in w.state) && Get(r.state, k) == Get(w.state, k)
  {
  }

  /**
   * componentWillLoad: the seventeen watchers, once each and in declaration
   * order, each fed the value of its own attribute.
   */
  function LoadAll(env: Env, props: map<string, JsValue>, w: View): (r: View)
  {
    var w1 := React(env, w, AccessKey, Get(props, "_accessKey"));
    var w2 := React(env, w1, AriaControls, Get(props, "_ariaControls"));
    var w3 := React(env, w2, AriaCurrent, Get(props, "_ariaCurrent"));
    var w4 := React(env, w3, AriaExpanded, Get(props, "_ariaExpanded"));
    var w5 := React(env, w4, AriaLabel, Get(props, "_ariaLabel"));
    var w6 := React(env, w5, CustomClass, Get(props, "_customClass"));
    var w7 := React(env, w6, Disabled, Get(props, "_disabled"));
    var w8 := React(env, w7, Icon, Get(props, "_icon"));
    var w9 := React(env, w8, IconAlign, Get(props, "_iconAlign"));
    var w10 := React(env, w9, IconOnly, Get(props, "_iconOnly"));
    var w11 := React(env, w10, Id, Get(props, "_id"));
    var w12 := React(env, w11, Label, Get(props, "_label"));
    var w13 := React(env, w12, On, Get(props, "_on"));
    var w14 := React(env, w13, TabIndex, Get(props, "_tabIndex"));
    var w15 := React(env, w14, TooltipAlign, Get(props, "_tooltipAlign"));
    var w16 := React(env, w15, Type, Get(props, "_type"));
    React(env, w16, Variant, Get(props, "_variant"))
  }

  /** A watcher adds one helper call on its target key, except `_on`, which adds none. */
  lemma ReactHelperKeys(env: Env, w: View, attr: Attr, value: JsValue)
    ensures HelperKeys(React(env, w, attr, value).trace)
      == HelperKeys(w.trace) + (if attr == On then [] else [TargetKey(attr)])
  {
    match WatchCall(attr, value)
    case None =>
    case Some(c) =>
      var hint := if attr == Disabled && value == Bool(true) then [A11yHintDisabled] else [];
      HelperKeysAppend(w.trace + [Helper(c)], hint);
      HelperKeysAppend(w.trace, [Helper(c)]);
      assert [Helper(c)][1..] == [];
      if hint != [] {
        assert hint[1..] == [];
      }
  }

  /** The `_ariaCurrent` key is no watcher's target. */
  lemma ReactLeavesAriaCurrent(env: Env, w: View, attr: Attr, value: JsValue)
    ensures var r := React(env, w, attr, value);
      ("_ariaCurrent" in r.state <==> "_ariaCurrent" in w.state)
      && Get(r.state, "_ariaCurrent") == Get(w.state, "_ariaCurrent")
  {
    ReactWritesOnlyTarget(env, w, attr, value, "_ariaCurrent");
  }

  /** The aria-current watcher stores what its helper commits under `_ariaControls`. */
  lemma ReactAriaCurrentCommits(env: Env, w: View, value: JsValue)
    ensures var c := WatchCall(AriaCurrent, value).value;
      env.commit(c).Some? ==> Get(React(env, w, AriaCurrent, value).state, "_ariaControls") == env.commit(c).value
  {
  }

  /** Only the aria-controls and aria-current watchers target `_ariaControls`. */
  lemma ReactLeavesAriaControls(env: Env, w: View, attr: Attr, value: JsValue)
    requires attr != AriaControls && attr != AriaCurrent
    ensures Get(React(env, w, attr, value).state, "_ariaControls") == Get(w.state, "_ariaControls")
  {
    ReactWritesOnlyTarget(env, w, attr, value, "_ariaControls");
  }

  /** No watcher writes `_ariaCurrent`: the aria-current watcher writes `_ariaControls`. */
  lemma LoadLeavesAriaCurrent(env: Env, props: map<string, JsValue>, w: View)
    ensures var r := LoadAll(env, props, w);
      ("_ariaCurrent" in r.state <==> "_ariaCurrent" in w.state)
      && Get(r.state, "_ariaCurrent") == Get(w.state, "_ariaCurrent")
  {
    var w1 := React(env, w, AccessKey, Get(props, "_accessKey"));
    var w2 := React(env, w1, AriaControls, Get(props, "_ariaControls"));
    var w3 := React(env, w2, AriaCurrent, Get(props, "_ariaCurrent"));
    var w4 := React(env, w3, AriaExpanded, Get(props, "_ariaExpanded"));
    var w5 := React(env, w4, AriaLabel, Get(props, "_ariaLabel"));
    var w6 := React(env, w5, CustomClass, Get(props, "_customClass"));
    var w7 := React(env, w6, Disabled, Get(props, "_disabled"));
    var w8 := React(env, w7, Icon, Get(props, "_icon"));
    var w9 := React(env, w8, IconAlign, Get(props, "_iconAlign"));
    var w10 := React(env, w9, IconOnly, Get(props, "_iconOnly"));
    var w11 := React(env, w10, Id, Get(props, "_id"));
    var w12 := React(env, w11, Label, Get(props, "_label"));
    var w13 := React(env, w12, On, Get(props, "_on"));
    var w14 := React(env, w13, TabIndex, Get(props, "_tabIndex"));
    var w15 := React(env, w14, TooltipAlign, Get(props, "_tooltipAlign"));
    var w16 := React(env, w15, Type, Get(props, "_type"));
    var w17 := React(env, w16, Variant, Get(props, "_variant"));
    ReactLeavesAriaCurrent(env, w, AccessKey, Get(props, "_accessKey"));
    ReactLeavesAriaCurrent(env, w1, AriaControls, Get(props, "_ariaControls"));
    ReactLeavesAriaCurrent(env, w2, AriaCurrent, Get(props, "_ariaCurrent"));
    ReactLeavesAriaCurrent(env, w3, AriaExpanded, Get(props, "_ariaExpanded"));
    ReactLeavesAriaCurrent(env, w4, AriaLabel, Get(props, "_ariaLabel"));
    ReactLeavesAriaCurrent(env, w5, CustomClass, Get(props, "_customClass"));
    ReactLeavesAriaCurrent(env, w6, Disabled, Get(props, "_disabled"));
    ReactLeavesAriaCurrent(env, w7, Icon, Get(props, "_icon"));
    ReactLeavesAriaCurrent(env, w8, IconAlign, Get(props, "_iconAlign"));
    ReactLeavesAriaCurrent(env, w9, IconOnly, Get(props, "_iconOnly"));
    ReactLeavesAriaCurrent(env, w10, Id, Get(props, "_id"));
    ReactLeavesAriaCurrent(env, w11, Label, Get(props, "_label"));
    ReactLeavesAriaCurrent(env, w12, On, Get(props, "_on"));
    ReactLeavesAriaCurrent(env, w13, TabIndex, Get(props, "_tabIndex"));
    ReactLeavesAriaCurrent(env, w14, TooltipAlign, Get(props, "_tooltipAlign"));
    ReactLeavesAriaCurrent(env, w15, Type, Get(props, "_type"));
    ReactLeavesAriaCurrent(env, w16, Variant, Get(props, "_variant"));
  }

  /**
   * After componentWillLoad, whatever the aria-current watcher committed is
   * what `_ariaControls` holds: the `_ariaControls` attribute is overwritten.
   */
  lemma AriaCurrentOverwritesAriaControls(env: Env, props: map<string, JsValue>, w: View)
    ensures var c := WatchCall(AriaCurrent, Get(props, "_ariaCurrent")).value;
            env.commit(c).Some? ==>
              Get(LoadAll(env, props, w).state, "_ariaControls") == env.commit(c).value
  {
    var w1 := React(env, w, AccessKey, Get(props, "_accessKey"));
    var w2 := React(env, w1, AriaControls, Get(props, "_ariaControls"));
    var w3 := React(env, w2, AriaCurrent, Get(props, "_ariaCurrent"));
    var w4 := React(env, w3, AriaExpanded, Get(props, "_ariaExpanded"));
    var w5 := React(env, w4, AriaLabel, Get(props, "_ariaLabel"));
    var w6 := React(env, w5, CustomClass, Get(props, "_customClass"));
    var w7 := React(env, w6, Disabled, Get(props, "_disabled"));
    var w8 := React(env, w7, Icon, Get(props, "_icon"));
    var w9 := React(env, w8, IconAlign, Get(props, "_iconAlign"));
    var w10 := React(env, w9, IconOnly, Get(props, "_iconOnly"));
    var w11 := React(env, w10, Id, Get(props, "_id"));
    var w12 := React(env, w11, Label, Get(props, "_label"));
    var w13 := React(env, w12, On, Get(props, "_on"));
    var w14 := React(env, w13, TabIndex, Get(props, "_tabIndex"));
    var w15 := React(env, w14, TooltipAlign, Get(props, "_tooltipAlign"));
    var w16 := React(env, w15, Type, Get(props, "_type"));
    var w17 := React(env, w16, Variant, Get(props, "_variant"));
    ReactAriaCurrentCommits(env, w2, Get(props, "_ariaCurrent"));
    ReactLeavesAriaControls(env, w3, AriaExpanded, Get(props, "_ariaExpanded"));
    ReactLeavesAriaControls(env, w4, AriaLabel, Get(props, "_ariaLabel"));
    ReactLeavesAriaControls(env, w5, CustomClass, Get(props, "_customClass"));
    ReactLeavesAriaControls(env, w6, Disabled, Get(props, "_disabled"));
    ReactLeavesAriaControls(env, w7, Icon, Get(props, "_icon"));
    ReactLeavesAriaControls(env, w8, IconAlign, Get(props, "_iconAlign"));
    ReactLeavesAriaControls(env, w9, IconOnly, Get(props, "_iconOnly"));
    ReactLeavesAriaControls(env, w10, Id, Get(props, "_id"));
    ReactLeavesAriaControls(env, w11, Label, Get(props, "_label"));
    ReactLeavesAriaControls(env, w12, On, Get(props, "_on"));
    ReactLeavesAriaControls(env, w13, TabIndex, Get(props, "_tabIndex"));
    ReactLeavesAriaControls(env, w14, TooltipAlign, Get(props, "_tooltipAlign"));
    ReactLeavesAriaControls(env, w15, Type, Get(props, "_type"));
    ReactLeavesAriaControls(env, w16, Variant, Get(props, "_variant"));
  }

  /**
   * The keys of the helper calls componentWillLoad makes, in order: one per
   * watcher, `_ariaControls` twice (aria-controls, then aria-current), and
   * none for `_on`.
   */
  const LoadHelperOrder: seq<string> :=
    ["_accessKey", "_ariaControls", "_ariaControls", "_ariaExpanded", "_ariaLabel", "_customClass",
     "_disabled", "_icon", "_iconAlign", "_iconOnly", "_id", "_label", "_tabIndex", "_tooltipAlign",
     "_type", "_variant"]

  /** The keys of the order are the targets of the helper watchers, in declaration order. */
  lemma LoadHelperOrderIsTargets()
    ensures LoadHelperOrder == [
      TargetKey(AccessKey), TargetKey(AriaControls), TargetKey(AriaCurrent),
      TargetKey(AriaExpanded), TargetKey(AriaLabel), TargetKey(CustomClass), TargetKey(Disabled),
      TargetKey(Icon), TargetKey(IconAlign), TargetKey(IconOnly), TargetKey(Id), TargetKey(Label),
      TargetKey(TabIndex), TargetKey(TooltipAlign), TargetKey(Type), TargetKey(Variant)]
  {
  }

  /** Four single appends are one append of the four. */
  lemma AppendFour(k: seq<string>, k0: string, k1: string, k2: string, k3: string)
    ensures k + [k0] + [k1] + [k2] + [k3] == k + [k0, k1, k2, k3]
  {
  }

  /** Four appends of four are one append of the sixteen. */
  lemma AppendFourFours(k: seq<string>,
                        k0: string, k1: string, k2: string, k3: string, k4: string, k5: string,
                        k6: string, k7: string, k8: string, k9: string, k10: string, k11: string,
                        k12: string, k13: string, k14: string, k15: string)
    ensures k + [k0, k1, k2, k3] + [k4, k5, k6, k7] + [k8, k9, k10, k11] + [k12, k13, k14, k15]
      == k + [k0, k1, k2, k3, k4, k5, k6, k7, k8, k9, k10, k11, k12, k13, k14, k15]
  {
  }

  /** The watchers of `_accessKey`, `_ariaControls`, `_ariaCurrent` and `_ariaExpanded`, in that order. */
  function LoadAriaSteps(env: Env, props: map<string, JsValue>, w: View): (r: View)
  {
    var w1 := React(env, w, AccessKey, Get(props, "_accessKey"));
    var w2 := React(env, w1, AriaControls, Get(props, "_ariaControls"));
    var w3 := React(env, w2, AriaCurrent, Get(props, "_ariaCurrent"));
    React(env, w3, AriaExpanded, Get(props, "_ariaExpanded"))
  }

  /** The helper keys of those watchers, in order. */
  lemma LoadAriaStepsKeys(env: Env, props: map<string, JsValue>, w: View)
    ensures HelperKeys(LoadAriaSteps(env, props, w).trace) == HelperKeys(w.trace) + [
      TargetKey(AccessKey), TargetKey(AriaControls), TargetKey(AriaCurrent), TargetKey(AriaExpanded)]
  {
    var w1 := React(env, w, AccessKey, Get(props, "_accessKey"));
    var w2 := React(env, w1, AriaControls, Get(props, "_ariaControls"));
    var w3 := React(env, w2, AriaCurrent, Get(props, "_ariaCurrent"));
    ReactHelperKeys(env, w, AccessKey, Get(props, "_accessKey"));
    ReactHelperKeys(env, w1, AriaControls, Get(props, "_ariaControls"));
    ReactHelperKeys(env, w2, AriaCurrent, Get(props, "_ariaCurrent"));
    ReactHelperKeys(env, w3, AriaExpanded, Get(props, "_ariaExpanded"));
    AppendFour(HelperKeys(w.trace),
      TargetKey(AccessKey), TargetKey(AriaControls), TargetKey(AriaCurrent), TargetKey(AriaExpanded));
  }

  /** The watchers of `_ariaLabel`, `_customClass`, `_disabled` and `_icon`, in that order. */
  function LoadLookSteps(env: Env, props: map<string, JsValue>, w: View): (r: View)
  {
    var w1 := React(env, w, AriaLabel, Get(props, "_ariaLabel"));
    var w2 := React(env, w1, CustomClass, Get(props, "_customClass"));
    var w3 := React(env, w2, Disabled, Get(props, "_disabled"));
    React(env, w3, Icon, Get(props, "_icon"))
  }

  /** The helper keys of those watchers, in order. */
  lemma LoadLookStepsKeys(env: Env, props: map<string, JsValue>, w: View)
    ensures HelperKeys(LoadLookSteps(env, props, w).trace) == HelperKeys(w.trace) + [
      TargetKey(AriaLabel), TargetKey(CustomClass), TargetKey(Disabled), TargetKey(Icon)]
  {
    var w1 := React(env, w, AriaLabel, Get(props, "_ariaLabel"));
    var w2 := React(env, w1, CustomClass, Get(props, "_customClass"));
    var w3 := React(env, w2, Disabled, Get(props, "_disabled"));
    ReactHelperKeys(env, w, AriaLabel, Get(props, "_ariaLabel"));
    ReactHelperKeys(env, w1, CustomClass, Get(props, "_customClass"));
    ReactHelperKeys(env, w2, Disabled, Get(props, "_disabled"));
    ReactHelperKeys(env, w3, Icon, Get(props, "_icon"));
    AppendFour(HelperKeys(w.trace),
      TargetKey(AriaLabel), TargetKey(CustomClass), TargetKey(Disabled), TargetKey(Icon));
  }

  /** The watchers of `_iconAlign`, `_iconOnly`, `_id` and `_label`, in that order. */
  function LoadLabelSteps(env: Env, props: map<string, JsValue>, w: View): (r: View)
  {
    var w1 := React(env, w, IconAlign, Get(props, "_iconAlign"));
    var w2 := React(env, w1, IconOnly, Get(props, "_iconOnly"));
    var w3 := React(env, w2, Id, Get(props, "_id"));
    React(env, w3, Label, Get(props, "_label"))
  }

  /** The helper keys of those watchers, in order. */
  lemma LoadLabelStepsKeys(env: Env, props: map<string, JsValue>, w: View)
    ensures HelperKeys(LoadLabelSteps(env, props, w).trace) == HelperKeys(w.trace) + [
      TargetKey(IconAlign), TargetKey(IconOnly), TargetKey(Id), TargetKey(Label)]
  {
    var w1 := React(env, w, IconAlign, Get(props, "_iconAlign"));
    var w2 := React(env, w1, IconOnly, Get(props, "_iconOnly"));
    var w3 := React(env, w2, Id, Get(props, "_id"));
    ReactHelperKeys(env, w, IconAlign, Get(props, "_iconAlign"));
    ReactHelperKeys(env, w1, IconOnly, Get(props, "_iconOnly"));
    ReactHelperKeys(env, w2, Id, Get(props, "_id"));
    ReactHelperKeys(env, w3, Label, Get(props, "_label"));
    AppendFour(HelperKeys(w.trace),
      TargetKey(IconAlign), TargetKey(IconOnly), TargetKey(Id), TargetKey(Label));
  }

  /** The watchers of `_on`, `_tabIndex`, `_tooltipAlign`, `_type` and `_variant`, in that order. */
  function LoadActionSteps(env: Env, props: map<string, JsValue>, w: View): (r: View)
  {
    var w1 := React(env, w, On, Get(props, "_on"));
    var w2 := React(env, w1, TabIndex, Get(props, "_tabIndex"));
    var w3 := React(env, w2, TooltipAlign, Get(props, "_tooltipAlign"));
    var w4 := React(env, w3, Type, Get(props, "_type"));
    React(env, w4, Variant, Get(props, "_variant"))
  }

  /** The helper keys of those watchers, in order. */
  lemma LoadActionStepsKeys(env: Env, props: map<string, JsValue>, w: View)
    ensures HelperKeys(LoadActionSteps(env, props, w).trace) == HelperKeys(w.trace) + [
      TargetKey(TabIndex), TargetKey(TooltipAlign), TargetKey(Type), TargetKey(Variant)]
  {
    var w1 := React(env, w, On, Get(props, "_on"));
    var w2 := React(env, w1, TabIndex, Get(props, "_tabIndex"));
    var w3 := React(env, w2, TooltipAlign, Get(props, "_tooltipAlign"));
    var w4 := React(env, w3, Type, Get(props, "_type"));
    ReactHelperKeys(env, w, On, Get(props, "_on"));
    ReactHelperKeys(env, w1, TabIndex, Get(props, "_tabIndex"));
    ReactHelperKeys(env, w2, TooltipAlign, Get(props, "_tooltipAlign"));
    ReactHelperKeys(env, w3, Type, Get(props, "_type"));
    ReactHelperKeys(env, w4, Variant, Get(props, "_variant"));
    AppendFour(HelperKeys(w.trace),
      TargetKey(TabIndex), TargetKey(TooltipAlign), TargetKey(Type), TargetKey(Variant));
  }

  /** componentWillLoad calls the helpers on exactly the keys of the order, in that order. */
  lemma LoadHelperKeys(env: Env, props: map<string, JsValue>, w: View)
    ensures HelperKeys(LoadAll(env, props, w).trace) == HelperKeys(w.trace) + LoadHelperOrder
  {
    var w4 := LoadAriaSteps(env, props, w);
    var w8 := LoadLookSteps(env, props, w4);
    var w12 := LoadLabelSteps(env, props, w8);
    assert LoadAll(env, props, w) == LoadActionSteps(env, props, w12);
    LoadAriaStepsKeys(env, props, w);
    LoadLookStepsKeys(env, props, w4);
    LoadLabelStepsKeys(env, props, w8);
    LoadActionStepsKeys(env, props, w12);
    AppendFourFours(HelperKeys(w.trace),
      TargetKey(AccessKey), TargetKey(AriaControls), TargetKey(AriaCurrent),
      TargetKey(AriaExpanded), TargetKey(AriaLabel), TargetKey(CustomClass), TargetKey(Disabled),
      TargetKey(Icon), TargetKey(IconAlign), TargetKey(IconOnly), TargetKey(Id), TargetKey(Label),
      TargetKey(TabIndex), TargetKey(TooltipAlign), TargetKey(Type), TargetKey(Variant));
    LoadHelperOrderIsTargets();
  }

  /**
   * The aria-current hint names `data`, which is rejected, and omits `date`,
   * which is accepted.
   */
  lemma AriaCurrentHintMisnamesDate(t: string)
    ensures (t in AriaCurrentListed && !Accepts(AriaCurrentValue, Str(t))) <==> t == "data"
    ensures (Accepts(AriaCurrentValue, Str(t)) && t !in AriaCurrentListed) <==> t == "date"
  {
  }

  // ---------------------------------------------------------------------------
  // Click dispatch

  /** The branch `onClick` takes. */
  datatype ClickAction = SubmitForm | ResetForm | CallHandler(handler: JsValue) | HintMissingCallback

  /** `state._on?.onClick` */
  function ClickHandler(s: State): (r: JsValue)
  {
    Member(Get(s, "_on"), "onClick")
  }

  const NoCallbackHint: string := "It is no button click callback configured!"

  /** The branch chosen: submit, then reset, then a callable `_on.onClick`, else a hint. */
  function ChooseClick(s: State): (a: ClickAction)
    ensures a.SubmitForm? <==> Get(s, "_type") == Str("submit")
    ensures a.ResetForm? <==> Get(s, "_type") != Str("submit") && Get(s, "_type") == Str("reset")
    ensures a.CallHandler? <==>
      Get(s, "_type") != Str("submit") && Get(s, "_type") != Str("reset") && ClickHandler(s).Fn?
    ensures a.CallHandler? ==> a.handler == ClickHandler(s)
  {
    if Get(s, "_type") == Str("submit") then SubmitForm
    else if Get(s, "_type") == Str("reset") then ResetForm
    else if TypeOf(ClickHandler(s)) == "function" then CallHandler(ClickHandler(s))
    else HintMissingCallback
  }

  /** The events of each branch. */
  function ClickEvents(a: ClickAction): (r: seq<Event>)
  {
    match a
    case SubmitForm => [SubmitToForm]
    case ResetForm => [ResetToForm]
    case CallHandler(h) => [StopPropagation, Invoke(h)]
    case HintMissingCallback => [DevHint(NoCallbackHint)]
  }

  /** An event that is the outcome of a click: a form propagation, a callback or the hint. */
  predicate IsClickOutcome(e: Event)
  {
    e.SubmitToForm? || e.ResetToForm? || e.Invoke? || e.DevHint?
  }

  function ClickOutcomes(t: seq<Event>): (r: seq<Event>)
    ensures forall i :: 0 <= i < |r| ==> IsClickOutcome(r[i])
  {
    if t == [] then [] else (if IsClickOutcome(t[0]) then [t[0]] else []) + ClickOutcomes(t[1..])
  }

  /** A click has exactly one outcome, and the callback is called only for a function. */
  lemma ClickHasOneOutcome(s: State)
    ensures |ClickOutcomes(ClickEvents(ChooseClick(s)))| == 1
    ensures forall i :: 0 <= i < |ClickEvents(ChooseClick(s))| ==>
      ClickEvents(ChooseClick(s))[i].Invoke? ==> ClickEvents(ChooseClick(s))[i].handler.Fn?
  {
    var t := ClickEvents(ChooseClick(s));
    if |t| == 2 {
      assert t[1..] == [t[1]] && t[1..][1..] == [];
      assert ClickOutcomes(t[1..]) == [t[1]];
    } else {
      assert t[1..] == [];
    }
  }

  // ---------------------------------------------------------------------------
  // Rendering: ARIA attributes, tooltip and classes

  /** `_ariaLabel || _label`: the text read out, shown in the tooltip and the span. */
  function SpokenLabel(s: State): (r: JsValue)
  {
    Or(Get(s, "_ariaLabel"), Get(s, "_label"))
  }

  /** The aria-label attribute (undefined leaves it out). */
  function AriaLabelOf(s: State): (r: JsValue)
  {
    if Get(s, "_iconOnly") == Bool(false) then SpokenLabel(s) else Undefined
  }

  /** The aria-labelledby attribute (`None` leaves it out). */
  function AriaLabelledByOf(s: State, nonce: string): (r: Option<string>)
  {
    if Get(s, "_iconOnly") == Bool(true) then Some(nonce) else None
  }

  datatype Tooltip = Tooltip(align: JsValue, id: string, text: JsValue)

  /** The kol-tooltip element, rendered only for an icon-only button. */
  function TooltipOf(s: State, nonce: string): (r: Option<Tooltip>)
  {
    if Get(s, "_iconOnly") == Bool(true) then Some(Tooltip(Get(s, "_tooltipAlign"), nonce, SpokenLabel(s))) else None
  }

  /**
   * A button whose `_iconOnly` is a boolean and whose label text is not
   * empty gets exactly one accessible name: aria-label when it shows its
   * text, aria-labelledby otherwise; any other `_iconOnly` gives neither.
   */
  lemma AccessibleNameIsUnique(s: State, nonce: string)
    ensures Get(s, "_iconOnly").Bool? && Truthy(SpokenLabel(s)) ==>
      (AriaLabelOf(s) != Undefined <==> AriaLabelledByOf(s, nonce).None?)
    ensures !Get(s, "_iconOnly").Bool? ==> AriaLabelOf(s) == Undefined && AriaLabelledByOf(s, nonce).None?
    ensures AriaLabelOf(s) != Undefined ==> AriaLabelOf(s) == SpokenLabel(s)
    ensures Get(s, "_iconOnly") == Bool(false) ==> AriaLabelOf(s) == SpokenLabel(s)
    ensures Get(s, "_iconOnly") != Bool(false) ==> AriaLabelOf(s) == Undefined
    ensures TooltipOf(s, nonce).Some? <==> Get(s, "_iconOnly") == Bool(true)
  {
  }

  /** aria-labelledby always names a rendered tooltip that carries the spoken label. */
  lemma LabelledByNamesTheTooltip(s: State, nonce: string)
    ensures AriaLabelledByOf(s, nonce).Some? <==> TooltipOf(s, nonce).Some?
    ensures TooltipOf(s, nonce).Some? ==>
      TooltipOf(s, nonce).value.id == AriaLabelledByOf(s, nonce).value == nonce
      && TooltipOf(s, nonce).value.text == SpokenLabel(s)
  {
  }

  /**
   * The class object `{[variant]: ..., [customClass]: ..., 'icon-only': ...}`:
   * computed keys are converted to strings and a later key overwrites an
   * earlier equal one.
   */
  function ClassMap(s: State): (r: map<string, bool>)
  {
    var variant := Get(s, "_variant");
    var custom := Get(s, "_customClass");
    map[ToStr(variant) := variant != Str("custom")]
       [ToStr(custom) := variant == Str("custom") && TypeOf(custom) == "string" && |custom.s| > 0]
       ["icon-only" := Get(s, "_iconOnly") == Bool(true)]
  }

  /** The class names rendered: the keys whose value is true. */
  function Classes(s: State): (r: set<string>)
  {
    set k | k in ClassMap(s) && ClassMap(s)[k]
  }

  /** With three different class names each class is set exactly under its own condition. */
  lemma ClassesWhenNamesDiffer(s: State)
    requires ToStr(Get(s, "_variant")) != ToStr(Get(s, "_customClass"))
    requires ToStr(Get(s, "_variant")) != "icon-only" && ToStr(Get(s, "_customClass")) != "icon-only"
    ensures ToStr(Get(s, "_variant")) in Classes(s) <==> Get(s, "_variant") != Str("custom")
    ensures ToStr(Get(s, "_customClass")) in Classes(s) <==>
      Get(s, "_variant") == Str("custom") && Get(s, "_customClass").Str? && |Get(s, "_customClass").s| > 0
    ensures "icon-only" in Classes(s) <==> Get(s, "_iconOnly") == Bool(true)
  {
  }

  /** A variant named like the icon-only class loses its class to the later key. */
  lemma VariantClassCanBeOverwritten()
    ensures var s := map["_variant" := Str("icon-only"), "_iconOnly" := Bool(false)];
            Get(s, "_variant") != Str("custom") && "icon-only" !in Classes(s)
  {
    var s := map["_variant" := Str("icon-only"), "_iconOnly" := Bool(false)];
    assert ClassMap(s)["icon-only"] == false;
  }

  // ---------------------------------------------------------------------------
  // The component

  class ButtonWc {
    const env: Env
    /** The id the tooltip gets and aria-labelledby refers to. */
    const nonce: string
    /** The attribute values the host has set before the component loads. */
    const props: map<string, JsValue>
    var state: State
    var trace: seq<Event>

    /** A new instance whose host has set the attributes `attrs`. */
    constructor (env: Env, nonce: string, attrs: map<string, JsValue>)
      ensures this.env == env && this.nonce == nonce
      ensures props == DefaultProps() + attrs
      ensures state == InitialState() && trace == []
      ensures "_ariaCurrent" !in state
    {
      this.env := env;
      this.nonce := nonce;
      props := DefaultProps() + attrs;
      state := InitialState();
      trace := [];
    }

    /** The call of one validation helper and the patch it performs. */
    method RunHelper(c: Call)
      modifies this`state, this`trace
      ensures state == Commit(env, old(state), c)
      ensures trace == old(trace) + [Helper(c)]
    {
      trace := trace + [Helper(c)];
      state := Commit(env, state, c);
    }

    method ValidateAccessKey(value: JsValue)
      modifies this`state, this`trace
      ensures View(state, trace) == React(env, View(old(state), old(trace)), AccessKey, value)
    {
      RunHelper(Call(WatchString, "_accessKey", value, NoOptions));
    }

    method ValidateAriaControls(value: JsValue)
      modifies this`state, this`trace
      ensures View(state, trace) == React(env, View(old(state), old(trace)), AriaControls, value)
    {
      RunHelper(Call(WatchString, "_ariaControls", value, NoOptions));
    }

    method ValidateAriaCurrent(value: JsValue)
      modifies this`state, this`trace
      ensures View(state, trace) == React(env, View(old(state), old(trace)), AriaCurrent, value)
      ensures forall k :: k != "_ariaControls" ==> Get(state, k) == Get(old(state), k)
    {
      RunHelper(Call(WatchValidator(AriaCurrentValue, AriaCurrentExpected), "_ariaControls", value, NoOptions));
    }

    method ValidateAriaExpanded(value: JsValue)
      modifies this`state, this`trace
      ensures View(state, trace) == React(env, View(old(state), old(trace)), AriaExpanded, value)
    {
      RunHelper(Call(WatchBoolean, "_ariaExpanded", value, NoOptions));
    }

    method ValidateAriaLabel(value: JsValue)
      modifies this`state, this`trace
      ensures View(state, trace) == React(env, View(old(state), old(trace)), AriaLabel, value)
    {
      RunHelper(Call(Validation.ValidateAriaLabel, "_ariaLabel", value, NoOptions));
    }

    method ValidateCustomClass(value: JsValue)
      modifies this`state, this`trace
      ensures View(state, trace) == React(env, View(old(state), old(trace)), CustomClass, value)
    {
      RunHelper(Call(WatchString, "_customClass", value, Options(Some(Undefined), None, None)));
    }

    /** The boolean watch, then the disabled hint exactly when the value is `true`. */
    method ValidateDisabled(value: JsValue)
      modifies this`state, this`trace
      ensures View(state, trace) == React(env, View(old(state), old(trace)), Disabled, value)
      ensures trace == old(trace) + [Helper(Call(WatchBoolean, "_disabled", value, NoOptions))]
                      + (if value == Bool(true) then [A11yHintDisabled] else [])
    {
      RunHelper(Call(WatchBoolean, "_disabled", value, NoOptions));
      if value == Bool(true) {
        trace := trace + [A11yHintDisabled];
      }
    }

    method ValidateIcon(value: JsValue)
      modifies this`state, this`trace
      ensures View(state, trace) == React(env, View(old(state), old(trace)), Icon, value)
    {
      RunHelper(Call(Validation.ValidateIcon, "_icon", value, NoOptions));
    }

    method ValidateIconAlign(value: JsValue)
      modifies this`state, this`trace
      ensures View(state, trace) == React(env, View(old(state), old(trace)), IconAlign, value)
    {
      RunHelper(Call(WatchIconAlign, "_iconAlign", value, NoOptions));
    }

    method ValidateIconOnly(value: JsValue)
      modifies this`state, this`trace
      ensures View(state, trace) == React(env, View(old(state), old(trace)), IconOnly, value)
    {
      RunHelper(Call(WatchBoolean, "_iconOnly", value, Options(Some(Bool(false)), None, None)));
    }

    method ValidateId(value: JsValue)
      modifies this`state, this`trace
      ensures View(state, trace) == React(env, View(old(state), old(trace)), Id, value)
    {
      RunHelper(Call(WatchString, "_id", value, NoOptions));
    }

    method ValidateLabel(value: JsValue)
      modifies this`state, this`trace
      ensures View(state, trace) == React(env, View(old(state), old(trace)), Label, value)
    {
      RunHelper(Call(Validation.ValidateLabel, "_label", value, NoOptions));
    }

    /** `_on` is merged into the state when it is a non-null object, else ignored. */
    method ValidateOn(value: JsValue)
      modifies this`state
      ensures View(state, trace) == React(env, View(old(state), old(trace)), On, value)
      ensures state == if IsObject(value) then old(state)["_on" := value] else old(state)
    {
      if IsObject(value) {
        state := state["_on" := value];
      }
    }

    method ValidateTabIndex(value: JsValue)
      modifies this`state, this`trace
      ensures View(state, trace) == React(env, View(old(state), old(trace)), TabIndex, value)
    {
      RunHelper(Call(Validation.ValidateTabIndex, "_tabIndex", value, NoOptions));
    }

    method ValidateTooltipAlign(value: JsValue)
      modifies this`state, this`trace
      ensures View(state, trace) == React(env, View(old(state), old(trace)), TooltipAlign, value)
    {
      RunHelper(Call(WatchTooltipAlignment, "_tooltipAlign", value, NoOptions));
    }

    method ValidateType(value: JsValue)
      modifies this`state, this`trace
      ensures View(state, trace) == React(env, View(old(state), old(trace)), Type, value)
    {
      RunHelper(Call(WatchButtonType, "_type", value, NoOptions));
    }

    method ValidateVariant(value: JsValue)
      modifies this`state, this`trace
      ensures View(state, trace) == React(env, View(old(state), old(trace)), Variant, value)
    {
      RunHelper(Call(WatchButtonVariant, "_variant", value, NoOptions));
    }

    /** All seventeen watchers, once each, in declaration order. */
    method ComponentWillLoad()
      modifies this`state, this`trace
      ensures View(state, trace) == LoadAll(env, props, View(old(state), old(trace)))
      ensures HelperKeys(trace) == HelperKeys(old(trace)) + LoadHelperOrder
    {
      ValidateAccessKey(Get(props, "_accessKey"));
      ValidateAriaControls(Get(props, "_ariaControls"));
      ValidateAriaCurrent(Get(props, "_ariaCurrent"));
      ValidateAriaExpanded(Get(props, "_ariaExpanded"));
      ValidateAriaLabel(Get(props, "_ariaLabel"));
      ValidateCustomClass(Get(props, "_customClass"));
      ValidateDisabled(Get(props, "_disabled"));
      ValidateIcon(Get(props, "_icon"));
      ValidateIconAlign(Get(props, "_iconAlign"));
      ValidateIconOnly(Get(props, "_iconOnly"));
      ValidateId(Get(props, "_id"));
      ValidateLabel(Get(props, "_label"));
      ValidateOn(Get(props, "_on"));
      ValidateTabIndex(Get(props, "_tabIndex"));
      ValidateTooltipAlign(Get(props, "_tooltipAlign"));
      ValidateType(Get(props, "_type"));
      ValidateVariant(Get(props, "_variant"));
      LoadHelperKeys(env, props, View(old(state), old(trace)));
    }

    /** The click handler: exactly the events of the branch `ChooseClick` picks. */
    method OnClick()
      modifies this`trace
      ensures trace == old(trace) + ClickEvents(ChooseClick(state))
    {
      if Get(state, "_type") == Str("submit") {
        trace := trace + [SubmitToForm];
      } else if Get(state, "_type") == Str("reset") {
        trace := trace + [ResetToForm];
      } else if TypeOf(Member(Get(state, "_on"), "onClick")) == "function" {
        trace := trace + [StopPropagation, Invoke(Member(Get(state, "_on"), "onClick"))];
      } else {
        trace := trace + [DevHint(NoCallbackHint)];
      }
    }
  }
}
