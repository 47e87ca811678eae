/**
 * The shared property-validation vocabulary of the components: the state
 * record, the calls the watchers make to the generic validation helpers
 * (watchString, watchBoolean, watchValidator, watchJsonArrayString and the
 * per-prop validators), their options and hooks, and the events a component
 * emits (helper calls, developer and accessibility hints, DOM effects).
 *
 * The helpers' bodies are not part of this model. What the model fixes is
 * their call shape (which helper, which state key, which value, which
 * options) and that a helper writes at most the one key it is given. Which
 * value a helper commits, if any, is decided by `Env.commit`; the other
 * foreign functions the components call are injected through `Env` as well.
 */
module Validation {
  import opened Js

  /** A component's `state` object: keys that are absent read as undefined. */
  type State = map<string, JsValue>

  function Get(s: State, key: string): (v: JsValue)
  {
    if key in s then s[key] else Undefined
  }

  /** The acceptance predicates the components pass to the helpers. */
  datatype Predicate =
    | AriaCurrentValue   // button: validateAriaCurrent
    | OnOffValue         // input-color: validateAutoComplete
    | StringItem         // input-color: validateList, per item

  predicate Accepts(p: Predicate, v: JsValue)
  {
    match p
    case AriaCurrentValue =>
      v == Bool(true) || v == Str("date") || v == Str("location") || v == Str("page")
      || v == Str("step") || v == Str("time")
    case OnOffValue => TypeOf(v) == "string" && (v == Str("on") || v == Str("off"))
    case StringItem => TypeOf(v) == "string"
  }

  /** The generic helpers the watchers delegate to. */
  datatype Helper =
    | WatchString
    | WatchBoolean
    | WatchValidator(accepts: Predicate, expected: set<string>)
    | WatchJsonArrayString(itemAccepts: Predicate)
    | ValidateAriaLabel
    | ValidateLabel
    | ValidateIcon
    | WatchIconAlign
    | ValidateTabIndex
    | WatchTooltipAlignment
    | WatchButtonType
    | WatchButtonVariant
    | ValidateColor
    | ValidateAlignment
    | ValidateOpen
    | ValidateShow

  /** The hook functions a component hands to a helper. */
  datatype Hook = BadgeColorChange | BadgeLabelLength

  /**
   * The options object: `defaultValue` is `None` when the option is not
   * given at all, `Some(Undefined)` for an explicit `defaultValue: undefined`.
   */
  datatype Options = Options(defaultValue: Option<JsValue>, beforePatch: Option<Hook>, afterPatch: Option<Hook>)

  const NoOptions: Options := Options(None, None, None)

  /** One call of a helper: `helper(component, key, value, options)`. */
  datatype Call = Call(helper: Helper, key: string, value: JsValue, options: Options)

  /** The result of the colour helper: a background and a readable foreground. */
  datatype ColorPair = ColorPair(backgroundColor: string, foregroundColor: string)

  /**
   * The foreign code the components call, as total functions:
   * - `commit(c)`: the value the helper of call `c` writes under `c.key`,
   *   or `None` when it writes nothing;
   * - `colorPair`: the colour helper `handleColorChange`;
   * - `parseJson(v)`: the parsed value, or `None` when parsing throws;
   * - `objectHandlerRuns(v)`: whether `objectObjectHandler` runs its callback;
   * - `inheritedLoad(props, s)`: the state the inherited input controller's
   *   `componentWillLoad` leaves, from the component's attributes and state;
   * - `testEnvironment`: whether the process environment is 'test'.
   */
  datatype Env = Env(
    commit: Call -> Option<JsValue>,
    colorPair: JsValue -> ColorPair,
    parseJson: JsValue -> Option<JsValue>,
    objectHandlerRuns: JsValue -> bool,
    inheritedLoad: (map<string, JsValue>, State) -> State,
    testEnvironment: bool)

  /**
   * The state patch a helper call performs: a shallow merge of
   * `{[c.key]: committed value}` into the state, or no change.
   */
  function Commit(env: Env, s: State, c: Call): (r: State)
    ensures forall k :: k != c.key ==> (k in r <==> k in s) && Get(r, k) == Get(s, k)
    ensures env.commit(c).None? ==> r == s
    ensures env.commit(c).Some? ==> c.key in r && r[c.key] == env.commit(c).value
  {
    match env.commit(c)
    case None => s
    case Some(v) => s[c.key := v]
  }

  /** The callback `showPopover` hands to the popover's alignment. */
  datatype Callback = ShowWhenAligned

  /** What a component does that the state does not record. */
  datatype Event =
    | Helper(call: Call)                        // a call of a validation helper
    | DevHint(text: string)                     // developer hint channel
    | A11yHint(text: string)                    // accessibility hint channel
    | A11yHintDisabled                          // the shared "disabled control" a11y hint
    | SubmitToForm                              // propergateSubmitEventToForm
    | ResetToForm                               // propergateResetEventToForm
    | StopPropagation                           // setEventTargetAndStopPropagation
    | Invoke(handler: JsValue)                  // a user callback is called
    | InheritedWillLoad                         // the super class's componentWillLoad
    | AddBodyListeners                          // keyup, click and scroll listeners added
    | RemoveBodyListeners                       // ... and removed
    | FocusTrigger                              // triggerElement.focus()
    | ComputePosition(placement: JsValue, callBack: Option<Callback>)  // async geometry request

  /** The keys of the helper calls in a trace, in order. */
  function HelperKeys(t: seq<Event>): (r: seq<string>)
    ensures |r| <= |t|
  {
    if t == [] then []
    else (if t[0].Helper? then [t[0].call.key] else []) + HelperKeys(t[1..])
  }

  lemma {:induction false} HelperKeysAppend(a: seq<Event>, b: seq<Event>)
    ensures HelperKeys(a + b) == HelperKeys(a) + HelperKeys(b)
    decreases |a|
  {
    if a == [] {
      assert a + b == b;
    } else {
      assert (a + b)[0] == a[0] && (a + b)[1..] == a[1..] + b;
      HelperKeysAppend(a[1..], b);
    }
  }
}
