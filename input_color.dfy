/**
 * The controller of kol-input-color: the watchers of the colour input's own
 * attributes, on top of the generic input controller it extends.
 *
 * `_autoComplete` is validated against the strings 'on' and 'off',
 * `_list` as a JSON array of strings, and `_value` as a string, except that
 * `null` is written to the component's state directly, without a helper.
 * The controller does not own the state: it writes the state of the
 * component it was created for.
 */
module InputColor {
  import opened Js
  import opened Validation

  /** The accepted-values description handed to watchValidator for `_autoComplete`. */
  const OnOffExpected: set<string> := {"on | off"}

  function AutoCompleteCall(value: JsValue): (r: Call)
  {
    Call(WatchValidator(OnOffValue, OnOffExpected), "_autoComplete", value, NoOptions)
  }

  function ListCall(value: JsValue): (r: Call)
  {
    Call(WatchJsonArrayString(StringItem), "_list", value, NoOptions)
  }

  function ValueCall(value: JsValue): (r: Call)
  {
    Call(WatchString, "_value", value, NoOptions)
  }

  /** The `_autoComplete` predicate accepts exactly 'on' and 'off'; a list item, exactly a string. */
  lemma PredicatesAccept(v: JsValue)
    ensures Accepts(AutoCompleteCall(v).helper.accepts, v) <==> v == Str("on") || v == Str("off")
    ensures Accepts(ListCall(v).helper.itemAccepts, v) <==> v.Str?
  {
  }

  /** The state `validateValue` leaves: `null` directly, anything else through watchString. */
  function ValueState(env: Env, s: State, value: JsValue): (r: State)
  {
    if value == Null then s["_value" := Null] else Commit(env, s, ValueCall(value))
  }

  /** The helper calls `validateValue` makes: none for `null`. */
  function ValueEvents(value: JsValue): (r: seq<Event>)
  {
    if value == Null then [] else [Helper(ValueCall(value))]
  }

  /**
   * `validateValue` writes `_value` and no other key; for `null` it writes
   * `null` whatever the helpers would do, and for anything else it writes
   * what watchString commits.
   */
  lemma ValueWritesOnlyValue(env: Env, other: Env, s: State, value: JsValue)
    ensures forall k :: k != "_value" ==> Get(ValueState(env, s, value), k) == Get(s, k)
    ensures value == Null ==>
      Get(ValueState(env, s, value), "_value") == Null && ValueState(env, s, value) == ValueState(other, s, value)
    ensures value != Null && env.commit(ValueCall(value)).Some? ==>
      Get(ValueState(env, s, value), "_value") == env.commit(ValueCall(value)).value
    ensures value != Null && env.commit(ValueCall(value)).None? ==> ValueState(env, s, value) == s
    ensures |ValueEvents(value)| == 0 <==> value == Null
  {
  }

  /** The state componentWillLoad leaves: the inherited load, then autoComplete, list and value. */
  function LoadState(env: Env, props: map<string, JsValue>, s: State): (r: State)
  {
    var s0 := env.inheritedLoad(props, s);
    var s1 := Commit(env, s0, AutoCompleteCall(Get(props, "_autoComplete")));
    var s2 := Commit(env, s1, ListCall(Get(props, "_list")));
    ValueState(env, s2, Get(props, "_value"))
  }

  /** What componentWillLoad emits, in order. */
  function LoadEvents(props: map<string, JsValue>): (r: seq<Event>)
  {
    [InheritedWillLoad, Helper(AutoCompleteCall(Get(props, "_autoComplete"))), Helper(ListCall(Get(props, "_list")))]
    + ValueEvents(Get(props, "_value"))
  }

  /**
   * The inherited load comes first, then the three helpers on their own
   * keys; a `null` value survives whatever the earlier steps stored.
   */
  lemma LoadOrder(env: Env, props: map<string, JsValue>, s: State)
    ensures LoadEvents(props)[0] == InheritedWillLoad
    ensures HelperKeys(LoadEvents(props)) ==
      ["_autoComplete", "_list"] + (if Get(props, "_value") == Null then [] else ["_value"])
    ensures Get(props, "_value") == Null ==> Get(LoadState(env, props, s), "_value") == Null
    ensures forall k :: k != "_autoComplete" && k != "_list" && k != "_value" ==>
      Get(LoadState(env, props, s), k) == Get(env.inheritedLoad(props, s), k)
  {
    var t := LoadEvents(props);
    var head := [InheritedWillLoad, Helper(AutoCompleteCall(Get(props, "_autoComplete"))),
                 Helper(ListCall(Get(props, "_list")))];
    HelperKeysAppend(head, ValueEvents(Get(props, "_value")));
    assert head[1..][1..][1..] == [];
    assert HelperKeys(head[1..][1..]) == ["_list"];
    assert HelperKeys(head[1..]) == ["_autoComplete", "_list"];
    assert HelperKeys(head) == ["_autoComplete", "_list"];
    var v := Get(props, "_value");
    if v != Null {
      assert ValueEvents(v)[1..] == [];
    }
    var s0 := env.inheritedLoad(props, s);
    var s1 := Commit(env, s0, AutoCompleteCall(Get(props, "_autoComplete")));
    var s2 := Commit(env, s1, ListCall(Get(props, "_list")));
    ValueWritesOnlyValue(env, env, s2, v);
  }

  /** The colour input component: its attributes and the state the controller writes. */
  class InputColorComponent {
    /** The attribute values the host has set before the component loads. */
    const props: map<string, JsValue>
    var state: State

    constructor (props: map<string, JsValue>, state: State)
      ensures this.props == props && this.state == state
    {
      this.props := props;
      this.state := state;
    }
  }

  class InputColorController {
    const component: InputColorComponent
    const name: string
    const env: Env
    var trace: seq<Event>

    constructor (env: Env, component: InputColorComponent, name: string)
      ensures this.env == env && this.component == component && this.name == name && trace == []
    {
      this.env := env;
      this.component := component;
      this.name := name;
      trace := [];
    }

    /** The call of one validation helper and the patch it performs on the component. */
    method RunHelper(c: Call)
      modifies component`state, this`trace
      ensures component.state == Commit(env, old(component.state), c)
      ensures trace == old(trace) + [Helper(c)]
    {
      trace := trace + [Helper(c)];
      component.state := Commit(env, component.state, c);
    }

    method ValidateAutoComplete(value: JsValue)
      modifies component`state, this`trace
      ensures component.state == Commit(env, old(component.state), AutoCompleteCall(value))
      ensures trace == old(trace) + [Helper(AutoCompleteCall(value))]
    {
      RunHelper(Call(WatchValidator(OnOffValue, OnOffExpected), "_autoComplete", value, NoOptions));
    }

    method ValidateList(value: JsValue)
      modifies component`state, this`trace
      ensures component.state == Commit(env, old(component.state), ListCall(value))
      ensures trace == old(trace) + [Helper(ListCall(value))]
    {
      RunHelper(Call(WatchJsonArrayString(StringItem), "_list", value, NoOptions));
    }

    method ValidateValue(value: JsValue)
      modifies component`state, this`trace
      ensures component.state == ValueState(env, old(component.state), value)
      ensures trace == old(trace) + ValueEvents(value)
    {
      if value == Null {
        component.state := component.state["_value" := Null];
      } else {
        RunHelper(Call(WatchString, "_value", value, NoOptions));
      }
    }

    /** The inherited controller's load, then autoComplete, list and value. */
    method ComponentWillLoad()
      modifies component`state, this`trace
      ensures component.state == LoadState(env, component.props, old(component.state))
      ensures trace == old(trace) + LoadEvents(component.props)
    {
      trace := trace + [InheritedWillLoad];
      component.state := env.inheritedLoad(component.props, component.state);
      ValidateAutoComplete(Get(component.props, "_autoComplete"));
      ValidateList(Get(component.props, "_list"));
      ValidateValue(Get(component.props, "_value"));
    }
  }
}
