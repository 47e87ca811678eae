# KoliBri property validation: button, badge, colour input and popover

This project models, in Dafny, how four KoliBri web components turn their
public attributes into render state, and proves properties of that model.

- **`kol-button-wc`** (`Button`) has one watcher per attribute. Each watcher hands the raw
  value to a validation helper that patches one state key (for helpers
  called without a key, the attribute's own key is assumed), except `_on`,
  which is merged into the state only when it is a non-null object.
  `componentWillLoad` runs all seventeen watchers once, in declaration order.
  A click dispatches on `_type` and `_on`. Rendering derives `aria-label`,
  `aria-labelledby`, the tooltip and the class list from the state.
- **`kol-badge`** (`Badge`) validates its colour through a before-patch hook, which copies
  the derived background and foreground colours into two fields. It
  validates its label through an after-patch hook, which reports labels
  longer than 32 characters. Its smart button is parsed from JSON; when
  the parse throws, the raw input is written.
- **The `kol-input-color` controller** (`InputColor`) validates `_autoComplete` ('on' or
  'off'), `_list` (a JSON array of strings) and `_value`. A `null` value is
  assigned to the component's state object in place, with no helper call. The
  inherited input controller's load runs first.
- **`kol-popover`** (`Popover`) is the open/show state machine. Opening adds listeners
  and requests a position. The aligned callback sets `_show`. Hiding
  resets `_show` and the `_open` attribute, focuses the trigger and removes
  the listeners. The placement decides the arrow style, and a moved panel
  requests a new position.

Shared pieces:

- `Js` (js.dfy): JavaScript values and the operators the components use:
  `typeof`, truthiness, `||`, `?.`, `String(v)` and decimal notation.
- `Validation` (validation.dfy): the shared vocabulary. It holds the state
  `map`, the helper calls with their keys, predicates, options and hooks,
  and the events a component emits.

The validation helpers' bodies live outside the modelled files. Each helper
call is recorded as an event. The value the helper commits under its key,
if any, comes from `Env.commit`; the helper writes no other key. The colour
helper, `parseJson`, `objectObjectHandler`, the inherited controller's load
and the process environment are also functions in `Env`. Hooks run only
when the helper patches the state. They receive the value patched in: the
before-patch hook runs before the merge and the after-patch hook after it.

Component structure:

- Each component is a `class` whose methods change its fields.
- For the button and the badge, `React`, `ReactColor`, `ReactLabel` and
  `ReactSmartButton` give each watcher's effect on the component as a value.
- Each watcher method is proved against its reaction function.
- `componentWillLoad` is proved against `LoadAll`, the composition of the
  reactions in source order. For the button, `Button.LoadHelperKeys` also
  derives the order of the helper calls from what the watchers emit.

Behaviour of the code that the model keeps as written:

- A smart-button text that fails to parse is stored as given, not the
  previous value (packages/components/src/components/badge/component.tsx:153-159,
  with the comment at line 157). See `Badge.FailedParseDropsPreviousButton`.
- The colour input's controller passes the accepted-values text `on | off`
  to watchValidator (`InputColor.OnOffExpected`).
- The aria-current watcher validates the value but stores it under
  `_ariaControls`, so it overwrites the aria-controls attribute
  (`Button.AriaCurrentOverwritesAriaControls`).
- The aria-current accepted-values text names `data` where the predicate
  accepts `date` (`Button.AriaCurrentHintMisnamesDate`).

## Model

| member | source | states |
|---|---|---|
| Js.Or | packages/library/src/components/button/component.tsx:92 | `a \|\| b` yields one of its operands, and is truthy iff either operand is |
| Js.Member | packages/library/src/components/button/component.tsx:75 | JavaScript's `v?.name`, the field of an object holding it and `undefined` otherwise; what it means for the click handler is stated in `Button.ChooseClick` and `Button.ClickHasOneOutcome` |
| Validation.Accepts | packages/library/src/components/button/component.tsx:261 | the acceptance predicates handed to the helpers: aria-current accepts `true` and the strings `date`, `location`, `page`, `step`, `time` (this line); autoComplete accepts the strings `on` and `off` (input-color/controller.ts:23); a list item must be a string (input-color/controller.ts:33); properties in `InputColor.PredicatesAccept` and `Button.AriaCurrentHintMisnamesDate` |
| Validation.Commit | packages/library/src/components/button/component.tsx:240-404 | the one-key state patch of every helper call: no key other than the call's key changes in presence or value, no commit leaves the state as it was, and a commit stores its value under the call's key |
| Button.React | packages/library/src/components/button/component.tsx:240-404 | one watcher's effect: for `_on`, the shallow merge of a non-null object and no event; otherwise the helper call is recorded, its commit applied to its key, and the disabled hint appended for `_disabled` set to `true`; properties in the `React*` lemmas below |
| Button.WatchCall | packages/library/src/components/button/component.tsx:240-404 | every watcher except `_on` makes one helper call with the raw value on its target key; the aria-current watcher targets `_ariaControls` |
| Button.ReactWritesOnlyTarget | packages/library/src/components/button/component.tsx:240-404 | a watcher changes no state key other than its target, neither presence nor value |
| Button.ReactExtendsTrace | packages/library/src/components/button/component.tsx:240-404 | a watcher only appends to what was emitted, and a helper watcher's first new event is its helper call |
| Button.ReactHelperKeys | packages/library/src/components/button/component.tsx:240-404 | a watcher adds exactly one helper call, on its target key, except `_on`, which adds none |
| Button.ReactOnMergesObjects | packages/library/src/components/button/component.tsx:364-372 | `_on` emits nothing; the state becomes the old state with `_on` replaced exactly when the value is a non-null object, and is unchanged otherwise |
| Button.ReactDisabledHints | packages/library/src/components/button/component.tsx:296-302 | the disabled watcher emits the boolean watch and then the disabled hint exactly when the value is `true`; no other watcher emits that hint |
| Button.ReactLeavesAriaCurrent | packages/library/src/components/button/component.tsx:256-265 | no watcher adds, removes or changes the `_ariaCurrent` key |
| Button.ReactAriaCurrentCommits | packages/library/src/components/button/component.tsx:256-265 | what the aria-current watcher's helper commits ends up under `_ariaControls` |
| Button.ReactLeavesAriaControls | packages/library/src/components/button/component.tsx:248-265 | only the aria-controls and aria-current watchers can change `_ariaControls` |
| Button.LoadAll | packages/library/src/components/button/component.tsx:409-426 | componentWillLoad as the seventeen watcher reactions, each fed its own attribute value, in declaration order; the order of its helper calls is `Button.LoadHelperKeys` |
| Button.LoadHelperKeys | packages/library/src/components/button/component.tsx:409-426 | the helper calls of componentWillLoad are, by key, `_accessKey`, `_ariaControls` twice, `_ariaExpanded`, `_ariaLabel`, `_customClass`, `_disabled`, `_icon`, `_iconAlign`, `_iconOnly`, `_id`, `_label`, `_tabIndex`, `_tooltipAlign`, `_type`, `_variant`: one per watcher in order, with none for `_on` |
| Button.LoadLeavesAriaCurrent | packages/library/src/components/button/component.tsx:409-426 | after componentWillLoad, `_ariaCurrent` is exactly as present and valued as before |
| Button.AriaCurrentOverwritesAriaControls | packages/library/src/components/button/component.tsx:409-426 | after componentWillLoad, `_ariaControls` holds what the aria-current watcher committed, whenever it committed something |
| Button.AriaCurrentHintMisnamesDate | packages/library/src/components/button/component.tsx:258-264 | the text handed to watchValidator is `String {` with the listed tokens `data, location, page, step, time` and `}` (`AriaCurrentExpected` is built from that list, and equals the watcher's literal by `Button.AriaCurrentExpectedIsSourceText`); the listed token the predicate rejects is exactly `data`, and the accepted token the text omits is exactly `date` |
| Button.ListedCommaList | packages/library/src/components/button/component.tsx:262 | the listed tokens, comma-separated, read `data, location, page, step, time` |
| Button.AriaCurrentExpectedIsSourceText | packages/library/src/components/button/component.tsx:262 | the description handed to watchValidator is exactly the set `{'boolean', 'String {data, location, page, step, time}'}` |
| Button.ChooseClick | packages/library/src/components/button/component.tsx:64-81 | priority order: submit iff `_type` is 'submit'; reset iff not submit and 'reset'; callback iff neither and `_on.onClick` is a function; otherwise the hint |
| Button.ClickHasOneOutcome | packages/library/src/components/button/component.tsx:64-81 | a click has exactly one outcome, and a callback is invoked only when it is a function |
| Button.AriaLabelOf | packages/library/src/components/button/component.tsx:92 | `_ariaLabel \|\| _label` when `_iconOnly === false`, otherwise left out; properties in `Button.AccessibleNameIsUnique` |
| Button.AriaLabelledByOf | packages/library/src/components/button/component.tsx:93 | the nonce when `_iconOnly === true`, otherwise left out; properties in `Button.AccessibleNameIsUnique` and `Button.LabelledByNamesTheTooltip` |
| Button.TooltipOf | packages/library/src/components/button/component.tsx:112-122 | the tooltip, rendered only when `_iconOnly === true`, with `_tooltipAlign`, the nonce and `_ariaLabel \|\| _label`; properties in `Button.LabelledByNamesTheTooltip` |
| Button.AccessibleNameIsUnique | packages/library/src/components/button/component.tsx:92-93 | with a boolean `_iconOnly` and a non-empty label, exactly one of aria-label and aria-labelledby is set; any other `_iconOnly` sets neither; aria-label is `_ariaLabel \|\| _label` exactly when `_iconOnly` is `false` and undefined otherwise; the tooltip renders exactly when `_iconOnly` is `true` |
| Button.LabelledByNamesTheTooltip | packages/library/src/components/button/component.tsx:93-122 | aria-labelledby is set iff the tooltip is rendered; both carry the nonce, and the tooltip shows `_ariaLabel \|\| _label` |
| Button.ClassMap | packages/library/src/components/button/component.tsx:94-99 | the class object: computed keys converted to strings, a later key overwriting an equal earlier one, each key mapped to its condition |
| Button.Classes | packages/library/src/components/button/component.tsx:94-99 | the rendered class names, the keys of the class object whose value is true; properties in `Button.ClassesWhenNamesDiffer` and `Button.VariantClassCanBeOverwritten` |
| Button.ClassesWhenNamesDiffer | packages/library/src/components/button/component.tsx:94-99 | with distinct class names: the variant class iff `_variant` is not 'custom'; the custom class iff `_variant` is 'custom' and `_customClass` is a non-empty string; `icon-only` iff `_iconOnly === true` |
| Button.VariantClassCanBeOverwritten | packages/library/src/components/button/component.tsx:94-99 | a variant named `icon-only` loses its class to the later `icon-only` key |
| Button.ButtonWc.constructor | packages/library/src/components/button/component.tsx:136-235 | props are the declared defaults overridden by the host's attributes; the state is exactly the declared initial state, with no `_ariaCurrent` key |
| Button.ButtonWc.ValidateAccessKey | packages/library/src/components/button/component.tsx:240-243 | the new state and trace are the watcher's reaction to the value |
| Button.ButtonWc.ValidateAriaControls | packages/library/src/components/button/component.tsx:248-251 | the new state and trace are the watcher's reaction to the value |
| Button.ButtonWc.ValidateAriaCurrent | packages/library/src/components/button/component.tsx:256-265 | the reaction to the value; no key other than `_ariaControls` changes |
| Button.ButtonWc.ValidateAriaExpanded | packages/library/src/components/button/component.tsx:270-273 | the new state and trace are the watcher's reaction to the value |
| Button.ButtonWc.ValidateAriaLabel | packages/library/src/components/button/component.tsx:278-281 | the new state and trace are the watcher's reaction to the value |
| Button.ButtonWc.ValidateCustomClass | packages/library/src/components/button/component.tsx:286-291 | the reaction to the value, with an explicit undefined default |
| Button.ButtonWc.ValidateDisabled | packages/library/src/components/button/component.tsx:296-302 | the boolean watch, then the disabled hint exactly when the value is `true` |
| Button.ButtonWc.ValidateIcon | packages/library/src/components/button/component.tsx:307-310 | the new state and trace are the watcher's reaction to the value |
| Button.ButtonWc.ValidateIconAlign | packages/library/src/components/button/component.tsx:318-321 | the new state and trace are the watcher's reaction to the value |
| Button.ButtonWc.ValidateIconOnly | packages/library/src/components/button/component.tsx:326-343 | the reaction to the value, with default `false` |
| Button.ButtonWc.ValidateId | packages/library/src/components/button/component.tsx:348-351 | the new state and trace are the watcher's reaction to the value |
| Button.ButtonWc.ValidateLabel | packages/library/src/components/button/component.tsx:356-359 | the new state and trace are the watcher's reaction to the value |
| Button.ButtonWc.ValidateOn | packages/library/src/components/button/component.tsx:364-372 | `_on` is replaced when the value is a non-null object; otherwise the state is unchanged; nothing is emitted |
| Button.ButtonWc.ValidateTabIndex | packages/library/src/components/button/component.tsx:377-380 | the new state and trace are the watcher's reaction to the value |
| Button.ButtonWc.ValidateTooltipAlign | packages/library/src/components/button/component.tsx:385-388 | the new state and trace are the watcher's reaction to the value |
| Button.ButtonWc.ValidateType | packages/library/src/components/button/component.tsx:393-396 | the new state and trace are the watcher's reaction to the value |
| Button.ButtonWc.ValidateVariant | packages/library/src/components/button/component.tsx:401-404 | the new state and trace are the watcher's reaction to the value |
| Button.ButtonWc.ComponentWillLoad | packages/library/src/components/button/component.tsx:409-426 | the result is `LoadAll`, the seventeen reactions in declaration order, each fed its own attribute, each once; the helper calls it emits are on the keys of `Button.LoadHelperKeys`, in that order |
| Button.ButtonWc.OnClick | packages/library/src/components/button/component.tsx:64-81 | emits exactly the events of the branch `ChooseClick` picks |
| Badge.ReactColor | packages/components/src/components/badge/component.tsx:127-135 | the colour watcher: the validateColor call is recorded; when it patches, the before-patch hook sets both colour fields from the derived pair, then `_color` is merged; properties in `Badge.ColorPatchSetsPair` |
| Badge.ColorPatchSetsPair | packages/components/src/components/badge/component.tsx:121-135 | the colour call uses default '#000' and the before-patch hook; a patch sets both colour fields from the derived pair and `_color`; without a patch only the call is recorded |
| Badge.LabelHints | packages/components/src/components/badge/component.tsx:141-145 | the hint the after-patch hook emits: one hint naming the length for a string longer than 32, none otherwise; properties in `Badge.LabelHintOnlyWhenTooLong` |
| Badge.ReportedLengthOfMessage | packages/components/src/components/badge/component.tsx:143 | the hint text reports the exact length it was built from |
| Badge.LabelHintOnlyWhenTooLong | packages/components/src/components/badge/component.tsx:141-145 | at most one hint; one exactly for a string longer than 32 characters, and it reports that length |
| Badge.ReactLabel | packages/components/src/components/badge/component.tsx:137-148 | the label watcher: the validateLabel call is recorded; when it patches, `_label` is merged and the after-patch hook runs on the patched value; properties in `Badge.LabelWatchKeepsColors` and `Badge.LabelHintOnlyWhenTooLong` |
| Badge.LabelWatchKeepsColors | packages/components/src/components/badge/component.tsx:137-148 | the label watcher writes only `_label`, leaves the colour fields, and first emits its helper call |
| Badge.ReactSmartButton | packages/components/src/components/badge/component.tsx:150-161 | the smart-button watcher: when the object handler runs its callback, `_smartButton` is set to the parse result, or to the raw input when parsing throws; properties in the three lemmas below |
| Badge.SmartButtonStoresParseOrInput | packages/components/src/components/badge/component.tsx:150-161 | when the handler runs, `_smartButton` is the parse result if parsing succeeds and the raw input if it throws; no other key or field changes; otherwise nothing changes |
| Badge.FailedParseHidesSmartButton | packages/components/src/components/badge/component.tsx:150-161 | a text that fails to parse leaves no smart button shown, and repeating it changes nothing |
| Badge.FailedParseDropsPreviousButton | packages/components/src/components/badge/component.tsx:153-159 | a shown smart button is not kept when a later text fails to parse |
| Badge.LoadAll | packages/components/src/components/badge/component.tsx:163-167 | componentWillLoad as the colour, label and smart-button reactions, in that order, on the attribute values; properties in `Badge.LoadCallsColorThenLabel` |
| Badge.LoadCallsColorThenLabel | packages/components/src/components/badge/component.tsx:163-167 | the load's first two events are the colour call and then the label call, on the attribute values |
| Badge.SpanHideLabel | packages/components/src/components/badge/component.tsx:62 | the `_hideLabel` of the inner span, `_hideLabel \|\| _iconOnly` on the attributes; properties in `Badge.HideLabelEitherFlag` |
| Badge.HideLabelEitherFlag | packages/components/src/components/badge/component.tsx:62 | the label is hidden iff `_hideLabel` or `_iconOnly` is truthy, and is not hidden with both defaults |
| Badge.EmbeddedButton | packages/components/src/components/badge/component.tsx:63-76 | the attributes of the embedded button, rendered only for a non-null object `_smartButton`; properties in `Badge.EmbeddedButtonWithSmartButton` |
| Badge.EmbeddedButtonWithSmartButton | packages/components/src/components/badge/component.tsx:55-76 | the embedded button is rendered iff `_smartButton` is a non-null object; it controls the badge's id, hides its label and takes the smart button's label |
| Badge.KolBadge.constructor | packages/components/src/components/badge/component.tsx:45-119 | prop defaults, the initial colour pair and `…` label, and colour fields `#000` and `#fff` |
| Badge.KolBadge.HandleColorChange | packages/components/src/components/badge/component.tsx:121-125 | the two colour fields become the derived pair; nothing else changes |
| Badge.KolBadge.ValidateColor | packages/components/src/components/badge/component.tsx:127-135 | the new state, colour fields and trace are the colour reaction |
| Badge.KolBadge.ValidateLabel | packages/components/src/components/badge/component.tsx:137-148 | the new state and trace are the label reaction; colour fields are untouched |
| Badge.KolBadge.ValidateSmartButton | packages/components/src/components/badge/component.tsx:150-161 | the new state is the smart-button reaction; trace and colour fields are untouched |
| Badge.KolBadge.ComponentWillLoad | packages/components/src/components/badge/component.tsx:163-167 | colour, then label, then smart button, once each, on the attribute values |
| InputColor.PredicatesAccept | packages/library/src/components/input-color/controller.ts:19-34 | the `_autoComplete` predicate accepts exactly 'on' and 'off'; a `_list` item is accepted iff it is a string |
| InputColor.ValueState | packages/library/src/components/input-color/controller.ts:39-45 | the state validateValue leaves: `_value` set to `null` for `null`, otherwise what watchString commits; properties in `InputColor.ValueWritesOnlyValue` |
| InputColor.ValueWritesOnlyValue | packages/library/src/components/input-color/controller.ts:39-45 | only `_value` changes; `null` is written whatever the helpers would do, and no helper is called for it; any other value gets what watchString commits |
| InputColor.LoadState | packages/library/src/components/input-color/controller.ts:50-55 | the state componentWillLoad leaves: the inherited load, then the `_autoComplete`, `_list` and `_value` watchers; properties in `InputColor.LoadOrder` |
| InputColor.LoadOrder | packages/library/src/components/input-color/controller.ts:50-55 | the inherited load comes first, then helper calls on `_autoComplete`, `_list` and `_value` (none for `null`); a `null` value survives the load; no other key differs from the inherited load |
| InputColor.InputColorController.constructor | packages/library/src/components/input-color/controller.ts:11-14 | the controller keeps the component it was created for, and its name |
| InputColor.InputColorController.ValidateAutoComplete | packages/library/src/components/input-color/controller.ts:19-27 | the component's state is patched by the 'on \| off' validator call |
| InputColor.InputColorController.ValidateList | packages/library/src/components/input-color/controller.ts:32-34 | the component's state is patched by the JSON string-array call |
| InputColor.InputColorController.ValidateValue | packages/library/src/components/input-color/controller.ts:39-45 | `null` sets `_value` directly with no event; any other value goes through watchString on `_value` |
| InputColor.InputColorController.ComponentWillLoad | packages/library/src/components/input-color/controller.ts:50-55 | the component's state and the trace are the inherited load followed by the three watchers |
| Popover.ArrowStyleFor | packages/components/src/components/popover/shadow.tsx:62-81 | the arrow's inset and translation for each of the four sides, a missing offset read as 0, and no change for any other placement; properties in the lemmas below |
| Popover.ArrowStyleBySide | packages/components/src/components/popover/shadow.tsx:62-81 | only the four sides style the arrow; a missing offset equals 0; top and bottom read only x, left and right only y |
| Popover.ArrowTranslateNamesSide | packages/components/src/components/popover/shadow.tsx:62-81 | two sides share a translation iff they are the same side |
| Js.IntToStringReadsBack | packages/components/src/components/popover/shadow.tsx:57-60 | the text of an integer starts with `-` iff it is negative, and its digits read back as its magnitude |
| Popover.PxInjective | packages/components/src/components/popover/shadow.tsx:57-60 | two `${n}px` strings are equal iff the numbers are |
| Popover.NatToStringInjective | packages/components/src/components/popover/shadow.tsx:57-60 | decimal notation is injective |
| Popover.MovedIffCoordinatesChanged | packages/components/src/components/popover/shadow.tsx:82-86 | with the previous coordinates written by setPosition, the panel counts as moved iff a coordinate number changed |
| Popover.AlignEvents | packages/components/src/components/popover/shadow.tsx:32-50 | a single position request iff the process environment is not 'test' and both trigger and panel exist; otherwise none |
| Popover.PopoverClasses | packages/components/src/components/popover/shadow.tsx:144 | the class names of the panel from `_open` and `_show`; properties in the lemmas below |
| Popover.PopoverClassesByState | packages/components/src/components/popover/shadow.tsx:144 | `popover` always; `hidden` iff `_open` is falsy; `show` iff `_show` is truthy; no other class |
| Popover.ShowClassFollowsShowState | packages/components/src/components/popover/shadow.tsx:89-104 | the `_show` write of hiding removes `show` and the aligned callback adds it; neither write changes `hidden`, which follows `_open` alone |
| Popover.HideThenOpenWatcherHidesPanel | packages/components/src/components/popover/shadow.tsx:96-104 | hiding sets `_open` to false; when the `_open` watcher it triggers commits `false`, the panel is both hidden and not shown |
| Popover.ArrowClass | packages/components/src/components/popover/shadow.tsx:145 | the arrow's class, `arrow ` followed by the alignment; properties in `Popover.ArrowClassNamesAlignment` |
| Popover.ArrowClassNamesAlignment | packages/components/src/components/popover/shadow.tsx:145 | the arrow's class is `arrow ` followed by the alignment text, so two string alignments give the same class exactly when they are equal |
| Popover.KolPopover.constructor | packages/components/src/components/popover/shadow.tsx:155-166 | prop defaults 'top' and `false`; state `_alignment='top'`, `_open=false`, `_show=false` |
| Popover.KolPopover.AlignPopover | packages/components/src/components/popover/shadow.tsx:32-50 | appends the position request with the current alignment and the callback, under the same guard |
| Popover.KolPopover.RunCallback | packages/components/src/components/popover/shadow.tsx:92-94 | the aligned callback sets `_show` to true and nothing else |
| Popover.KolPopover.SetPosition | packages/components/src/components/popover/shadow.tsx:51-88 | without a panel nothing changes; otherwise it writes the coordinates and the side's arrow style when there are an arrow and arrow data; then it re-aligns if a coordinate string changed, or else runs the callback, if given |
| Popover.KolPopover.ShowPopover | packages/components/src/components/popover/shadow.tsx:89-95 | listeners first, then the position request carrying the show callback; `_show` is not set here |
| Popover.KolPopover.HidePopover | packages/components/src/components/popover/shadow.tsx:96-104 | `_show` becomes false and no other key changes; `_open` becomes false; the trigger is focused if present; the listeners are removed |
| Popover.KolPopover.HidePopoverByEscape | packages/components/src/components/popover/shadow.tsx:105-107 | hides iff the key is 'Escape'; otherwise nothing changes |
| Popover.KolPopover.HidePopoverByClickOutside | packages/components/src/components/popover/shadow.tsx:108-112 | hides iff there is a panel and the click target is outside it; otherwise nothing changes |
| Popover.KolPopover.CatchTriggerElement | packages/components/src/components/popover/shadow.tsx:129-133 | with a host, the trigger is its previous sibling if any; without one it is unchanged |
| Popover.KolPopover.CatchPopoverElement | packages/components/src/components/popover/shadow.tsx:134-136 | the panel reference is what was caught |
| Popover.KolPopover.CatchArrowElement | packages/components/src/components/popover/shadow.tsx:137-139 | the arrow reference is what was caught |
| Popover.KolPopover.ValidateAlignment | packages/components/src/components/popover/shadow.tsx:168-171 | the alignment helper's patch on `_alignment` |
| Popover.KolPopover.ValidateOpen | packages/components/src/components/popover/shadow.tsx:173-177 | the open helper's patch on `_open`, then showPopover's events iff the value is truthy |
| Popover.KolPopover.ValidateShow | packages/components/src/components/popover/shadow.tsx:179-182 | the show helper's patch on `_show` |
| Popover.KolPopover.ComponentWillLoad | packages/components/src/components/popover/shadow.tsx:184-187 | alignment first, then open, on the attribute values |

## Left out

- Validation helper bodies (watchString, watchBoolean, watchValidator,
  watchJsonArrayString, validateLabel, validateColor, and the others) are
  not part of this model. Which value they commit is the `Env.commit`
  oracle, and the hints those helpers emit themselves are not modelled.
- `handleColorChange`, `parseJson`, `objectObjectHandler` and the inherited
  `InputController.componentWillLoad` are not part of this model either.
  They are total functions in `Env`; `setState` is the plain write it names.
- InputColor.InputColorController.ValidateValue: `null` is assigned into
  the existing state object in place (controller.ts:41); every other write
  replaces the state with a merged copy. The model assigns a new map value.
  It does not capture that holders of the old state object see the change,
  or that the state reference itself is never reassigned for the framework
  to notice.
- Helper target keys: some helpers are called without a key. These are
  validateAriaLabel, validateIcon, watchIconAlign, validateLabel and
  validateTabIndex in the button, validateColor and validateLabel in the badge, and
  validateAlignment, validateOpen and validateShow in the popover. The model
  assumes each writes the key named after its attribute. The frame lemmas
  rely on that assumption: `Button.ReactWritesOnlyTarget`,
  `Button.ReactLeavesAriaCurrent`, `Button.ReactLeavesAriaControls`,
  `Button.LoadLeavesAriaCurrent`, `Button.AriaCurrentOverwritesAriaControls`,
  `Badge.ColorPatchSetsPair` and `Badge.LabelWatchKeepsColors`.
- Helper outcomes: `Env.commit` decides a helper's committed value from the
  call alone (helper, key, value, options), not from the current state. A
  helper whose outcome depends on the state it finds (keeping a previous
  valid value, or writing a default only when there is none) is modelled
  by one fixed outcome per call; no proved property depends on this.
- Floating point: coordinates and arrow offsets are integers, and NaN is
  not modelled.
- `Js.ToStr`: a function value converts to "function" rather than its
  source text.
- Badge.LabelHintOnlyWhenTooLong: the length counts Dafny characters,
  not UTF-16 code units as JavaScript does.
- Badge.KolBadge.HandleColorChange: the foreground colour is taken as a
  string, as the `as string` cast in the source assumes.
- DOM effects are abstract events or boolean parameters. These are the
  body listeners, `focus()`, the `contains` test, element refs, and the
  form submit and reset propagation.
- Popover.KolPopover.SetPosition: style strings belong to the one panel and
  arrow. Catching a different element does not reset them.
- The geometry library's middleware is not modelled: offset by arrow
  height, flip, shift and arrow. A position request records only the
  placement and the callback.
- Popover.KolPopover.HidePopover: assigning the mutable `_open` attribute
  makes the framework run the `_open` watcher again. That re-dispatch is
  left to the caller, who may call `ValidateOpen`.
  `Popover.HideThenOpenWatcherHidesPanel` states the effect of hiding
  followed by that watcher on the panel's classes.
- Attribute changes after load: the framework calls the matching watcher,
  and the model calls the watcher method directly. Button and badge keep
  their load-time attribute values as constants.
- Button rendering beyond the ARIA, tooltip and class derivations is not
  modelled. This covers `mapBoolean2String` for aria-current and
  aria-expanded, the spread of `_on` onto the element, and `kol-span-wc`.
- `nonce()` is a constructor parameter.
- Left out entirely:
  - the `Date.now() === 0` debug branch;
  - `getInteractiveElementRef`;
  - `catchHost` and `catchRef` of the button;
  - the popover's `disconnectedCallback` logging;
  - the badge's module-load `featureHint`.
