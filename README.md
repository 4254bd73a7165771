# Plugin editor hook composition, modelled in Dafny

This project models the core of the draft-js plugins editor. The editor
wraps draft-js and lets an ordered list of plugins extend it. On every
render it looks at the attribute names of its own props and of every plugin,
and builds one composed hook per hook name:

- names starting with `on` or `handle` (except `onChange`) become **event
  hooks**. These chains stop at the first plugin that returns exactly `true`;
- names whose first occurrence of `Fn` is at their last two characters
  become **function hooks**. The test compares `length - 2` with
  `indexOf('Fn')`, so a one-character name passes it (both sides are -1),
  while a name such as `FnXFn`, which has an earlier `Fn`, fails it.
  Function hooks use one of three merge policies:
  - `blockRendererFn` merges the block descriptors the plugins return;
  - `blockStyleFn` joins the class names the plugins return;
  - every other name returns the first result that is not `undefined`.

It also resolves the decorator list, the custom style map and the
accessibility props from the plugins. It threads every editor-state change
through the plugins' `onChange` before handing it to its owner, and it runs
each hook source's `initialize` once, at construction.

A smaller part models the table block of the table plugin. A table has rows
of nested editor states and a column count. Its operations add a row, add a
column, store a nested editor's state in a cell (padding the row in place)
and track which cell's editor is focused.

Files, one Dafny module each unless noted:

- `values.dfy`: JavaScript values and truthiness, object spread
  (`JsValues`), and spread as a later-wins merge of layers (`Spread`).
- `plugins.dfy`: plugins, the editor's props, `resolvePlugins`, the hook
  sources and the `initialize` order (`Plugins`).
- `hook_names.dfy`: the `indexOf`-based name tests (`HookNames`).
- `plugin_hooks.dfy`: the classification loops of `createPluginHooks` and
  the hook table it builds (`PluginHooks`).
- `event_hooks.dfy`: which plugins a composed hook calls (`Calls`), and the
  event-hook chain (`EventHooks`).
- `fn_hooks.dfy`: the three function-hook policies (`FnHooks`).
- `resolvers.dfy`: `resolveDecorators` and `resolveCustomStyleMap`
  (`Resolvers`).
- `accessibility.dfy`: `resolveAccessibilityProps`, as written and corrected
  (`Accessibility`).
- `editor.dfy`: the editor component as a class: construction,
  `setReadOnly`, `onChange` and what a render composes (`Editor`).
- `table.dfy`: the table block as classes `Row` and `Table`
  (`TablePlugin`).

Plugin callbacks are code the model cannot see. For one call of a composed
hook, the model takes what each plugin's function returned as an input
sequence: entry `i` is `None` when plugin `i` has no function under that
name, and otherwise `Some(result)`. The model then proves which plugins
are called, in which order, and what the composed hook returns. What the
sources' `getAccessibilityProps` return is likewise an input of each render,
so two renders of one editor can resolve different accessibility props.
A plugin's
`onChange` is a function value of the model (`EditorState -> EditorState`).
So is the owner's `onChange`.

The model follows the code throughout, including where the code does not do
what it evidently intends:

- the popup flags of the accessibility props are meant to be sticky: once a
  plugin sets one, a later plugin should only be able to raise it to
  `'true'`. The code lets a later plugin downgrade it. The editor model
  (`Editor.PluginEditor.Render`) uses the merge as written, and a corrected
  merge is modelled beside it (see Findings);
- `initialize` runs once per occurrence of a plugin in the source list, at
  construction, so a plugin object listed twice is initialized twice
  (`Plugins.InitializingExactlyOnce` is about positions, not identities).

## Model

| member | source | states |
|---|---|---|
| Plugins.ResolvePlugins | draft-js-plugins-editor/src/Editor/index.js:179-186 | the resolved list is `props.plugins` in order, followed by the default key-binding plugin exactly when `defaultKeyBindings` is set |
| Plugins.HookSources | draft-js-plugins-editor/src/Editor/index.js:145 | the hook sources are the props object first, then exactly the resolved plugins |
| Plugins.InitializingExactlyOnce | draft-js-plugins-editor/src/Editor/index.js:37-41 | a source position is initialized iff its source has an `initialize` function; each position once, in increasing order |
| Editor.PluginEditor.constructor | draft-js-plugins-editor/src/Editor/index.js:34-51 | `plugins` is the props followed by the resolved plugins; the initialize log is exactly the initializing positions in order; `state.readOnly` starts undefined |
| Editor.PluginEditor.SetReadOnly | draft-js-plugins-editor/src/Editor/index.js:83-85 | the argument is any value (`true`, `false`, `null`, `undefined`, ...); afterwards the flag is that value; a state change (re-render) happens iff it differs from the current flag |
| Editor.ReadOnlyFalseThenUndefined | draft-js-plugins-editor/src/Editor/index.js:83-85 | `setReadOnly(false)` followed by `setReadOnly(undefined)` re-renders on the second call and leaves the flag `undefined` |
| Editor.PluginEditor.OnChange | draft-js-plugins-editor/src/Editor/index.js:64-78 | nothing is delivered while read-only or when the owner has no `onChange`; otherwise the owner receives the state threaded through the resolved plugins' `onChange` in order |
| Editor.ThreadStateAppend | draft-js-plugins-editor/src/Editor/index.js:69-73 | threading through two plugin lists in a row equals threading through their concatenation |
| Editor.ThreadState | draft-js-plugins-editor/src/Editor/index.js:69-73 | the state is threaded through the plugins' `onChange` in order; plugins without `onChange` leave it unchanged |
| Editor.PluginEditor.Render | draft-js-plugins-editor/src/Editor/index.js:238-255 | a render installs a hook for exactly the classified names of all sources, each the closure of the right composer over its own name and all hook sources, props first; the style map is the one resolved from the props; the accessibility props are the as-written merge of what the sources' `getAccessibilityProps` return in this render; read-only is `props.readOnly \|\| state.readOnly`, truthy iff either is |
| Editor.CallHook | draft-js-plugins-editor/src/Editor/index.js:87-139 | calling a table entry with one result per hook source: an event hook returns `true` iff some plugin returned exactly `true` and calls the implementing sources up to that plugin; a function hook returns what the policy of its name merges and calls the sources that policy reaches |
| HookNames.IndexFrom | draft-js-plugins-editor/src/Editor/index.js:154 | searching from an index finds the first occurrence at or after it, or -1 when there is none |
| HookNames.IsEventHookKey | draft-js-plugins-editor/src/Editor/index.js:154 | the event-hook test (first `on` or `handle` at index 0) only holds for names of at least two characters |
| HookNames.IsFnHookKey | draft-js-plugins-editor/src/Editor/index.js:161 | the function-hook test (first `Fn` at `length - 2`) never holds for the empty name |
| HookNames.EventHookKeyIsPrefix | draft-js-plugins-editor/src/Editor/index.js:154 | the event-hook test holds iff the name starts with `on` or with `handle` |
| HookNames.FnHookKeyShape | draft-js-plugins-editor/src/Editor/index.js:160-161 | the function-hook test holds iff the name has length 1, or it ends in `Fn` and has no earlier `Fn` |
| HookNames.FnHookKeyEdgeCases | draft-js-plugins-editor/src/Editor/index.js:161 | `FnXFn` fails the function-hook test, `x` passes it, the empty name fails it and `blockRendererFn` passes it |
| PluginHooks.PolicyOf | draft-js-plugins-editor/src/Editor/index.js:104-117 | `blockRendererFn` and `blockStyleFn` select their own policies, every other function hook the first-defined one |
| PluginHooks.KindOf | draft-js-plugins-editor/src/Editor/index.js:149-164 | a name is an event hook iff it is not `onChange` and starts with `on` or `handle`; it is a function hook iff it is not `onChange`, starts with neither, and either has length 1 or ends in `Fn` with no earlier `Fn` |
| PluginHooks.AddKey | draft-js-plugins-editor/src/Editor/index.js:149-164 | visiting a name already listed, or of neither kind, changes nothing; any other name is appended to the list of its kind |
| PluginHooks.AddKeyKeepsWellFormed | draft-js-plugins-editor/src/Editor/index.js:149-164 | if both key lists are duplicate-free and hold only names of their own kind, they still are after a visit; they only grow at their ends, by at most one name, and the visited name is then listed iff it was listed before or is a hook name |
| PluginHooks.CollectKeysIsDedup | draft-js-plugins-editor/src/Editor/index.js:147-166 | each key list is the names of its kind, in visiting order, keeping only the first occurrence of each |
| PluginHooks.CollectKeysSpec | draft-js-plugins-editor/src/Editor/index.js:147-166 | a name is an event-hook key iff some source has it and it is an event name other than `onChange`, likewise for function-hook keys; both lists are duplicate-free and disjoint |
| PluginHooks.AddSourceKeys | draft-js-plugins-editor/src/Editor/index.js:148-165 | after one source's keys, the lists are the classification of all names seen so far |
| PluginHooks.CreateHookKeys | draft-js-plugins-editor/src/Editor/index.js:147-166 | the nested loops produce exactly the key lists of the classification, with their membership, no duplicates and the same order |
| PluginHooks.InstallHooks | draft-js-plugins-editor/src/Editor/index.js:168-174 | every listed name gets the composed hook of its kind; every other entry of the table is kept |
| PluginHooks.CreatePluginHooks | draft-js-plugins-editor/src/Editor/index.js:141-177 | the table has an entry exactly for the names of some source that are event or function hooks; event names map to the event chain, function names to the function composer; every entry is over its own name and all hook sources, props first |
| Calls.ImplementingSpec | draft-js-plugins-editor/src/Editor/index.js:90-91 | among the first n plugins, exactly those with a function under the hook name are called, each once, in plugin order |
| EventHooks.FirstHandler | draft-js-plugins-editor/src/Editor/index.js:90-94 | the index found is a plugin that returned `true` after no earlier one did; none is found iff no plugin returned `true` |
| EventHooks.CallEventHook | draft-js-plugins-editor/src/Editor/index.js:87-97 | over a list of sources with one result per source, the composed event hook returns true iff some plugin returned exactly `true`, and it calls the implementing sources up to and including the first such plugin |
| EventHooks.ChainCalls | draft-js-plugins-editor/src/Editor/index.js:90-96 | a plugin is called iff it implements the hook and is not after the first handler |
| EventHooks.SecondPluginHandles | draft-js-plugins-editor/src/Editor/index.js:93 | with three plugins where the second returns `true`, the first two are called and not the third |
| FnHooks.FirstValue | draft-js-plugins-editor/src/Editor/index.js:130-136 | the index found returned a value other than undefined, and no earlier plugin did so; none is found iff no plugin did |
| FnHooks.CallDefaultFnHook | draft-js-plugins-editor/src/Editor/index.js:130-138 | the default policy returns the first result that is not undefined, `false` when there is none, and calls the implementing plugins up to that one |
| FnHooks.NullIsAValue | draft-js-plugins-editor/src/Editor/index.js:133-135 | a `null` result decides the default policy; an `undefined` result or a missing function is skipped |
| FnHooks.MergedBlockIsOverlay | draft-js-plugins-editor/src/Editor/index.js:105-114 | the block accumulator equals the later-wins merge of the results' top-level fields and, separately, of their `props` |
| FnHooks.BlockRendererLaterWins | draft-js-plugins-editor/src/Editor/index.js:104-116 | a block key or props key is present iff some non-null result has it, with the value of the last such result; the block is returned iff its merged `component` is truthy, and then with the merged props |
| FnHooks.BlockRendererExample | draft-js-plugins-editor/src/Editor/index.js:104-116 | a component with props `x` followed by props `y` compose to the component with both props |
| FnHooks.CallBlockRendererFn | draft-js-plugins-editor/src/Editor/index.js:104-116 | the loop returns the merged block or `false`, and calls every implementing plugin |
| FnHooks.StyleStringIsJoin | draft-js-plugins-editor/src/Editor/index.js:118-125 | the style accumulator is the string forms of the results that are not undefined, joined with single spaces, after leading empty strings are dropped |
| FnHooks.BlockStyleIsJoin | draft-js-plugins-editor/src/Editor/index.js:117-127 | with non-empty class names the result is their space-joined string, or `false` when there are none; the result is `false` iff every contribution is empty |
| FnHooks.BlockStyleExample | draft-js-plugins-editor/src/Editor/index.js:117-127 | `foo` then `bar` compose to `foo bar` |
| FnHooks.CallBlockStyleFn | draft-js-plugins-editor/src/Editor/index.js:117-127 | the loop returns the joined class names or `false`, and calls every implementing plugin |
| FnHooks.CallFnHook | draft-js-plugins-editor/src/Editor/index.js:99-139 | over a list of sources with one result per source, a composed function hook follows the policy its name selects, and calls the sources that policy reaches |
| Resolvers.ResolveDecorators | draft-js-plugins-editor/src/Editor/index.js:188-193 | the props' own decorators come first, unchanged |
| Resolvers.ResolveDecoratorsAppend | draft-js-plugins-editor/src/Editor/index.js:190-192 | adding plugins appends their decorators after all earlier ones |
| Resolvers.ResolveDecoratorsMembers | draft-js-plugins-editor/src/Editor/index.js:190-192 | a decorator is in the result iff it is in the props' list or in some plugin's list |
| Resolvers.ResolveDecoratorsExample | draft-js-plugins-editor/src/Editor/index.js:188-193 | plugins without a decorator list or with an empty one add nothing; the order is props first, then plugins in order |
| Resolvers.EditorDecorators | draft-js-plugins-editor/src/Editor/index.js:188-193 | the editor's decorators are those of `props.decorators` and of `props.plugins`: a decorator is present iff it is in one of those lists |
| Resolvers.EditorDecoratorsIgnoreKeyBindings | draft-js-plugins-editor/src/Editor/index.js:189-190 | the default key-binding plugin adds no decorators: toggling `defaultKeyBindings` leaves the result unchanged |
| Resolvers.ResolveCustomStyleMap | draft-js-plugins-editor/src/Editor/index.js:195-206 | the result is the plugins' style maps merged in order, overridden by the props' own map |
| Resolvers.EditorCustomStyleMap | draft-js-plugins-editor/src/Editor/index.js:195-206 | every style of `props.customStyleMap` is in the editor's style map with its own value |
| Resolvers.EditorCustomStyleMapIgnoresKeyBindings | draft-js-plugins-editor/src/Editor/index.js:196 | the default key-binding plugin adds no styles: toggling `defaultKeyBindings` leaves the result unchanged |
| Resolvers.CustomStyleMapPrecedence | draft-js-plugins-editor/src/Editor/index.js:195-206 | a style is present iff the props or some plugin define it; the props' style wins; otherwise the last plugin defining it wins |
| Spread.OverlayLaterWins | draft-js-plugins-editor/src/Editor/index.js:200-205 | in a left-to-right spread merge, a key is present iff some layer has it, with the value of the last layer that has it |
| Accessibility.ResolveThrows | draft-js-plugins-editor/src/Editor/index.js:212-217 | the merge fails with a TypeError iff some source's `getAccessibilityProps` returned undefined or null |
| Accessibility.BuildPopupProps | draft-js-plugins-editor/src/Editor/index.js:214-226 | `popupProps` gets a flag from the plugin while the merge has none, and `true` when the plugin says `true` |
| Accessibility.ResolveAccessibilityProps | draft-js-plugins-editor/src/Editor/index.js:208-236 | the loop computes the merge as written, and throws iff some source returned undefined or null |
| Accessibility.PopupRuleHasNoEffect | draft-js-plugins-editor/src/Editor/index.js:214-232 | as written, each step gives both flags exactly the value of the plain merge of the accumulator and the plugin's props |
| Accessibility.DowngradeCounterexample | draft-js-plugins-editor/src/Editor/index.js:216-232 | as written, `ariaHasPopup: 'true'` followed by `ariaHasPopup: 'false'` resolves to `'false'` |
| Accessibility.ResolveStickyThrows | draft-js-plugins-editor/src/Editor/index.js:212-217 | the corrected merge fails iff some source returned undefined or null |
| Accessibility.StickyStepSpec | draft-js-plugins-editor/src/Editor/index.js:216-232 | in one corrected step a set flag stays or becomes `true`; every other field is a later-wins override |
| Accessibility.FlagsAreSticky | draft-js-plugins-editor/src/Editor/index.js:216-226 | once a flag is set, no later source unsets it or changes it to anything but `true` |
| Accessibility.ResolveAccessibilityPropsSticky | draft-js-plugins-editor/src/Editor/index.js:208-236 | the corrected loop computes the sticky merge, and throws iff some source returned undefined or null |
| Accessibility.StickyOmitKeeps | draft-js-plugins-editor/src/Editor/index.js:216-220 | a later plugin that omits the flag keeps an earlier `true` |
| Accessibility.StickyRepeatIdempotent | draft-js-plugins-editor/src/Editor/index.js:218-219 | a later `true` leaves an earlier `true` as it is |
| Accessibility.StickyNoDowngrade | draft-js-plugins-editor/src/Editor/index.js:216-220 | a later `'false'` does not downgrade an earlier `true` |
| TablePlugin.OrOne | draft-js-table-plugin/src/components/table.js:50 | the column fallback turns 0 into 1 and keeps every non-zero count |
| TablePlugin.Padded | draft-js-table-plugin/src/components/table.js:59-61 | the padded row keeps the old cells as its prefix, is as long as the larger of its length and the column count, and the added cells are `null` |
| TablePlugin.Assigned | draft-js-table-plugin/src/components/table.js:62 | assigning a slot stores the value there and keeps every other cell; slots skipped past the end are holes |
| TablePlugin.UpdatedRowSpec | draft-js-table-plugin/src/components/table.js:58-62 | the updated row has at least the column count of cells, holds the new state at the column, keeps every other old cell, and the cells added below the column count are `null` |
| TablePlugin.UpdateEntityDataExample | draft-js-table-plugin/src/components/table.js:59-62 | an empty row in a 3-column table updated at column 1 becomes null, state, null; assigning past the end leaves holes |
| TablePlugin.CellFocused | draft-js-table-plugin/src/components/table.js:85 | a cell's editor is focused iff the block is focused and `focusedEdit` is that cell |
| TablePlugin.AtMostOneCellFocused | draft-js-table-plugin/src/components/table.js:85 | two focused cells are the same cell, and it is `focusedEdit` |
| TablePlugin.Table.constructor | draft-js-table-plugin/src/components/table.js:7-14 | the block's own row arrays become the rows, or one fresh empty row when the block has none; the column count defaults to 1 (also for 0); nothing is focused |
| TablePlugin.Table.SetFocus | draft-js-table-plugin/src/components/table.js:33-37 | the editor's focus is requested once and the cell becomes `focusedEdit`; rows and columns are unchanged |
| TablePlugin.Table.AddRow | draft-js-table-plugin/src/components/table.js:39-45 | the old rows, unchanged, followed by one fresh empty row; the same list goes to the entity data and to the state |
| TablePlugin.Table.AddColumn | draft-js-table-plugin/src/components/table.js:47-53 | the column count becomes the old count with its fallback, plus one; the same count goes to the entity data; the rows are untouched |
| TablePlugin.Table.UpdateEntityData | draft-js-table-plugin/src/components/table.js:55-65 | row `row` is padded in place and the state is stored at the column; every other row is unchanged; the same rows list goes to the entity data and to the state |

## Left out

- Rendering: the JSX in both components, `refs`, the proxied `focus` and
  `blur` methods, and React's `setState` scheduling. A render is modelled
  as the values it computes.
- `componentWillMount`: the composite decorator and `moveSelectionToEnd` are
  calls into code that is not part of this model. The decorator list they
  receive is modelled (`Resolvers.ResolveDecorators`).
- The trailing context argument `{ ...this }` passed to every hook, and the
  editor passed to `initialize` and `onChange`: plugins' functions are
  inputs, so what they do with the editor is not modelled.
- Arguments of a hook call, and what a plugin's function does with them:
  each call's results are inputs.
- JavaScript arrays as hook results, floating-point numbers and `NaN`,
  property order, prototype chains, getters and symbol keys.
- An `onChange` that is truthy but not a function: `onChange` is modelled as
  declared, a function or absent. The `readOnly` prop has no declared type;
  it is modelled as a boolean, and other values' truthiness is not modelled
  (the state flag that `setReadOnly` stores is any value).
- Editor.PluginEditor.SetReadOnly: `!==` compares objects and functions by
  identity, the model by contents. A fresh object equal in contents to the
  current flag re-renders in the program but not in the model. Booleans,
  `null` and `undefined`, which the focus plugin sends, compare the same
  way in both.
- Editor.PluginEditor.constructor: the props are fixed for the editor's
  lifetime. The program reads `this.props` again on every render and every
  `onChange`, while `initialize` runs only for the sources present at
  construction; plugins added by later props are composed but never
  initialized, and the model cannot express that.
- HookNames.IsFnHookKey: lengths and indices count Unicode code points, while
  JavaScript counts UTF-16 code units. A name with a character outside the
  basic plane is measured differently: the one-character name U+1F600 passes
  the model's function-hook test but fails the program's (its length is 2).
  HookNames.IsEventHookKey and the index fields of a spread string
  (JsValues.IndexFields) differ in the same way.
- The table's `componentDidMount` toolbar actions, the focus, drag-and-drop
  and toolbar decorators wrapping the component, and the `className` list of
  its render.
- The table's rendered grid of nested editors. Only the focus flag each
  cell receives is modelled (`TablePlugin.CellFocused`).
- The `[{}]` fallback in `updateEntityData`: the state's rows are always an
  array at that point.
- TablePlugin.Table.UpdateEntityData: requires the row to exist. For a
  missing row the source raises a TypeError, which is not modelled.
- TablePlugin.Table.constructor: block props are taken as a list of row
  arrays and an integer column count; other values in the entity data are
  not modelled. The rows must be distinct arrays. The program would accept
  one array listed twice, and an update to it would then change both rows.
  The model's row objects are the block's own, so in-place updates reach the
  entity data the block was built from, as in the program.
- TablePlugin.Table.SetFocus: counts the calls to the block's `setFocus`
  prop and does not model what that call does.

## Findings

| source | as written | input that shows it | evidently intended | confidence | as-written member | corrected member |
|---|---|---|---|---|---|---|
| draft-js-plugins-editor/src/Editor/index.js:216-232 | `popupProps` is spread after the plugin's own props, but the plugin's own `ariaHasPopup`/`ariaExpanded` still overrides the merged value whenever `popupProps` leaves the flag out, so the rule never changes a flag's value | a first plugin returning `{ ariaHasPopup: 'true' }` and a second returning `{ ariaHasPopup: 'false' }` resolve to `'false'` | once a plugin has set a flag, a later plugin can only raise it to `'true'`, never downgrade it | not executed | Accessibility.DowngradeCounterexample | Accessibility.FlagsAreSticky |

The editor model keeps the program's behaviour: `Editor.PluginEditor.Render`
uses the as-written merge (`Accessibility.ResolveAccessibilityProps`). The
corrected merge (`Accessibility.ResolveAccessibilityPropsSticky`) stands
beside it as the intended behaviour.
