# Pointer tracker and persistent-value mirror, modelled in Dafny

A model of the two hooks of the repository.

- `RelativeMouseCoords` (relative_mouse_coords.dfy) models `useRelativeMouseCoords`:
  `relativeXY`, which turns a pointer event into coordinates relative to the
  element it is dispatched on, clamped to `[0, clientWidth] x [0, clientHeight]`
  (a zero client size means no upper clamp); the choice of the debounce delay;
  and the hook's `coords`/`isWithin` state as a `Tracker` class whose `Move`,
  `Enter` and `Exit` methods are the three handlers. `Move` is the moment the
  debounced callback fires. A stream of handler inputs is folded by `Run`, and
  its result is characterised by the last firing and the last enter/leave.
- `LocalStorage` (local_storage.dfy) models `useLocalStorage`: a `Mirror`
  class holding the in-memory value, the local-storage map and the cookie map
  (both string to string). `SetValue` and `GetValue` are proved against the
  pure functions `SetValueSpec` and `GetValueSpec`. `JSON.stringify` and
  `JSON.parse` are abstract functions given in `Settings`, each returning
  `None` when it throws. A `Faults` value says which of the storage and cookie
  writes throws; a `readFails` flag says whether `getItem` throws.
- `Wrappers` (wrappers.dfy) holds `Option`, used for missing or falsy numbers
  and for a throwing parse or stringify.

Numbers are exact `real`s; a missing or NaN coordinate is `None`, which `|| 0`
turns into 0. `clientWidth` and `clientHeight` are `nat`, as the DOM never
reports them negative, so "truthy" means "non-zero". The upper clamp uses these client sizes, as the code does, not the width and height of the bounding rectangle.

## Model

| member | source | states |
|---|---|---|
| `RelativeMouseCoords.RelativeXY` | src/useRelativeMouseCoords.ts:8-30 | both coordinates are never negative; x is at most a non-zero clientWidth and y at most a non-zero clientHeight; an offset inside the box is returned unchanged, one before it becomes 0, one past a non-zero size becomes that size |
| `RelativeMouseCoords.NoUpperClampWithoutSize` | src/useRelativeMouseCoords.ts:16-27 | with a zero client size or no target there is no upper clamp: the coordinate is max(offset, 0) |
| `RelativeMouseCoords.NoEventIsOrigin` | src/useRelativeMouseCoords.ts:9-13 | with no event at all the result is (0, 0) |
| `RelativeMouseCoords.AxesIndependent` | src/useRelativeMouseCoords.ts:12-27 | x depends only on clientX, left and clientWidth; y only on clientY, top and clientHeight |
| `RelativeMouseCoords.BoxExamples` | src/useRelativeMouseCoords.ts:12-27 | box at (10, 20) of size 100 x 50: pointer (5, 15) gives (0, 0) and pointer (200, 30) gives (100, 10) |
| `RelativeMouseCoords.SelectDelay` | src/useRelativeMouseCoords.ts:37 | an absent delay becomes 1000/60; any given delay, 0 included, is kept; the result is non-negative when the given delay is |
| `RelativeMouseCoords.Run` | src/useRelativeMouseCoords.ts:41-52 | any stream of handler inputs from a state with non-negative coordinates keeps them non-negative |
| `RelativeMouseCoords.RunSnoc` | src/useRelativeMouseCoords.ts:41-52 | handling one more input is applying that handler to the state reached so far |
| `RelativeMouseCoords.RunIsLastInput` | src/useRelativeMouseCoords.ts:41-52 | after any stream, coords are those of the last firing (or unchanged) and isWithin is set by the last enter/leave (or unchanged), each independently of the other kind of input |
| `RelativeMouseCoords.FiringsKeepHover` | src/useRelativeMouseCoords.ts:45-48 | firings alone never change isWithin |
| `RelativeMouseCoords.LastHoverAppend` | src/useRelativeMouseCoords.ts:45-48 | firings after an enter or leave do not change which one decides isWithin |
| `RelativeMouseCoords.EnterThenLeave` | src/useRelativeMouseCoords.ts:51-52 | enter makes isWithin true and a later leave makes it false, whatever firings come in between or after |
| `RelativeMouseCoords.Tracker.constructor` | src/useRelativeMouseCoords.ts:37-42 | the delay is the selected one; coords start at (0, 0) and isWithin false |
| `RelativeMouseCoords.Tracker.Move` | src/useRelativeMouseCoords.ts:45-48 | coords become relativeXY of the event, inside a non-zero box; isWithin is untouched |
| `RelativeMouseCoords.Tracker.Enter` | src/useRelativeMouseCoords.ts:51 | isWithin becomes true; coords are untouched |
| `RelativeMouseCoords.Tracker.Exit` | src/useRelativeMouseCoords.ts:52 | isWithin becomes false; coords are untouched |
| `RelativeMouseCoords.AfterDispatch` | src/useRelativeMouseCoords.ts:45-46 | the event the deferred callback receives keeps its client coordinates but has no current target |
| `RelativeMouseCoords.DeferredXY` | src/useRelativeMouseCoords.ts:45-47 | the hook as written reports the viewport position raised to 0, whatever the element's box |
| `RelativeMouseCoords.DeferredXYIgnoresBox` | src/useRelativeMouseCoords.ts:45-47 | for box (10, 20, 100, 50) and pointer (200, 30) the hook as written gives (200, 30), past the element's width, where relativeXY on the dispatched event gives (100, 10) |
| `LocalStorage.CookieName` | src/useLocalStorage.ts:19 | the cookie name is "ls-" followed by the key |
| `LocalStorage.CookieNameInjective` | src/useLocalStorage.ts:19 | different keys give different cookie names |
| `LocalStorage.SetValueSpec` | src/useLocalStorage.ts:13-24 | the value becomes v whatever fails (no rollback); only the key's storage entry and the "ls-" cookie can change; a failed stringify or storage write leaves both stores unchanged (the cookie write comes after); otherwise storage holds the text and so does the cookie unless its write failed |
| `LocalStorage.SetValueMirrors` | src/useLocalStorage.ts:18-19 | when every step succeeds, storage under the key and the "ls-" cookie hold the same serialised text |
| `LocalStorage.Retrieved` | src/useLocalStorage.ts:28-36 | getValue's choice: the initial value when getItem throws or the item is absent, empty or unparseable; otherwise the parse result |
| `LocalStorage.GetValueSpec` | src/useLocalStorage.ts:27-38 | the value becomes the retrieved one; a fallback to the initial value is written back when its writes succeed; no other entry changes; no error escapes |
| `LocalStorage.RoundTrip` | src/useLocalStorage.ts:18-32 | a value stored with a successful storage write is read back by a later getValue, when parse undoes stringify and the text is non-empty |
| `LocalStorage.UnparseableFallsBack` | src/useLocalStorage.ts:33-37 | unparseable stored text yields the initial value and is overwritten with its serialisation when that write succeeds |
| `LocalStorage.ReplayTouchesOnlyOwnEntries` | src/useLocalStorage.ts:13-38 | any sequence of setValue/getValue calls, with any failures, leaves every other storage entry and cookie unchanged |
| `LocalStorage.Mirror.constructor` | src/useLocalStorage.ts:10 | the hook starts holding its initial value over the existing stores |
| `LocalStorage.Mirror.SetValue` | src/useLocalStorage.ts:13-24 | the new state is `SetValueSpec` of the old one; the in-memory value is the argument |
| `LocalStorage.Mirror.GetValue` | src/useLocalStorage.ts:27-38 | the new state is `GetValueSpec` of the old one |

## Left out

- The debounce timer (src/useRelativeMouseCoords.ts:45-48) comes from the `use-debounce` library: timing and foreign code. Only the moment the callback fires is modelled (`Fire`, `Tracker.Move`); "only the last event of a burst fires" is not.
- `Tracker.delay` is stored but drives nothing in the model, since the timer is not modelled.
- Listener registration and removal (src/useRelativeMouseCoords.ts:56-72, src/useLocalStorage.ts:45-51) are not modelled. The storage cleanup at src/useLocalStorage.ts:49 removes the return value of `addEventListener`, which is `undefined`, so the storage listener is never removed.
- The `storage` event from other tabs, and writes by other code, are not modelled as steps; `GetValue` on any store contents covers what the listener then does.
- React scheduling, re-rendering and the server-rendering case (src/useLocalStorage.ts:45-51) are framework behaviour.
- IEEE-754 rounding, NaN and negative zero: numbers are exact reals and a NaN is represented as a missing value. `SelectDelay` has no NaN input, which the source also replaces by the default.
- The JSON text grammar and the cookie encoding and attributes: `stringify` and `parse` are abstract functions, and the cookie store is a plain map.
- `LocalStorage.Mirror.SetValue`: calls `stringify` once where the source calls it twice; the model's stringify is a function of its argument, so both calls give the same text.
- Logging via `console.trace` and `console.warn` is diagnostics only.

## Findings

| source | as written | input that shows it | evidently intended | confidence | as-written member | corrected member |
|---|---|---|---|---|---|---|
| src/useRelativeMouseCoords.ts:45-47 | the debounced callback calls `relativeXY` on the event after a timer, when dispatch is over and the DOM has reset `event.currentTarget` to null, so the box and size are lost | box left 10, top 20, clientWidth 100, clientHeight 50; pointer at (200, 30): (200, 30) is reported, outside the element | coordinates relative to the element and clamped to it, computed while the event is dispatched: (100, 10) | not executed; rests on the DOM rule that currentTarget is null after dispatch | `RelativeMouseCoords.DeferredXY` | `RelativeMouseCoords.Tracker.Move` |
