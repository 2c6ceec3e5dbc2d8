# react-aria-live-test, modelled in Dafny

This project models the core of `src/app.jsx`, a test bench for how screen
readers announce updates to ARIA live regions. The core is made of these parts:

- `createCounter`. It returns a closure that owns a per-key dictionary and
  hands out 1, 2, 3, … for each non-empty key, or `null` for the empty key.
  One instance is shared by the whole page.
  This is module `Counters`, with the class `Counter`.
- The formatters built on that counter.
  - `m(message, disable)` numbers a message as `message #n`, unless
    `disable` is set.
  - `i(type)` builds an element id `type-n`.

  This is module `Format`. Its proofs show:
  - successive messages for the same text are distinct;
  - ids drawn for the same key are pairwise distinct, across components and
    with other `m` and `i` calls in between;
  - `m` and `i` share one table.
- The ARIA attribute filter of `LiveRegion.render` and `AriaLive.render`.
  An attribute whose value is the sentinel `[disabled]` is omitted.
  `aria-busy` is present exactly when the busy switch is on.
  This is module `Aria`.
- `LiveRegion`. It shows the current message through one of eight render
  strategies: `single`, `duplicated`, `div`, `keyed`, `array`, `array2`,
  `inner-html` and `toggle-display`. This is module `LiveRegions`, with
  these parts:
  - the pure selection of the rendered branch, as a tagged variant;
  - the state record and its transitions: constructor,
    `componentWillReceiveProps`, `componentDidMount`/`componentDidUpdate`
    and the form handlers;
  - an invariant over the message fields that every transition keeps:
    - the message is in exactly one of the two `duplicated` slots;
    - the message is the last entry of the `array` history;
    - the `array2` list is a suffix of that history, with at most two
      entries.
- `MessageGenerator`. It regenerates a message through `m`. In log mode it
  also appends each regenerated message to a list, and "Clear log!" empties
  that list. This is module `Generators`.
- The page as a whole. Every constructor's `m` and `i` calls follow the
  previous constructor's on the one shared table. Module `Format` models
  such a mixed sequence of calls (`Calls`), and module `Page` applies it to
  a MessageGenerator followed by a LiveRegion.

The components' own state changes in place, so each component is a class.
The class holds the props and the component's `this.state` as one record,
and each React `setState` call is a record update on it.

- The counter's dictionary is a `map` field of `Counter`. `m` and `i` are
  the methods `NextMessage` and `NextId` over it.
- Each method is specified by a function over the old state: `Step`,
  `Message`, `Id`, `IdsOf`, `NewMessage`, `Receive` and `Alter`. The
  properties are proved about those functions.

React elements in the message histories are represented by their text,
which is also their `key`.

The name `messageArray2` suggests a list that keeps the last two entries.
The code instead pushes and then splices `messageArray.length - 2` entries
off the front (src/app.jsx:316-318), where the length is that of the full
history, not of the `array2` list. The model follows the code. As written,
the `array2` list holds at most two entries, always a suffix of the history,
and it is empty from the fifth message on. `Array2FirstChanges` gives the
trace.

## Model

| member | source | states |
|---|---|---|
| Counters.Step | src/app.jsx:11-16 | the empty key yields `None` (`null`) and leaves the table alone; any other key yields its previous count plus one and stores it; other keys keep their counts; all stored counts stay at least 1 |
| Counters.Counter.constructor | src/app.jsx:8-9 | a new counter starts with an empty dictionary |
| Counters.Counter.Next | src/app.jsx:11-16 | one call of the closure: result and new dictionary are those of `Step` |
| Counters.Run | src/app.jsx:11-16 | a sequence of calls of the closure, one after the other: one result per call |
| Counters.RunCounts | src/app.jsx:11-16 | after a run of calls, each key's count has grown by exactly the number of times it was asked for |
| Counters.RunKeepsEntries | src/app.jsx:12-15 | a run of calls never forgets a key and never stores the empty key |
| Counters.RunAt | src/app.jsx:11-16 | the j-th call of a run returns `null` for the empty key, otherwise the key's starting count plus its occurrences before j, plus one |
| Counters.RepeatedCalls | src/app.jsx:15 | asking n times for the same key returns consecutive numbers c+1, …, c+n |
| Format.Show | src/app.jsx:21 | the decimal text of a count is non-empty and all digits |
| Format.InterpolateNull | src/app.jsx:21 | interpolating the counter's result gives `null` exactly for the empty key's `null`; no count prints as `null` |
| Format.ShowInjective | src/app.jsx:21 | different numbers interpolate to different decimal texts |
| Format.Message | src/app.jsx:21 | `m` with `disable` returns the message and draws nothing; otherwise it appends ` #` and the next count for that message (` #null` for the empty message), and advances the shared table as the counter does |
| Format.Id | src/app.jsx:23 | `i(type)` is `type-` followed by the next count for `type` (`-null` for the empty type), advancing the shared table |
| Format.IdsOf | src/app.jsx:23 | a sequence of `i` calls: one id per key, and the table a run of the counter on the same keys leaves |
| Format.IdsOfAt | src/app.jsx:23 | the j-th id of a run of `i` calls is its key, `-`, and the j-th counter result of the same run |
| Format.IdsDistinct | src/app.jsx:23 | two `i` calls of one run with the same non-empty key produce different ids |
| Format.Perform | src/app.jsx:19-23 | one `m` or `i` call on the shared table advances it exactly as one counter call on the key it hands over (none for a disabled `m`) |
| Format.CallsFollowRun | src/app.jsx:19-23 | a mixed sequence of `m` and `i` calls leaves the table a run of the counter on their keys leaves |
| Format.CallsAppend | src/app.jsx:19-23 | two call sequences made one after the other are one sequence: texts concatenate, and the second starts on the table the first left |
| Format.CallsIdAt | src/app.jsx:23 | an `i` call anywhere in a mixed sequence interpolates the counter's value for it in the run over all the calls' keys |
| Format.CallIdsDistinct | src/app.jsx:19-23 | two `i(ty)` calls with the same non-empty type give different ids wherever they fall in the page's call sequence, whatever calls come between |
| Format.IdsOfAreCalls | src/app.jsx:23 | a sequence of `i` calls is the mixed call sequence of those `i` calls |
| Format.MessagesAdvance | src/app.jsx:21 | two successive `m(msg)` calls give different texts exactly when `msg` is non-empty |
| Format.SharedTable | src/app.jsx:19-23 | `m(k)` then `i(k)` share one count: the id carries the message's number plus one |
| Format.FirstTwoMessages | src/app.jsx:21 | on a fresh table, `m(x)` twice gives `x #1` then `x #2` |
| Format.NextMessage | src/app.jsx:21 | the arrow function `m` over the shared counter: text and new dictionary are those of `Message` |
| Format.NextId | src/app.jsx:23 | the arrow function `i` over the shared counter: text and new dictionary are those of `Id` |
| Aria.RegionAttrs | src/app.jsx:393-398 | each of role, aria-live, aria-atomic and aria-relevant is present iff its value is not `[disabled]`, and then carries that value; aria-busy is present iff the busy switch is on and then carries the busy value; no other attribute appears |
| Aria.LiveAttrs | src/app.jsx:677-681 | the same four-attribute filter, with no aria-busy |
| Aria.LiveAttrsAreRegionAttrsWithoutBusy | src/app.jsx:677-681 | the AriaLive filter is the LiveRegion filter with the busy switch off |
| Aria.SentinelNeverEmitted | src/app.jsx:395-398 | no emitted attribute ever carries the value `[disabled]` |
| LiveRegions.ParseType | src/app.jsx:405-439 | a type string selects the strategy whose name it equals, and none when it equals no strategy's name |
| LiveRegions.ParseName | src/app.jsx:405-439 | every strategy's own name selects that strategy |
| LiveRegions.Style | src/app.jsx:400-401 | the style object has a display entry exactly when `display` is non-empty, and then carries it |
| LiveRegions.View | src/app.jsx:386-398 | render reads the enabled flag, type, display and all message fields of the state unchanged, and the ARIA settings through the filter |
| LiveRegions.Branch | src/app.jsx:405-439 | the branch built for a strategy is of that strategy's kind and carries the filtered attributes |
| LiveRegions.Children | src/app.jsx:405-439 | the eight guarded children, as written, render at most one branch, only when enabled, of the kind the type names and with the filtered attributes |
| LiveRegions.Select | src/app.jsx:405-439 | a branch is rendered iff the region is enabled and its type names a strategy; the branch rendered is the one named by the type, carrying the filtered attributes |
| LiveRegions.ChildrenAreSelection | src/app.jsx:405-439 | of the eight guarded children, exactly the selected one is rendered, and none when disabled or unknown |
| LiveRegions.SpliceFront | src/app.jsx:318 | `splice(0, k)` leaves a suffix of the list, with `k` entries removed (none for `k` below 0, all for `k` past the end) |
| LiveRegions.PushTrim | src/app.jsx:316-318 | push then splice by the history's new length minus two: a suffix of the pushed list; empty once the history is two longer than the list; whole while the history had at most one entry |
| LiveRegions.PushTrimKeepsSuffix | src/app.jsx:316-318 | after the push and splice, the `array2` list is still a suffix of the history, with at most two entries |
| LiveRegions.PushTrimEmpties | src/app.jsx:316-318 | once the history holds four entries before a push, the `array2` list comes out empty |
| LiveRegions.Array2FirstChanges | src/app.jsx:316-318 | from the first message, the `array2` list goes [m0,m1], [m1,m2], [m3], [] over the first four changes |
| LiveRegions.DisplayFor | src/app.jsx:296 | the display a reset sets is `none` exactly for `toggle-display`, `''` otherwise |
| LiveRegions.Initial | src/app.jsx:273-297 | the initial message is `prefix message`; it fills slot 1, slot 2 is empty, both histories are [message]; `enabled` is `!disabled`; the busy switch is `!ariaBusyDisabled`; display is `none` only for `toggle-display`; the invariant holds |
| LiveRegions.NewMessage | src/app.jsx:313-325 | a new message is pushed onto the history; the `array2` list is pushed and spliced; each slot holds the message or is empty, and a non-empty message goes to slot 1 exactly when slot 1 was empty, to slot 2 otherwise; `ariaBusy` becomes the busy switch; display is reset for the current type; nothing else changes |
| LiveRegions.Receive | src/app.jsx:312-337 | a changed message or prefix installs a new message; an unchanged one leaves every message field and `ariaBusy` as it was; a changed type is adopted and resets display for the new type; a changed `disabled` sets `enabled`; the attributes and ids never change |
| LiveRegions.ReceiveAsWritten | src/app.jsx:312-337 | as written, a change of the type prop throws, leaving only the histories, which hold the in-place pushes of lines 316-318 when the message changed too; any other update is `Receive` |
| LiveRegions.SwitchToToggleDisplay | src/app.jsx:327-331 | switching the type from `single` to `toggle-display` (message unchanged) throws as written with the histories untouched, while the intended update adopts the type and hides the region |
| LiveRegions.NewMessageKeepsValid | src/app.jsx:313-325 | installing a non-empty message keeps the message invariant |
| LiveRegions.ReceiveKeepsValid | src/app.jsx:312-337 | every prop update keeps the message invariant |
| LiveRegions.MessageChange | src/app.jsx:321-322 | on a message change, the new message lands in slot 1 iff slot 1 was empty, and in slot 2 iff slot 1 held the old message |
| LiveRegions.SlotsAlternate | src/app.jsx:321-322 | two message changes in a row put the messages in different slots |
| LiveRegions.RenderCarriesMessage | src/app.jsx:405-439 | on a valid state, whatever branch renders carries the current message, except `array2` once its list is empty |
| LiveRegions.RegionTimerIdsDistinct | src/app.jsx:290-294 | the five ids drawn with key `timer` are pairwise distinct |
| LiveRegions.DrawRegionIds | src/app.jsx:288-295 | the eight ids are drawn in source order: form, switch, five timer ids, busy |
| LiveRegions.LiveRegion.constructor | src/app.jsx:273-297 | the state is `Initial` of the props with the eight ids drawn from the shared counter; the invariant holds; the five timer ids are pairwise distinct |
| LiveRegions.LiveRegion.WillReceiveProps | src/app.jsx:312-337 | the new state is `Receive` of the old state and props; the invariant is kept; the new props are installed |
| LiveRegions.LiveRegion.Settle | src/app.jsx:352-355 | after mount or update, `ariaBusy` becomes false when the busy switch is on, and a `none` display becomes `block`; nothing else changes |
| LiveRegions.LiveRegion.SetEnabled | src/app.jsx:357-359 | the switch sets `enabled` and nothing else |
| LiveRegions.LiveRegion.SetRenderType | src/app.jsx:361-363 | the type select sets the type and leaves display alone |
| LiveRegions.LiveRegion.SetRole | src/app.jsx:365-367 | the role select sets the role and nothing else |
| LiveRegions.LiveRegion.SetAriaLive | src/app.jsx:369-371 | sets aria-live and nothing else |
| LiveRegions.LiveRegion.SetAriaAtomic | src/app.jsx:373-375 | sets aria-atomic and nothing else |
| LiveRegions.LiveRegion.SetAriaRelevant | src/app.jsx:377-379 | sets aria-relevant and nothing else |
| LiveRegions.LiveRegion.SetAriaBusyEnabled | src/app.jsx:381-383 | sets the busy switch and nothing else |
| Generators.Alter | src/app.jsx:180-184 | the message becomes `m(msg)`, drawn from the shared table; it is appended to the log exactly in log mode; the timer, flags and ids are untouched |
| Generators.AlterTimes | src/app.jsx:180-184 | n successive `alterMessage` calls (timer ticks or button presses) keep the timer, both flags and the ids |
| Generators.AlterTimesRun | src/app.jsx:180-184 | n regenerations leave the shared table as n counter calls on the message do |
| Generators.LogRecordsEveryMessage | src/app.jsx:180-184 | in log mode, n regenerations of a non-empty message append the n next numbered messages, in order, after the untouched earlier log; the count grows by n; the shown message is the last of them |
| Generators.LogEntriesDistinct | src/app.jsx:183 | the log entries added by a run of regenerations are pairwise distinct, so their keys are too |
| Generators.NoLogKeepsArray | src/app.jsx:183 | outside log mode, regenerations never change the log |
| Generators.Receive | src/app.jsx:146-159 | a changed message prop regenerates through `alterMessage` under the old log flag; an unchanged one leaves the message, log and table alone; the timer and both flags follow their props when those change; ids never change |
| Generators.ConstructorCalls | src/app.jsx:126-136 | the constructor's counter calls in order: `m(props.message)`, then `i` of form, timer, is-keyed, is-log |
| Generators.ConstructorMakesCalls | src/app.jsx:126-136 | made as one call sequence, those calls give the constructor's message and ids and leave its table |
| Generators.DrawGeneratorIds | src/app.jsx:133-136 | the four ids are drawn in source order: form, timer, is-keyed, is-log |
| Generators.MessageGenerator.constructor | src/app.jsx:124-137 | the first message is `m(props.message)`, the log starts with it, timer and flags come from the props, and the four ids are drawn after the message |
| Generators.MessageGenerator.AlterMessage | src/app.jsx:180-184 | state and shared table become those of `Alter` |
| Generators.MessageGenerator.MessageButton | src/app.jsx:198-200 | regenerates from the current message prop |
| Generators.MessageGenerator.ClearLog | src/app.jsx:202-204 | empties the log and changes nothing else |
| Generators.MessageGenerator.SetKeyed | src/app.jsx:190-192 | sets the keyed flag and nothing else |
| Generators.MessageGenerator.SetLog | src/app.jsx:194-196 | sets the log flag and nothing else |
| Generators.MessageGenerator.WillReceiveProps | src/app.jsx:146-159 | state and shared table become those of `Receive` of the old state and props; the new props are installed |
| Page.FormIdsDistinctAcrossComponents | src/app.jsx:19-23 | a LiveRegion constructed after a MessageGenerator gets a form id different from the generator's, although the generator's `m` call comes between |

## Left out

- Markup is not modelled: JSX, the DOM, `ReactDOM.render`, the forms, `OffDiv` and CSS. A render is modelled only as the branch `LiveRegion` selects, with its attributes and content.
- `inner-html` carries the message as the markup string. The effects of `dangerouslySetInnerHTML` are not modelled.
- `LiveAnnouncer`, `LiveMessage`, `LiveMessageProxy`, `AriaAlertButton`/`AriaAlertDisplay`, the Alert/Status/Log/AriaLive shells and `MyApp` are not part of this model. They are fixed configurations or third-party announcers around the modelled core.
- Only the attribute filter of `AriaLive.render` is modelled.
- The timers are not modelled: `setInterval`, `clearInterval`, `setTimeout`, `componentWillUpdate` and `componentWillUnmount`. A timer tick is the same `alterMessage` call that `AlterTimes` iterates.
- `timerHandler` (src/app.jsx:186-188) is not modelled. It stores the text of an input field, which only feeds the timers.
- `console.log` and `Math.random` are not modelled.
- `shouldComponentUpdate` is not modelled. It decides only whether React re-renders, not what the state becomes.
- The object identity of the in-place pushes is not modelled. Because the histories are pushed in place, that comparison cannot see them change.
- Histories are values in the model, so the aliasing between `this.state` arrays and earlier renders is not represented.
- Props are total values. A missing (`undefined`) prop, the default `timer: false` as anything other than `None`, and JavaScript object-key quirks are not represented.
- `LiveRegion` keeps the four ARIA settings as one `AriaConfig` value and its eight element ids as one sequence. The source has separate state fields for them, and its handlers update them the same way.
- Counters.Step: counts are unbounded naturals. JavaScript numbers stop counting exactly above 2^53, which is out of reach here.

## Findings

| source | as written | input that shows it | evidently intended | confidence | as-written member | corrected member |
|---|---|---|---|---|---|---|
| src/app.jsx:330 | The display reset for a type change reads `type`. That name is declared with `const` only inside the message-change block at lines 314-325, so ES2015 block scoping leaves it unbound at line 330. A type change therefore throws. When message or prefix changed in the same update, the pushes onto both histories at lines 316-318 have already happened in place and persist. | The type prop changes from `single` to `toggle-display` while message and prefix stay the same. | The reset uses the new type: `toggle-display` gets display `none`, any other type gets `''`. | medium (depends on how the transpiler scopes the block `const`), not executed | LiveRegions.ReceiveAsWritten, LiveRegions.SwitchToToggleDisplay | LiveRegions.Receive, LiveRegions.ReceiveKeepsValid |
