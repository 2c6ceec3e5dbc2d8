/**
 * `LiveRegion` (src/app.jsx): a component that shows the current message in
 * one of eight DOM update strategies, chosen by its `type`, inside a region
 * carrying the filtered ARIA attributes. The state it keeps across prop
 * changes is the class `LiveRegion`; what one render shows is the function
 * `Select` over a `RegionView`.
 */
module LiveRegions {
  import opened Wrappers
  import opened Counters
  import opened Format
  import opened Aria

  /** The props LiveRegion reads (`type` is `renderType` here). */
  datatype RegionProps = RegionProps(
    message: string, prefix: string, renderType: string, disabled: bool,
    role: string, ariaLive: string, ariaAtomic: string, ariaRelevant: string,
    ariaBusyDisabled: bool)

  /** The render strategies offered by the Type select, as a tagged variant. */
  datatype RenderType = Single | Duplicated | Div | Keyed | Array | Array2 | InnerHtml | ToggleDisplay

  function Name(k: RenderType): string {
    match k
    case Single => "single"
    case Duplicated => "duplicated"
    case Div => "div"
    case Keyed => "keyed"
    case Array => "array"
    case Array2 => "array2"
    case InnerHtml => "inner-html"
    case ToggleDisplay => "toggle-display"
  }

  /** The strategy a `type` string names; `None` for a string naming none,
      for which nothing is rendered. */
  function ParseType(s: string): (r: Option<RenderType>)
    ensures r.Some? ==> Name(r.value) == s
    ensures r.None? ==> forall k :: Name(k) != s
  {
    if s == "single" then Some(Single)
    else if s == "duplicated" then Some(Duplicated)
    else if s == "div" then Some(Div)
    else if s == "keyed" then Some(Keyed)
    else if s == "array" then Some(Array)
    else if s == "array2" then Some(Array2)
    else if s == "inner-html" then Some(InnerHtml)
    else if s == "toggle-display" then Some(ToggleDisplay)
    else None
  }

  /** Naming a strategy and reading the name back gives the same strategy. */
  lemma ParseName(k: RenderType)
    ensures ParseType(Name(k)) == Some(k)
  {
  }

  /** What one strategy renders. In `DuplicatedView` both sibling divs carry
      `attrs`; in the others the wrapping div does. */
  datatype Rendered =
    | DuplicatedView(attrs: Attrs, first: string, second: string)
    | SingleView(attrs: Attrs, text: string)
    | DivView(attrs: Attrs, text: string)
    | KeyedView(attrs: Attrs, key: string, text: string)
    | ArrayView(attrs: Attrs, items: seq<string>)
    | Array2View(attrs: Attrs, items: seq<string>)
    | InnerHtmlView(attrs: Attrs, html: string)
    | ToggleDisplayView(attrs: Attrs, style: Option<string>, text: string)

  function KindOf(r: Rendered): RenderType {
    match r
    case DuplicatedView(_, _, _) => Duplicated
    case SingleView(_, _) => Single
    case DivView(_, _) => Div
    case KeyedView(_, _, _) => Keyed
    case ArrayView(_, _) => Array
    case Array2View(_, _) => Array2
    case InnerHtmlView(_, _) => InnerHtml
    case ToggleDisplayView(_, _, _) => ToggleDisplay
  }

  /** The part of the component state that `render` reads, with the ARIA
      attributes already filtered. */
  datatype RegionView = RegionView(
    enabled: bool, renderType: string, attrs: Attrs,
    message: string, message1: string, message2: string,
    messageArray: seq<string>, messageArray2: seq<string>, display: string)

  /** The `style` object: a `display` entry only when `display` is truthy. */
  function Style(display: string): (r: Option<string>)
    ensures r.Some? <==> display != ""
    ensures r.Some? ==> r.value == display
  {
    if display != "" then Some(display) else None
  }

  /** The output of strategy `k` for the view `v`. */
  function Branch(k: RenderType, v: RegionView): (r: Rendered)
    ensures KindOf(r) == k && r.attrs == v.attrs
  {
    match k
    case Duplicated => DuplicatedView(v.attrs, v.message1, v.message2)
    case Single => SingleView(v.attrs, v.message)
    case Div => DivView(v.attrs, v.message)
    case Keyed => KeyedView(v.attrs, v.message, v.message)
    case Array => ArrayView(v.attrs, v.messageArray)
    case Array2 => Array2View(v.attrs, v.messageArray2)
    case InnerHtml => InnerHtmlView(v.attrs, v.message)
    case ToggleDisplay => ToggleDisplayView(v.attrs, Style(v.display), v.message)
  }

  /** The rendered children as the component writes them: eight independent
      `enabled && type === ...` guards, in source order. */
  function Children(v: RegionView): (r: seq<Rendered>)
    ensures |r| <= 1
    ensures |r| == 1 ==> v.enabled && Name(KindOf(r[0])) == v.renderType && r[0].attrs == v.attrs
  {
    (if v.enabled && v.renderType == "duplicated" then [Branch(Duplicated, v)] else [])
    + (if v.enabled && v.renderType == "single" then [Branch(Single, v)] else [])
    + (if v.enabled && v.renderType == "div" then [Branch(Div, v)] else [])
    + (if v.enabled && v.renderType == "keyed" then [Branch(Keyed, v)] else [])
    + (if v.enabled && v.renderType == "array" then [Branch(Array, v)] else [])
    + (if v.enabled && v.renderType == "array2" then [Branch(Array2, v)] else [])
    + (if v.enabled && v.renderType == "inner-html" then [Branch(InnerHtml, v)] else [])
    + (if v.enabled && v.renderType == "toggle-display" then [Branch(ToggleDisplay, v)] else [])
  }

  /** The render selection as one choice over the tagged variant: nothing
      when disabled or when `type` names no strategy, else the named one. */
  function Select(v: RegionView): (r: Option<Rendered>)
    ensures r.Some? <==> v.enabled && ParseType(v.renderType).Some?
    ensures r.Some? ==> Name(KindOf(r.value)) == v.renderType && r.value.attrs == v.attrs
  {
    if !v.enabled then None
    else match ParseType(v.renderType)
      case None => None
      case Some(k) => Some(Branch(k, v))
  }

  /** At most one of the eight guarded branches renders, none when the
      region is disabled, and it is the one `Select` chooses. */
  lemma ChildrenAreSelection(v: RegionView)
    ensures Children(v) == if Select(v).Some? then [Select(v).value] else []
  {
  }

  predicate IsSuffix(s: seq<string>, of: seq<string>) {
    |s| <= |of| && s == of[|of| - |s|..]
  }

  /** `s.splice(0, deleteCount)` on a JavaScript array, as the array left
      behind: a count below one removes nothing, one past the end removes all. */
  function SpliceFront(s: seq<string>, deleteCount: int): (r: seq<string>)
    ensures IsSuffix(r, s)
    ensures |r| == if deleteCount <= 0 then |s| else if deleteCount >= |s| then 0 else |s| - deleteCount
  {
    if deleteCount <= 0 then s else if deleteCount >= |s| then [] else s[deleteCount..]
  }

  /** `messageArray2` after a message change: the message pushed, then
      `messageArray.length - 2` entries spliced off the front, where
      `messageArray` (`log`, before its own push) has just grown by one. */
  function PushTrim(log: seq<string>, log2: seq<string>, msg: string): (r: seq<string>)
    ensures IsSuffix(r, log2 + [msg])
    ensures |log2| + 2 <= |log| ==> r == []
    ensures |log| <= 1 ==> r == log2 + [msg]
  {
    SpliceFront(log2 + [msg], |log| + 1 - 2)
  }

  /** While `messageArray2` is a suffix of `messageArray`, it stays one and
      holds at most two entries after each change. */
  lemma PushTrimKeepsSuffix(log: seq<string>, log2: seq<string>, msg: string)
    requires IsSuffix(log2, log)
    ensures IsSuffix(PushTrim(log, log2, msg), log + [msg])
    ensures |PushTrim(log, log2, msg)| <= 2
  {
    var pushed := log2 + [msg];
    var grown := log + [msg];
    assert pushed == grown[|grown| - |pushed|..];
  }

  /** Because the trim is computed from `messageArray`'s length, a change made
      once `messageArray` holds four entries leaves `messageArray2` empty. */
  lemma PushTrimEmpties(log: seq<string>, log2: seq<string>, msg: string)
    requires |log2| <= 2 && |log| >= 4
    ensures PushTrim(log, log2, msg) == []
  {
  }

  /** The as-written trim on the first four changes after construction with
      message `m0`: `messageArray2` goes [m0,m1], [m1,m2], [m3], [] while
      `messageArray` keeps every message. */
  lemma Array2FirstChanges(m0: string, m1: string, m2: string, m3: string, m4: string)
    ensures PushTrim([m0], [m0], m1) == [m0, m1]
    ensures PushTrim([m0, m1], [m0, m1], m2) == [m1, m2]
    ensures PushTrim([m0, m1, m2], [m1, m2], m3) == [m3]
    ensures PushTrim([m0, m1, m2, m3], [m3], m4) == []
  {
    assert [m0, m1, m2] + [m3] == [m0, m1, m2, m3];
    assert ([m1, m2] + [m3])[2..] == [m3];
  }

  /** The `display` a change sets: a toggle-display region is hidden
      (`none`) until the next update shows it again. */
  function DisplayFor(renderType: string): (r: string)
    ensures r == "none" <==> renderType == "toggle-display"
    ensures r == "none" || r == ""
  {
    if renderType == "toggle-display" then "none" else ""
  }

  /** Whether a prop change re-derives the message. */
  predicate MessageChanged(was: RegionProps, next: RegionProps) {
    next.message != was.message || next.prefix != was.prefix
  }

  /** The component's `this.state`. The four ARIA settings (`role`,
      `ariaLive`, `ariaAtomic`, `ariaRelevant`) are grouped in `aria`, and the
      eight element ids (`formId`, `switchId`, `typeId`, `roleId`,
      `ariaLiveId`, `ariaAtomicId`, `ariaRelevantId`, `busyId`) in `ids`. */
  datatype RegionState = RegionState(
    message: string, message1: string, message2: string,
    messageArray: seq<string>, messageArray2: seq<string>,
    renderType: string, enabled: bool, aria: AriaConfig,
    ariaBusyEnabled: bool, ariaBusy: Option<bool>, display: string,
    ids: seq<string>)

  /** The invariant of the message part of the state: the message is in
      exactly one of the two duplicated slots, it is the latest log entry,
      and `messageArray2` is a suffix of the log of at most two entries,
      empty once the log has five. */
  ghost predicate MessagesValid(message: string, message1: string, message2: string,
                                log: seq<string>, log2: seq<string>) {
    && message != ""
    && ((message1 == message && message2 == "") || (message1 == "" && message2 == message))
    && |log| >= 1 && log[|log| - 1] == message
    && IsSuffix(log2, log) && |log2| <= 2
    && (|log| >= 5 ==> log2 == [])
  }

  /** The state invariant; it constrains only the message part. */
  ghost predicate Valid(s: RegionState) {
    MessagesValid(s.message, s.message1, s.message2, s.messageArray, s.messageArray2)
  }

  /** What `render` reads from the state: the fields it destructures, with
      the ARIA settings already filtered into attributes. */
  function View(s: RegionState): (v: RegionView)
    ensures v.enabled == s.enabled && v.renderType == s.renderType && v.display == s.display
    ensures v.attrs == RegionAttrs(s.aria, s.ariaBusyEnabled, s.ariaBusy)
    ensures v.message == s.message && v.message1 == s.message1 && v.message2 == s.message2
    ensures v.messageArray == s.messageArray && v.messageArray2 == s.messageArray2
  {
    RegionView(s.enabled, s.renderType,
      RegionAttrs(s.aria, s.ariaBusyEnabled, s.ariaBusy),
      s.message, s.message1, s.message2, s.messageArray, s.messageArray2, s.display)
  }

  /** The constructor's state: the message is `prefix + " " + message`, it
      fills the first duplicated slot and starts both logs, every setting
      comes from the props, `ariaBusy` is not yet set, and a toggle-display
      region starts hidden. */
  function Initial(p: RegionProps, ids: seq<string>): (s: RegionState)
    requires |ids| == 8
    ensures Valid(s)
    ensures s.message == p.prefix + " " + p.message
    ensures s.messageArray == [s.message] && s.messageArray2 == [s.message]
    ensures s.message1 == s.message && s.message2 == ""
    ensures s.enabled == !p.disabled && s.ariaBusyEnabled == !p.ariaBusyDisabled && s.ariaBusy == None
    ensures s.renderType == p.renderType
    ensures s.aria == AriaConfig(p.role, p.ariaLive, p.ariaAtomic, p.ariaRelevant)
    ensures s.display == if p.renderType == "toggle-display" then "none" else ""
    ensures s.ids == ids
  {
    var msg := p.prefix + " " + p.message;
    RegionState(
      msg, msg, "", [msg], [msg], p.renderType, !p.disabled,
      AriaConfig(p.role, p.ariaLive, p.ariaAtomic, p.ariaRelevant), !p.ariaBusyDisabled, None,
      DisplayFor(p.renderType), ids)
  }

  /** The message-change branch of `componentWillReceiveProps` for the new
      message `msg`: the push onto both logs, the splice of `messageArray2`
      by `messageArray.length - 2`, the slot swap, `ariaBusy` and `display`.
      Only those fields change. */
  function NewMessage(s: RegionState, msg: string): (r: RegionState)
    ensures r.message == msg
    ensures (r.message1 == "" || r.message1 == msg) && (r.message2 == "" || r.message2 == msg)
    ensures msg != "" ==>
      && (r.message1 == msg <==> s.message1 == "")
      && (r.message2 == msg <==> s.message1 != "")
      && (r.message1 == "" <==> r.message2 != "")
    ensures r.messageArray == s.messageArray + [msg]
    ensures r.messageArray2 == PushTrim(s.messageArray, s.messageArray2, msg)
    ensures r.ariaBusy == Some(s.ariaBusyEnabled)
    ensures r.display == DisplayFor(s.renderType)
    ensures r.renderType == s.renderType && r.enabled == s.enabled && r.aria == s.aria
    ensures r.ariaBusyEnabled == s.ariaBusyEnabled && r.ids == s.ids
  {
    var log := s.messageArray + [msg];
    var log2 := SpliceFront(s.messageArray2 + [msg], |log| - 2);
    s.(message := msg,
       message1 := if s.message1 != "" then "" else msg,
       message2 := if s.message1 != "" then msg else "",
       messageArray := log, messageArray2 := log2,
       ariaBusy := Some(s.ariaBusyEnabled),
       display := DisplayFor(s.renderType))
  }

  /** `componentWillReceiveProps` from props `was` to `next`, as the merged
      result of its three `setState` calls. The display reset of a type
      change is computed from the new type. */
  function Receive(s: RegionState, was: RegionProps, next: RegionProps): (r: RegionState)
    ensures r.renderType == if next.renderType != was.renderType then next.renderType else s.renderType
    ensures r.enabled == if next.disabled != was.disabled then !next.disabled else s.enabled
    ensures r.display ==
      if next.renderType != was.renderType then DisplayFor(next.renderType)
      else if MessageChanged(was, next) then DisplayFor(s.renderType)
      else s.display
    ensures !MessageChanged(was, next) ==>
      && r.message == s.message && r.message1 == s.message1 && r.message2 == s.message2
      && r.messageArray == s.messageArray && r.messageArray2 == s.messageArray2
      && r.ariaBusy == s.ariaBusy
    ensures r.aria == s.aria && r.ariaBusyEnabled == s.ariaBusyEnabled
    ensures r.ids == s.ids
  {
    var s1 := if MessageChanged(was, next) then NewMessage(s, next.prefix + " " + next.message) else s;
    var s2 := if next.renderType != was.renderType
      then s1.(renderType := next.renderType,
               display := DisplayFor(next.renderType))
      else s1;
    if next.disabled != was.disabled then s2.(enabled := !next.disabled) else s2
  }

  /** How `componentWillReceiveProps` as written ends: the merged update,
      or a throw that leaves behind only the two histories, which were
      pushed (and spliced) in place before it. */
  datatype Outcome =
    | Updated(state: RegionState)
    | Threw(messageArray: seq<string>, messageArray2: seq<string>)

  /** `componentWillReceiveProps` as written: the display reset of a type
      change reads `type`, a name bound only inside the message-change block,
      so under ES2015 block scoping it is unbound there and a type change
      throws. When the message changed as well, the pushes onto both
      histories have already happened and persist, since they mutate the
      state's arrays in place; the `setState` queued before the throw is not
      modelled. `Receive` is the evident intent, which reads the new type. */
  function ReceiveAsWritten(s: RegionState, was: RegionProps, next: RegionProps): (r: Outcome)
    ensures r.Threw? <==> next.renderType != was.renderType
    ensures r.Updated? ==> r.state == Receive(s, was, next)
    ensures r.Threw? ==>
      && r.messageArray == Receive(s, was, next).messageArray
      && r.messageArray2 == Receive(s, was, next).messageArray2
  {
    if next.renderType == was.renderType then Updated(Receive(s, was, next))
    else if MessageChanged(was, next) then
      var msg := next.prefix + " " + next.message;
      Threw(s.messageArray + [msg], PushTrim(s.messageArray, s.messageArray2, msg))
    else Threw(s.messageArray, s.messageArray2)
  }

  /** Switching the type prop to "toggle-display": as written the update
      throws, where the intended one hides the container for the next
      reveal. */
  lemma SwitchToToggleDisplay(s: RegionState, was: RegionProps)
    requires was.renderType == "single"
    ensures ReceiveAsWritten(s, was, was.(renderType := "toggle-display"))
         == Threw(s.messageArray, s.messageArray2)
    ensures Receive(s, was, was.(renderType := "toggle-display")).display == "none"
    ensures Receive(s, was, was.(renderType := "toggle-display")).renderType == "toggle-display"
  {
  }

  /** A message change keeps the state invariant. */
  lemma NewMessageKeepsValid(s: RegionState, msg: string)
    requires Valid(s) && msg != ""
    ensures Valid(NewMessage(s, msg))
  {
    PushTrimKeepsSuffix(s.messageArray, s.messageArray2, msg);
    if |s.messageArray| >= 4 {
      PushTrimEmpties(s.messageArray, s.messageArray2, msg);
    }
  }

  /** Every prop change keeps the state invariant. */
  lemma ReceiveKeepsValid(s: RegionState, was: RegionProps, next: RegionProps)
    requires Valid(s)
    ensures Valid(Receive(s, was, next))
  {
    var s1 := if MessageChanged(was, next) then NewMessage(s, next.prefix + " " + next.message) else s;
    if MessageChanged(was, next) {
      NewMessageKeepsValid(s, next.prefix + " " + next.message);
    }
    assert Valid(s1);
    var s2 := if next.renderType != was.renderType
      then s1.(renderType := next.renderType,
               display := DisplayFor(next.renderType))
      else s1;
    assert Valid(s2);
    assert Receive(s, was, next) == if next.disabled != was.disabled then s2.(enabled := !next.disabled) else s2;
  }

  /** On a message or prefix change the message becomes `prefix + " " +
      message`, it is appended to `messageArray` with the earlier entries
      untouched, exactly one duplicated slot holds it and the other is empty,
      and the slot used is `message1` exactly when `message1` was empty. */
  lemma MessageChange(s: RegionState, was: RegionProps, next: RegionProps)
    requires MessageChanged(was, next)
    ensures var r := Receive(s, was, next);
      && r.message == next.prefix + " " + next.message
      && r.messageArray == s.messageArray + [r.message]
      && r.messageArray2 == PushTrim(s.messageArray, s.messageArray2, r.message)
      && (r.message1 == r.message <==> s.message1 == "")
      && (r.message2 == r.message <==> s.message1 != "")
      && (r.message1 == "" <==> r.message2 != "")
      && r.ariaBusy == Some(s.ariaBusyEnabled)
  {
  }

  /** Two message changes in a row use both duplicated slots, one each. */
  lemma SlotsAlternate(s: RegionState, p0: RegionProps, p1: RegionProps, p2: RegionProps)
    requires Valid(s) && MessageChanged(p0, p1) && MessageChanged(p1, p2)
    ensures var r1 := Receive(s, p0, p1); var r2 := Receive(r1, p1, p2);
      (r1.message1 != "") != (r2.message1 != "")
  {
    ReceiveKeepsValid(s, p0, p1);
  }

  /** Whether a rendered branch carries the text `msg` in its content. */
  predicate Carries(r: Rendered, msg: string) {
    match r
    case DuplicatedView(_, first, second) => first == msg || second == msg
    case SingleView(_, text) => text == msg
    case DivView(_, text) => text == msg
    case KeyedView(_, _, text) => text == msg
    case ArrayView(_, items) => msg in items
    case Array2View(_, items) => msg in items
    case InnerHtmlView(_, html) => html == msg
    case ToggleDisplayView(_, _, text) => text == msg
  }

  /** Whatever strategy renders, its content carries the current message,
      except `array2` once the as-written trim has emptied its list. */
  lemma RenderCarriesMessage(s: RegionState)
    requires Valid(s) && Select(View(s)).Some?
    ensures Carries(Select(View(s)).value, s.message)
        <==> (KindOf(Select(View(s)).value) != Array2 || s.messageArray2 != [])
  {
    var log, log2 := s.messageArray, s.messageArray2;
    if log2 != [] {
      assert log2[|log2| - 1] == log[|log| - 1];
    }
  }

  /** The five `i('timer')` ids a LiveRegion draws are pairwise distinct. */
  lemma RegionTimerIdsDistinct(t: Table)
    ensures forall j, k :: 2 <= j < k < 7 ==> IdsOf(t, RegionIdKeys).0[j] != IdsOf(t, RegionIdKeys).0[k]
  {
    forall j, k | 2 <= j < k < 7
      ensures IdsOf(t, RegionIdKeys).0[j] != IdsOf(t, RegionIdKeys).0[k]
    {
      IdsDistinct(t, RegionIdKeys, j, k);
    }
  }

  /** The keys the constructor draws ids for, in order. */
  const RegionIdKeys: seq<string> := ["form", "switch", "timer", "timer", "timer", "timer", "timer", "busy"]


  /** The key list as the one-call-at-a-time concatenation `DrawRegionIds`
      builds (kept apart: asserted inside that method it is costly). */
  lemma RegionIdKeysSplit()
    ensures RegionIdKeys == [] + ["form"] + ["switch"] + ["timer"] + ["timer"] + ["timer"] + ["timer"] + ["timer"] + ["busy"]
  {
  }

  /** The eight `i(...)` calls of the constructor's state literal, in order. */
  method DrawRegionIds(c: Counter) returns (ids: seq<string>)
    modifies c
    ensures (ids, c.table) == IdsOf(old(c.table), RegionIdKeys)
  {
    ghost var t0 := c.table;
    ghost var keys: seq<string> := [];
    ghost var before := c.table;
    ids := [];
    var formId := NextId(c, "form");
    IdsOfSnoc(t0, keys, ids, before, "form", formId, c.table);
    keys, ids, before := keys + ["form"], ids + [formId], c.table;
    var switchId := NextId(c, "switch");
    IdsOfSnoc(t0, keys, ids, before, "switch", switchId, c.table);
    keys, ids, before := keys + ["switch"], ids + [switchId], c.table;
    var typeId := NextId(c, "timer");
    IdsOfSnoc(t0, keys, ids, before, "timer", typeId, c.table);
    keys, ids, before := keys + ["timer"], ids + [typeId], c.table;
    var roleId := NextId(c, "timer");
    IdsOfSnoc(t0, keys, ids, before, "timer", roleId, c.table);
    keys, ids, before := keys + ["timer"], ids + [roleId], c.table;
    var ariaLiveId := NextId(c, "timer");
    IdsOfSnoc(t0, keys, ids, before, "timer", ariaLiveId, c.table);
    keys, ids, before := keys + ["timer"], ids + [ariaLiveId], c.table;
    var ariaAtomicId := NextId(c, "timer");
    IdsOfSnoc(t0, keys, ids, before, "timer", ariaAtomicId, c.table);
    keys, ids, before := keys + ["timer"], ids + [ariaAtomicId], c.table;
    var ariaRelevantId := NextId(c, "timer");
    IdsOfSnoc(t0, keys, ids, before, "timer", ariaRelevantId, c.table);
    keys, ids, before := keys + ["timer"], ids + [ariaRelevantId], c.table;
    var busyId := NextId(c, "busy");
    IdsOfSnoc(t0, keys, ids, before, "busy", busyId, c.table);
    keys, ids, before := keys + ["busy"], ids + [busyId], c.table;
    RegionIdKeysSplit();
  }

  class LiveRegion {
    var props: RegionProps
    var state: RegionState

    /** The constructor: state from the props and eight ids drawn from the
        shared counter; the five `i('timer')` ids are pairwise distinct. */
    constructor (c: Counter, p: RegionProps)
      modifies c
      ensures Valid(state)
      ensures props == p
      ensures (state.ids, c.table) == IdsOf(old(c.table), RegionIdKeys)
      ensures state == Initial(p, state.ids)
      ensures forall j, k :: 2 <= j < k < 7 ==> state.ids[j] != state.ids[k]
    {
      ghost var t0 := c.table;
      var ids := DrawRegionIds(c);
      RegionTimerIdsDistinct(t0);
      props := p;
      state := Initial(p, ids);
    }

    /** `componentWillReceiveProps(next)`: the state becomes
        `Receive(state, props, next)`, then the new props are in place. */
    method WillReceiveProps(next: RegionProps)
      requires Valid(state)
      modifies this
      ensures Valid(state)
      ensures props == next
      ensures state == Receive(old(state), old(props), next)
    {
      var s := state;
      if next.message != props.message || next.prefix != props.prefix {
        s := NewMessage(s, next.prefix + " " + next.message);
      }
      if next.renderType != props.renderType {
        s := s.(renderType := next.renderType, display := DisplayFor(next.renderType));
      }
      if next.disabled != props.disabled {
        s := s.(enabled := !next.disabled);
      }
      ReceiveKeepsValid(state, props, next);
      state := s;
      props := next;
    }

    /** `componentDidMount` and `componentDidUpdate`: with busy enabled,
        `ariaBusy` is reset to false; a hidden (`none`) region is shown again.
        Nothing else changes. */
    method Settle()
      requires Valid(state)
      modifies this`state
      ensures Valid(state)
      ensures state.ariaBusy == if state.ariaBusyEnabled then Some(false) else old(state.ariaBusy)
      ensures state.display == if old(state.display) == "none" then "block" else old(state.display)
      ensures state.message == old(state.message) && state.messageArray == old(state.messageArray)
      ensures state.message1 == old(state.message1) && state.message2 == old(state.message2)
      ensures state.messageArray2 == old(state.messageArray2) && state.renderType == old(state.renderType)
      ensures state.enabled == old(state.enabled) && state.aria == old(state.aria)
      ensures state.ariaBusyEnabled == old(state.ariaBusyEnabled) && state.ids == old(state.ids)
    {
      if state.ariaBusyEnabled {
        state := state.(ariaBusy := Some(false));
      }
      if state.display == "none" {
        state := state.(display := "block");
      }
    }

    /** `switchHandler`. */
    method SetEnabled(checked: bool)
      requires Valid(state)
      modifies this`state
      ensures Valid(state) && state == old(state).(enabled := checked)
    {
      state := state.(enabled := checked);
    }

    /** `typeHandler`. */
    method SetRenderType(value: string)
      requires Valid(state)
      modifies this`state
      ensures Valid(state) && state == old(state).(renderType := value)
    {
      state := state.(renderType := value);
    }

    /** `roleHandler`. */
    method SetRole(value: string)
      requires Valid(state)
      modifies this`state
      ensures Valid(state) && state == old(state).(aria := old(state).aria.(role := value))
    {
      state := state.(aria := state.aria.(role := value));
    }

    /** `ariaLiveHandler`. */
    method SetAriaLive(value: string)
      requires Valid(state)
      modifies this`state
      ensures Valid(state) && state == old(state).(aria := old(state).aria.(ariaLive := value))
    {
      state := state.(aria := state.aria.(ariaLive := value));
    }

    /** `ariaAtomicHandler`. */
    method SetAriaAtomic(value: string)
      requires Valid(state)
      modifies this`state
      ensures Valid(state) && state == old(state).(aria := old(state).aria.(ariaAtomic := value))
    {
      state := state.(aria := state.aria.(ariaAtomic := value));
    }

    /** `ariaRelevantHandler`. */
    method SetAriaRelevant(value: string)
      requires Valid(state)
      modifies this`state
      ensures Valid(state) && state == old(state).(aria := old(state).aria.(ariaRelevant := value))
    {
      state := state.(aria := state.aria.(ariaRelevant := value));
    }

    /** `ariaBusyHandler`. */
    method SetAriaBusyEnabled(checked: bool)
      requires Valid(state)
      modifies this`state
      ensures Valid(state) && state == old(state).(ariaBusyEnabled := checked)
    {
      state := state.(ariaBusyEnabled := checked);
    }
  }
}
