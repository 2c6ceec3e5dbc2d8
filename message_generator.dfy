/**
 * `MessageGenerator` (src/app.jsx): a component that owns a message string
 * regenerated through `m`, and, in log mode, a list of every regenerated
 * message, which "Clear log!" empties. Its `this.state` is the record
 * `GeneratorState`; the class `MessageGenerator` holds it and the props.
 */
module Generators {
  import opened Wrappers
  import opened Counters
  import opened Format

  /** The props it reads; `timer` is `None` for the default `false`. */
  datatype GeneratorProps = GeneratorProps(message: string, timer: Option<int>, isKeyed: bool, isLog: bool)

  /** The component's `this.state`; the four element ids (`formId`,
      `timerId`, `isKeyedId`, `isLogId`) are grouped in `ids`. */
  datatype GeneratorState = GeneratorState(
    message: string, messageArray: seq<string>, timer: Option<int>,
    isKeyed: bool, isLog: bool, ids: seq<string>)

  /** The keys the constructor draws ids for, in order. */
  const GeneratorIdKeys: seq<string> := ["form", "timer", "is-keyed", "is-log"]


  /** `alterMessage(msg)` on state `s` and counter table `t`: the message is
      always replaced by `m(msg)`, which draws from the shared table, and it
      is appended to `messageArray` only in log mode. */
  function Alter(s: GeneratorState, t: Table, msg: string): (r: (GeneratorState, Table))
    ensures (r.0.message, r.1) == Message(t, msg, false)
    ensures r.0.messageArray == if s.isLog then s.messageArray + [r.0.message] else s.messageArray
    ensures r.0.timer == s.timer && r.0.isKeyed == s.isKeyed && r.0.isLog == s.isLog && r.0.ids == s.ids
  {
    var (altered, t1) := Message(t, msg, false);
    var log := if s.isLog then s.messageArray + [altered] else s.messageArray;
    (s.(message := altered, messageArray := log), t1)
  }

  /** `n` regenerations for the same message (timer ticks or button presses). */
  function AlterTimes(s: GeneratorState, t: Table, msg: string, n: nat): (r: (GeneratorState, Table))
    ensures r.0.isLog == s.isLog && r.0.timer == s.timer && r.0.isKeyed == s.isKeyed && r.0.ids == s.ids
  {
    if n == 0 then (s, t)
    else
      var (s1, t1) := AlterTimes(s, t, msg, n - 1);
      Alter(s1, t1, msg)
  }

  /** `n` regenerations leave the shared table as `n` counter calls on the
      message do. */
  lemma {:induction false} AlterTimesRun(s: GeneratorState, t: Table, msg: string, n: nat)
    ensures AlterTimes(s, t, msg, n).1 == Run(t, Repeat(msg, n)).1
  {
    if n > 0 {
      AlterTimesRun(s, t, msg, n - 1);
      assert Repeat(msg, n)[..n - 1] == Repeat(msg, n - 1);
    }
  }

  /** The messages `m(msg)` yields for a non-empty `msg` whose count
      stands at `c`, over `n` further calls. */
  function Numbered(msg: string, c: nat, n: nat): (r: seq<string>)
    ensures |r| == n
    ensures forall j :: 0 <= j < n ==> r[j] == msg + " #" + Show(c + j + 1)
  {
    if n == 0 then [] else Numbered(msg, c, n - 1) + [msg + " #" + Show(c + n)]
  }

  /** In log mode, `n` regenerations of a non-empty message append exactly
      the `n` next numbered messages, in order, after the untouched earlier
      entries; the message shown is the last of them. */
  lemma {:induction false} LogRecordsEveryMessage(s: GeneratorState, t: Table, msg: string, n: nat)
    requires s.isLog && msg != ""
    ensures AlterTimes(s, t, msg, n).0.messageArray == s.messageArray + Numbered(msg, Count(t, msg), n)
    ensures Count(AlterTimes(s, t, msg, n).1, msg) == Count(t, msg) + n
    ensures n > 0 ==> AlterTimes(s, t, msg, n).0.message == msg + " #" + Show(Count(t, msg) + n)
  {
    if n > 0 {
      LogRecordsEveryMessage(s, t, msg, n - 1);
      var (r1, t1) := AlterTimes(s, t, msg, n - 1);
      var (r, t') := Alter(r1, t1, msg);
      assert r.message == msg + " #" + Show(Count(t, msg) + n);
      Associative(s.messageArray, Numbered(msg, Count(t, msg), n - 1), [r.message]);
    }
  }

  /** The entries a run of regenerations adds to the log are pairwise
      distinct, so their React keys are too. */
  lemma LogEntriesDistinct(msg: string, c: nat, n: nat, j: nat, k: nat)
    requires j < k < n
    ensures Numbered(msg, c, n)[j] != Numbered(msg, c, n)[k]
  {
    ShowDistinctAfter(msg + " #", c + j + 1, c + k + 1);
  }

  /** Outside log mode regenerations never touch `messageArray`. */
  lemma {:induction false} NoLogKeepsArray(s: GeneratorState, t: Table, msg: string, n: nat)
    requires !s.isLog
    ensures AlterTimes(s, t, msg, n).0.messageArray == s.messageArray
  {
    if n > 0 {
      NoLogKeepsArray(s, t, msg, n - 1);
    }
  }

  /** `componentWillReceiveProps` from props `was` to `next`: a changed
      message regenerates through `alterMessage`, which reads the log flag
      before this call's own `isLog` update; the timer and the two flags
      follow their props when those change. */
  function Receive(s: GeneratorState, t: Table, was: GeneratorProps, next: GeneratorProps): (r: (GeneratorState, Table))
    ensures next.message != was.message ==>
      && (r.0.message, r.1) == Message(t, next.message, false)
      && r.0.messageArray == if s.isLog then s.messageArray + [r.0.message] else s.messageArray
    ensures next.message == was.message ==>
      r.0.message == s.message && r.0.messageArray == s.messageArray && r.1 == t
    ensures r.0.timer == if next.timer != was.timer then next.timer else s.timer
    ensures r.0.isKeyed == if next.isKeyed != was.isKeyed then next.isKeyed else s.isKeyed
    ensures r.0.isLog == if next.isLog != was.isLog then next.isLog else s.isLog
    ensures r.0.ids == s.ids
  {
    var (s1, t1) := if next.message != was.message then Alter(s, t, next.message) else (s, t);
    var s2 := if next.timer != was.timer then s1.(timer := next.timer) else s1;
    var s3 := if next.isKeyed != was.isKeyed then s2.(isKeyed := next.isKeyed) else s2;
    (if next.isLog != was.isLog then s3.(isLog := next.isLog) else s3, t1)
  }

  /** The counter calls the constructor makes, in order: `m(props.message)`,
      then the four `i` calls of the state literal. */
  function ConstructorCalls(p: GeneratorProps): (cs: seq<Call>)
    ensures |cs| == 5 && cs[0] == MessageCall(p.message, false)
    ensures forall j :: 1 <= j < 5 ==> cs[j] == IdCall(GeneratorIdKeys[j - 1])
  {
    [MessageCall(p.message, false)] + IdCalls(GeneratorIdKeys)
  }

  /** Those calls, made in one go, give the message and ids the constructor
      stores and leave the table it leaves. */
  lemma ConstructorMakesCalls(t: Table, p: GeneratorProps)
    ensures Calls(t, ConstructorCalls(p)).0 ==
      [Message(t, p.message, false).0] + IdsOf(Message(t, p.message, false).1, GeneratorIdKeys).0
    ensures Calls(t, ConstructorCalls(p)).1 == IdsOf(Message(t, p.message, false).1, GeneratorIdKeys).1
  {
    var call := MessageCall(p.message, false);
    var rest := IdCalls(GeneratorIdKeys);
    var (msg, t1) := Message(t, p.message, false);
    assert Calls(t, []) == ([], t);
    assert Perform(t, call) == (msg, t1);
    CallsSnoc(t, [], call);
    assert [] + [call] == [call];
    var head := Calls(t, [call]);
    assert head.0 == [msg] && head.1 == t1;
    CallsAppend(t, [call], rest);
    IdsOfAreCalls(t1, GeneratorIdKeys);
    var whole := Calls(t, [call] + rest);
    assert whole.0 == [msg] + IdsOf(t1, GeneratorIdKeys).0;
    assert whole.1 == IdsOf(t1, GeneratorIdKeys).1;
    assert ConstructorCalls(p) == [call] + rest;
  }

  /** The key list as the one-call-at-a-time concatenation
      `DrawGeneratorIds` builds. */
  lemma GeneratorIdKeysSplit()
    ensures GeneratorIdKeys == [] + ["form"] + ["timer"] + ["is-keyed"] + ["is-log"]
  {
  }

  /** The four `i(...)` calls of the constructor's state literal, in order. */
  method DrawGeneratorIds(c: Counter) returns (ids: seq<string>)
    modifies c
    ensures (ids, c.table) == IdsOf(old(c.table), GeneratorIdKeys)
  {
    ghost var t0 := c.table;
    ghost var keys: seq<string> := [];
    ghost var before := c.table;
    ids := [];
    var formId := NextId(c, "form");
    IdsOfSnoc(t0, keys, ids, before, "form", formId, c.table);
    keys, ids, before := keys + ["form"], ids + [formId], c.table;
    var timerId := NextId(c, "timer");
    IdsOfSnoc(t0, keys, ids, before, "timer", timerId, c.table);
    keys, ids, before := keys + ["timer"], ids + [timerId], c.table;
    var isKeyedId := NextId(c, "is-keyed");
    IdsOfSnoc(t0, keys, ids, before, "is-keyed", isKeyedId, c.table);
    keys, ids, before := keys + ["is-keyed"], ids + [isKeyedId], c.table;
    var isLogId := NextId(c, "is-log");
    IdsOfSnoc(t0, keys, ids, before, "is-log", isLogId, c.table);
    keys, ids, before := keys + ["is-log"], ids + [isLogId], c.table;
    GeneratorIdKeysSplit();
  }

  class MessageGenerator {
    var props: GeneratorProps
    var state: GeneratorState

    /** The constructor: the first message is `m(props.message)`, the log
        starts with it, the settings come from the props, and four ids are
        drawn from the shared counter after it. */
    constructor (c: Counter, p: GeneratorProps)
      modifies c
      ensures props == p
      ensures state.message == Message(old(c.table), p.message, false).0
      ensures state.messageArray == [state.message]
      ensures state.timer == p.timer && state.isKeyed == p.isKeyed && state.isLog == p.isLog
      ensures (state.ids, c.table) == IdsOf(Message(old(c.table), p.message, false).1, GeneratorIdKeys)
    {
      var message := NextMessage(c, p.message, false);
      var ids := DrawGeneratorIds(c);
      props := p;
      state := GeneratorState(message, [message], p.timer, p.isKeyed, p.isLog, ids);
    }

    /** `alterMessage(msg)`: `setState` of the new message, then the in-place
        push onto `messageArray` when the log flag is set. */
    method AlterMessage(c: Counter, msg: string)
      modifies this`state, c
      ensures (state, c.table) == Alter(old(state), old(c.table), msg)
    {
      var altered := NextMessage(c, msg, false);
      state := state.(message := altered);
      if state.isLog {
        state := state.(messageArray := state.messageArray + [altered]);
      }
    }

    /** `messageButtonHandler`: regenerate from the current `message` prop. */
    method MessageButton(c: Counter)
      modifies this`state, c
      ensures (state, c.table) == Alter(old(state), old(c.table), props.message)
    {
      AlterMessage(c, props.message);
    }

    /** `logButtonHandler`: "Clear log!" empties `messageArray` and changes
        nothing else. */
    method ClearLog()
      modifies this`state
      ensures state == old(state).(messageArray := [])
    {
      state := state.(messageArray := []);
    }

    /** `isKeyedHandler`. */
    method SetKeyed(checked: bool)
      modifies this`state
      ensures state == old(state).(isKeyed := checked)
    {
      state := state.(isKeyed := checked);
    }

    /** `isLogHandler`. */
    method SetLog(checked: bool)
      modifies this`state
      ensures state == old(state).(isLog := checked)
    {
      state := state.(isLog := checked);
    }

    /** `componentWillReceiveProps(next)`, then the new props are in place. */
    method WillReceiveProps(c: Counter, next: GeneratorProps)
      modifies this, c
      ensures props == next
      ensures (state, c.table) == Receive(old(state), old(c.table), old(props), next)
    {
      if next.message != props.message {
        AlterMessage(c, next.message);
      }
      if next.timer != props.timer {
        state := state.(timer := next.timer);
      }
      if next.isKeyed != props.isKeyed {
        state := state.(isKeyed := next.isKeyed);
      }
      if next.isLog != props.isLog {
        state := state.(isLog := next.isLog);
      }
      props := next;
    }
  }
}
