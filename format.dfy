/**
 * The message and id formatters `m` and `i` of src/app.jsx. Both interpolate
 * a value drawn from the one shared counter into a template string; the
 * functions here give the text and the table afterwards, and the methods
 * `NextMessage` and `NextId` are the two arrow functions over a `Counter`.
 */
module Format {
  import opened Wrappers
  import opened Counters

  predicate IsDigit(c: char) {
    '0' <= c <= '9'
  }

  function DigitChar(d: nat): (c: char)
    requires d < 10
    ensures IsDigit(c) && c as int - '0' as int == d
  {
    ('0' as int + d) as char
  }

  /** The decimal text of a natural number, as template interpolation writes it. */
  function Show(n: nat): (s: string)
    ensures |s| >= 1
    ensures forall k :: 0 <= k < |s| ==> IsDigit(s[k])
  {
    if n < 10 then [DigitChar(n)] else Show(n / 10) + [DigitChar(n % 10)]
  }

  /** Distinct numbers have distinct decimal texts. */
  lemma {:induction false} ShowInjective(a: nat, b: nat)
    requires Show(a) == Show(b)
    ensures a == b
  {
    if a < 10 && b < 10 {
      assert Show(a)[0] == Show(b)[0];
    } else if a >= 10 && b >= 10 {
      var sa, sb := Show(a), Show(b);
      assert sa[..|sa| - 1] == Show(a / 10);
      assert sb[..|sb| - 1] == Show(b / 10);
      assert DigitChar(a % 10) == sa[|sa| - 1] == sb[|sb| - 1] == DigitChar(b % 10);
      ShowInjective(a / 10, b / 10);
    }
    // One below ten and one not: the texts differ in length.
  }

  /** Interpolating the counter's result: its digits, or `null`. */
  function Interpolate(v: Option<nat>): string {
    match v
    case None => "null"
    case Some(n) => Show(n)
  }

  /** Interpolation writes `null` exactly for the counter's `null`: no
      number prints as `null`. */
  lemma InterpolateNull(v: Option<nat>)
    ensures Interpolate(v) == "null" <==> v.None?
  {
    if v.Some? {
      assert IsDigit(Show(v.value)[0]);
    }
  }

  /** `m(message, disable)`: the message unchanged when `disable` is truthy,
      without drawing a number; otherwise the message followed by ` #` and
      the counter's next value for that message. */
  function Message(t: Table, msg: string, disable: bool): (r: (string, Table))
    ensures disable ==> r == (msg, t)
    ensures !disable ==> r.1 == Step(t, msg).1
    ensures !disable && msg != "" ==> r.0 == msg + " #" + Show(Count(t, msg) + 1)
    ensures !disable && msg == "" ==> r.0 == " #null"
  {
    if disable then (msg, t)
    else
      var (n, t1) := Step(t, msg);
      (msg + " #" + Interpolate(n), t1)
  }

  /** `i(type)`: the type followed by `-` and the counter's next value for it. */
  function Id(t: Table, ty: string): (r: (string, Table))
    ensures r.1 == Step(t, ty).1
    ensures ty != "" ==> r.0 == ty + "-" + Show(Count(t, ty) + 1)
    ensures ty == "" ==> r.0 == "-null"
  {
    var (n, t1) := Step(t, ty);
    (ty + "-" + Interpolate(n), t1)
  }

  /** The ids produced by calling `i` on each of `keys` in turn, and the table
      afterwards: the same table a run of the counter on `keys` leaves. */
  function IdsOf(t: Table, keys: seq<string>): (r: (seq<string>, Table))
    ensures |r.0| == |keys|
    ensures r.1 == Run(t, keys).1
  {
    if keys == [] then ([], t)
    else
      var (xs, t1) := IdsOf(t, keys[..|keys| - 1]);
      var (x, t2) := Id(t1, keys[|keys| - 1]);
      (xs + [x], t2)
  }

  /** Extending a sequence of `i` calls by one more call. */
  lemma IdsOfSnoc(t: Table, keys: seq<string>, ids: seq<string>, before: Table, k: string, id: string, after: Table)
    requires IdsOf(t, keys) == (ids, before)
    requires (id, after) == Id(before, k)
    ensures IdsOf(t, keys + [k]) == (ids + [id], after)
  {
    assert (keys + [k])[..|keys|] == keys;
  }

  /** Call number `j` of a sequence of `i` calls interpolates exactly the
      value the counter returned for it. */
  lemma {:induction false} IdsOfAt(t: Table, keys: seq<string>, j: nat)
    requires j < |keys|
    ensures IdsOf(t, keys).0[j] == keys[j] + "-" + Interpolate(Run(t, keys).0[j])
  {
    var init := keys[..|keys| - 1];
    if j < |keys| - 1 {
      IdsOfAt(t, init, j);
    }
  }

  lemma {:induction false} OccurrencesGrow(ids: seq<string>, j: nat, k: nat)
    requires j < k <= |ids|
    ensures Occurrences(ids[..k], ids[j]) >= Occurrences(ids[..j], ids[j]) + 1
  {
    var pre := ids[..k];
    assert pre[..|pre| - 1] == ids[..k - 1];
    if k > j + 1 {
      OccurrencesGrow(ids, j, k - 1);
    }
  }

  lemma ShowDistinctAfter(p: string, a: nat, b: nat)
    requires a != b
    ensures p + Show(a) != p + Show(b)
  {
    if p + Show(a) == p + Show(b) {
      assert (p + Show(a))[|p|..] == Show(a);
      assert (p + Show(b))[|p|..] == Show(b);
      ShowInjective(a, b);
    }
  }

  /** Any two `i` calls on the same non-empty key within one sequence of calls
      give different ids, whatever other keys are drawn in between (the five
      `i('timer')` calls of one LiveRegion, say). */
  lemma IdsDistinct(t: Table, keys: seq<string>, j: nat, k: nat)
    requires j < k < |keys| && keys[j] == keys[k] != ""
    ensures IdsOf(t, keys).0[j] != IdsOf(t, keys).0[k]
  {
    IdsOfAt(t, keys, j);
    IdsOfAt(t, keys, k);
    RunAt(t, keys, j);
    RunAt(t, keys, k);
    OccurrencesGrow(keys, j, k);
    var c := Count(t, keys[j]);
    ShowDistinctAfter(keys[j] + "-",
      c + Occurrences(keys[..j], keys[j]) + 1, c + Occurrences(keys[..k], keys[j]) + 1);
  }

  /** One call a component makes on the shared counter: `m(msg, disable)`
      or `i(ty)`. The page's constructors and handlers make such calls one
      after another on the one table. */
  datatype Call = MessageCall(msg: string, disable: bool) | IdCall(ty: string)

  /** The key a call hands to the counter. A disabled `m` does not call the
      counter, which has the same effect as the empty key: no number and no
      change to the table. */
  function KeyOf(c: Call): (k: string)
    ensures c.IdCall? ==> k == c.ty
  {
    match c
    case MessageCall(msg, disable) => if disable then "" else msg
    case IdCall(ty) => ty
  }

  function KeysOf(cs: seq<Call>): (ks: seq<string>)
    ensures |ks| == |cs| && forall j :: 0 <= j < |cs| ==> ks[j] == KeyOf(cs[j])
  {
    seq(|cs|, j requires 0 <= j < |cs| => KeyOf(cs[j]))
  }

  /** Making one call: its text and the table afterwards. */
  function Perform(t: Table, c: Call): (r: (string, Table))
    ensures r.1 == Step(t, KeyOf(c)).1
  {
    match c
    case MessageCall(msg, disable) => Message(t, msg, disable)
    case IdCall(ty) => Id(t, ty)
  }

  /** A sequence of `m` and `i` calls made one after the other, starting on
      table `t`: their texts, in order, and the final table. */
  function Calls(t: Table, cs: seq<Call>): (r: (seq<string>, Table))
    ensures |r.0| == |cs|
  {
    if cs == [] then ([], t)
    else
      var (xs, t1) := Calls(t, cs[..|cs| - 1]);
      var (x, t2) := Perform(t1, cs[|cs| - 1]);
      (xs + [x], t2)
  }

  /** The table a call sequence leaves is the one a run of the counter on
      the calls' keys leaves. */
  lemma {:induction false} CallsFollowRun(t: Table, cs: seq<Call>)
    ensures Calls(t, cs).1 == Run(t, KeysOf(cs)).1
  {
    if cs != [] {
      var init := cs[..|cs| - 1];
      CallsFollowRun(t, init);
      assert KeysOf(cs)[..|cs| - 1] == KeysOf(init);
    }
  }

  /** Extending a call sequence by one more call. */
  lemma CallsSnoc(t: Table, cs: seq<Call>, d: Call)
    ensures Calls(t, cs + [d]).0 == Calls(t, cs).0 + [Perform(Calls(t, cs).1, d).0]
    ensures Calls(t, cs + [d]).1 == Perform(Calls(t, cs).1, d).1
  {
    assert (cs + [d])[..|cs|] == cs;
  }

  lemma Associative(a: seq<string>, b: seq<string>, c: seq<string>)
    ensures (a + b) + c == a + (b + c)
  {
  }

  /** Two call sequences made one after the other are one call sequence: the
      texts concatenate and the second starts on the table the first left. */
  lemma {:induction false} CallsAppend(t: Table, cs: seq<Call>, ds: seq<Call>)
    ensures Calls(t, cs + ds).0 == Calls(t, cs).0 + Calls(Calls(t, cs).1, ds).0
    ensures Calls(t, cs + ds).1 == Calls(Calls(t, cs).1, ds).1
  {
    if ds != [] {
      var init, d := ds[..|ds| - 1], ds[|ds| - 1];
      assert ds == init + [d];
      assert cs + ds == (cs + init) + [d];
      CallsAppend(t, cs, init);
      var x := Calls(t, cs);
      CallsSnoc(t, cs + init, d);
      CallsSnoc(x.1, init, d);
      var y := Calls(x.1, init);
      var last := Perform(y.1, d).0;
      Associative(x.0, y.0, [last]);
    } else {
      assert cs + ds == cs;
    }
  }

  /** An `i` call anywhere in a call sequence interpolates the value the
      counter returned for it, in the run of the counter on all the calls'
      keys. */
  lemma {:induction false} CallsIdAt(t: Table, cs: seq<Call>, j: nat)
    requires j < |cs| && cs[j].IdCall?
    ensures Calls(t, cs).0[j] == cs[j].ty + "-" + Interpolate(Run(t, KeysOf(cs)).0[j])
  {
    var init := cs[..|cs| - 1];
    assert KeysOf(cs)[..|cs| - 1] == KeysOf(init);
    if j < |cs| - 1 {
      CallsIdAt(t, init, j);
    } else {
      CallsFollowRun(t, init);
    }
  }

  /** Two `i(ty)` calls with the same non-empty type give different ids
      wherever they fall in the page's sequence of calls, whatever `m` and
      `i` calls of other components come in between. */
  lemma CallIdsDistinct(t: Table, cs: seq<Call>, j: nat, k: nat)
    requires j < k < |cs| && cs[j].IdCall? && cs[j] == cs[k] && cs[j].ty != ""
    ensures Calls(t, cs).0[j] != Calls(t, cs).0[k]
  {
    var keys := KeysOf(cs);
    CallsIdAt(t, cs, j);
    CallsIdAt(t, cs, k);
    RunAt(t, keys, j);
    RunAt(t, keys, k);
    OccurrencesGrow(keys, j, k);
    var c := Count(t, keys[j]);
    ShowDistinctAfter(keys[j] + "-",
      c + Occurrences(keys[..j], keys[j]) + 1, c + Occurrences(keys[..k], keys[j]) + 1);
  }

  /** The `i` calls on `keys`, in order. */
  function IdCalls(keys: seq<string>): (cs: seq<Call>)
    ensures |cs| == |keys| && forall j :: 0 <= j < |keys| ==> cs[j] == IdCall(keys[j])
  {
    seq(|keys|, j requires 0 <= j < |keys| => IdCall(keys[j]))
  }

  /** A sequence of `i` calls is the call sequence of those `IdCall`s. */
  lemma {:induction false} IdsOfAreCalls(t: Table, keys: seq<string>)
    ensures IdsOf(t, keys) == Calls(t, IdCalls(keys))
  {
    if keys != [] {
      var init := keys[..|keys| - 1];
      IdsOfAreCalls(t, init);
      assert IdCalls(keys)[..|keys| - 1] == IdCalls(init);
    }
  }

  /** Two successive `m(msg)` calls give different texts exactly when `msg`
      is non-empty; for the empty message both are ` #null`. */
  lemma MessagesAdvance(t: Table, msg: string)
    ensures Message(Message(t, msg, false).1, msg, false).0 != Message(t, msg, false).0
        <==> msg != ""
  {
    if msg != "" {
      var t1 := Message(t, msg, false).1;
      assert Count(t1, msg) == Count(t, msg) + 1;
      ShowDistinctAfter(msg + " #", Count(t, msg) + 2, Count(t, msg) + 1);
    }
  }

  /** `m` and `i` draw from one table: an id for a key just used as a message
      gets the next number after the message's. */
  lemma SharedTable(t: Table, key: string)
    requires key != ""
    ensures Id(Message(t, key, false).1, key).0 == key + "-" + Show(Count(t, key) + 2)
  {
  }

  /** On a table that has not seen `x`, `m(x)` twice gives `x #1`, then `x #2`. */
  lemma FirstTwoMessages(t: Table, x: string)
    requires x != "" && Count(t, x) == 0
    ensures Message(t, x, false).0 == x + " #1"
    ensures Message(Message(t, x, false).1, x, false).0 == x + " #2"
  {
    assert Show(1) == "1" && Show(2) == "2";
  }

  /** The arrow function `m` over the shared counter. */
  method NextMessage(c: Counter, msg: string, disable: bool) returns (s: string)
    modifies c
    ensures (s, c.table) == Message(old(c.table), msg, disable)
  {
    if disable {
      return msg;
    }
    var n := c.Next(msg);
    s := msg + " #" + Interpolate(n);
  }

  /** The arrow function `i` over the shared counter. */
  method NextId(c: Counter, ty: string) returns (s: string)
    modifies c
    ensures (s, c.table) == Id(old(c.table), ty)
  {
    var n := c.Next(ty);
    s := ty + "-" + Interpolate(n);
  }
}
