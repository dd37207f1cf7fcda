/** Shared vocabulary of the drivers: failure values, bytes, Go's string
    functions as the drivers use them, decimal rendering, 64-bit wrap-around
    and the clock arithmetic of the in-memory stores. */
module Common {

  datatype Option<+T> = None | Some(value: T)

  /** The errors the drivers return. `Failed` is the framework's generic
      failure value; `Transport` and `Database` carry an error produced by a
      collaborator that is not modelled (the network, the SQL driver). */
  datatype Error =
    | Failed
    | CacheReadFailed
    | SessionReadFailed
    | LockExists
    | InvalidTransaction
    | TableNotFound
    | Transport(code: nat)
    | Database(code: nat)

  /** A Go `error` result: `Pass` is nil. */
  datatype Outcome = Pass | Fail(error: Error)

  /** A Go `(value, error)` result pair. */
  datatype Result<+T> = Ok(value: T) | Err(error: Error)

  /** The identity of a Go handler function registered with a bus;
      `NilHandler` is the nil function a connection holds before `Accept`. */
  datatype Handler = NilHandler | Func(id: nat)

  /** One handler invocation `handler(channel, data)`. */
  datatype Invocation = Invocation(handler: Handler, channel: string, data: Bytes)

  newtype byte = x: int | 0 <= x < 256

  type Bytes = seq<byte>

  /** A dynamically typed Go value (`Any`) restricted to the kinds the drivers
      inspect. `Int` is Go's `int`, `Int64` is `int64`; `IntList` stands for
      every integer slice kind, which all render in decimal. */
  datatype Value =
    | Nil
    | Str(s: string)
    | Int(i: int)
    | Int64(n: int)
    | Bool(b: bool)
    | Blob(bytes: Bytes)
    | StrList(strs: seq<string>)
    | BoolList(bools: seq<bool>)
    | IntList(ints: seq<int>)
    | MapVal(m: map<string, Value>)
    | MapList(maps: seq<map<string, Value>>)

  // ---------------------------------------------------------------- sequences

  predicate Distinct<T(==)>(xs: seq<T>) {
    forall i, j :: 0 <= i < j < |xs| ==> xs[i] != xs[j]
  }

  /** `order` lists every element of `s` exactly once: one possible order
      of Go's iteration over a map with key set `s`. */
  ghost predicate Enumerates<T>(order: seq<T>, s: set<T>) {
    && (forall k :: 0 <= k < |order| ==> order[k] in s)
    && (forall x :: x in s ==> x in order)
    && Distinct(order)
  }

  lemma {:induction false} EnumerationSize<T>(order: seq<T>, s: set<T>)
    requires Enumerates(order, s)
    ensures |order| == |s|
    decreases |order|
  {
    if order != [] {
      var last := order[|order| - 1];
      var front := order[..|order| - 1];
      forall x | x in s - {last} ensures x in front {
        var k :| 0 <= k < |order| && order[k] == x;
        assert k != |order| - 1;
      }
      EnumerationSize(front, s - {last});
    } else {
      assert forall x :: x !in order;
    }
  }

  /** `n` copies of `x`. */
  function Repeat<T>(x: T, n: int): (r: seq<T>)
    ensures |r| == if n > 0 then n else 0
    ensures forall k :: 0 <= k < |r| ==> r[k] == x
    decreases n
  {
    if n <= 0 then [] else Repeat(x, n - 1) + [x]
  }

  // ---------------------------------------------------------------- strings

  predicate HasPrefix(s: string, p: string) {
    |p| <= |s| && s[..|p|] == p
  }

  predicate OccursAt(s: string, sub: string, j: int) {
    0 <= j && j + |sub| <= |s| && s[j..j + |sub|] == sub
  }

  /** Go's strings.Index started at position `from`: the first position
      at or after `from` where `sub` occurs, or -1. */
  function IndexFrom(s: string, sub: string, from: nat): (r: int)
    requires from <= |s| + 1
    ensures r == -1 || (from <= r && OccursAt(s, sub, r))
    ensures r == -1 ==> forall j :: from <= j ==> !OccursAt(s, sub, j)
    ensures r != -1 ==> forall j :: from <= j < r ==> !OccursAt(s, sub, j)
    decreases |s| + 1 - from
  {
    if from + |sub| > |s| then -1
    else if s[from..from + |sub|] == sub then from
    else IndexFrom(s, sub, from + 1)
  }

  function Index(s: string, sub: string): int {
    IndexFrom(s, sub, 0)
  }

  /** Go's strings.Replace(s, old, new, 1). With an empty `old` Go matches
      at the beginning of the string, which this definition also does. */
  function ReplaceFirst(s: string, pat: string, rep: string): (r: string) {
    var i := Index(s, pat);
    if i < 0 then s else s[..i] + rep + s[i + |pat|..]
  }

  /** Go's strings.Replace(s, old, new, -1): every non-overlapping occurrence,
      left to right; an empty `old` matches before every character and at the end. */
  function ReplaceAll(s: string, pat: string, rep: string): (r: string)
    decreases |s|
  {
    if pat == [] then
      (if s == [] then rep else rep + [s[0]] + ReplaceAll(s[1..], pat, rep))
    else
      var i := Index(s, pat);
      if i < 0 then s else s[..i] + rep + ReplaceAll(s[i + |pat|..], pat, rep)
  }

  /** Replacing the empty string by the empty string changes nothing. */
  lemma ReplaceEmptyByEmpty(s: string)
    ensures ReplaceFirst(s, "", "") == s
  {
    assert OccursAt(s, "", 0);
    assert s[..0] + "" + s[0..] == s;
  }

  /** Go's strings.Join. */
  function Join(items: seq<string>, sep: string): string {
    if items == [] then ""
    else if |items| == 1 then items[0]
    else items[0] + sep + Join(items[1..], sep)
  }

  /** Splitting at every occurrence of one character (Go's strings.Split
      with a one-character separator): the inverse of Join. */
  function Split(s: string, c: char): (r: seq<string>)
    ensures |r| > 0
  {
    if s == [] then [""]
    else
      var rest := Split(s[1..], c);
      if s[0] == c then [""] + rest else [[s[0]] + rest[0]] + rest[1..]
  }

  /** Stripping the connection prefix from a received channel name is
      Go's strings.Replace(name, prefix, "", 1): a name built as
      prefix + channel gives back exactly the channel. */
  lemma StripPrefixRoundTrip(prefix: string, name: string)
    ensures ReplaceFirst(prefix + name, prefix, "") == name
  {
    var s := prefix + name;
    assert s[0..|prefix|] == prefix;
    assert Index(s, prefix) == 0;
    assert s[|prefix|..] == name;
  }

  lemma {:induction false} IndexOfAbsentChar(s: string, c: char, from: nat)
    requires from <= |s| + 1
    requires forall j :: from <= j < |s| ==> s[j] != c
    ensures IndexFrom(s, [c], from) == -1
    decreases |s| + 1 - from
  {
    if from + 1 <= |s| {
      assert s[from..from + 1] == [s[from]];
      IndexOfAbsentChar(s, c, from + 1);
    }
  }

  lemma {:induction false} ReplaceAllRemovesChar(s: string, c: char, rep: string)
    requires c !in rep
    ensures c !in ReplaceAll(s, [c], rep)
    decreases |s|
  {
    var i := Index(s, [c]);
    if i >= 0 {
      assert s[i..i + 1] == [c];
      forall j | 0 <= j < i ensures s[j] != c {
        assert !OccursAt(s, [c], j);
        assert s[j..j + 1] == [s[j]];
      }
      ReplaceAllRemovesChar(s[i + 1..], c, rep);
    } else {
      forall j | 0 <= j < |s| ensures s[j] != c {
        assert !OccursAt(s, [c], j);
        assert s[j..j + 1] == [s[j]];
      }
    }
  }

  lemma {:induction false} SplitWithout(a: string, c: char)
    requires c !in a
    ensures Split(a, c) == [a]
  {
    if a != [] {
      SplitWithout(a[1..], c);
      assert [a[0]] + a[1..] == a;
    }
  }

  lemma {:induction false} SplitAfter(a: string, c: char, t: string)
    requires c !in a
    ensures Split(a + [c] + t, c) == [a] + Split(t, c)
  {
    if a == [] {
      assert a + [c] + t == [c] + t;
      assert ([c] + t)[1..] == t;
    } else {
      var s := a + [c] + t;
      assert s[0] == a[0];
      assert s[1..] == a[1..] + [c] + t;
      SplitAfter(a[1..], c, t);
      assert [a[0]] + a[1..] == a;
    }
  }

  /** Join and Split are inverse for separator-free items. The only list
      that does not come back is [""], which joins to the empty string. */
  lemma {:induction false} SplitJoin(items: seq<string>, c: char)
    requires items != [""]
    requires forall k :: 0 <= k < |items| ==> c !in items[k]
    ensures items != [] ==> Split(Join(items, [c]), c) == items
    ensures items == [] ==> Join(items, [c]) == ""
  {
    if |items| == 1 {
      SplitWithout(items[0], c);
    } else if |items| > 1 {
      var rest := items[1..];
      if rest == [""] {
        assert Join(rest, [c]) == "";
        assert Split("", c) == [""];
      } else {
        SplitJoin(rest, c);
      }
      SplitAfter(items[0], c, Join(rest, [c]));
      assert [items[0]] + rest == items;
    }
  }

  /** Joining the pieces of a split with the separator gives the string back. */
  lemma {:induction false} JoinSplit(s: string, c: char)
    ensures Join(Split(s, c), [c]) == s
    decreases |s|
  {
    if s != [] {
      var rest := Split(s[1..], c);
      JoinSplit(s[1..], c);
      if s[0] == c {
        assert Join([""] + rest, [c]) == "" + [c] + Join(rest, [c]) by {
          assert ([""] + rest)[1..] == rest;
        }
        assert [c] + s[1..] == s;
      } else {
        var r := [[s[0]] + rest[0]] + rest[1..];
        if |rest| == 1 {
          assert Join(r, [c]) == [s[0]] + rest[0];
        } else {
          assert r[1..] == rest[1..];
          assert Join(rest, [c]) == rest[0] + [c] + Join(rest[1..], [c]);
        }
        assert [s[0]] + s[1..] == s;
      }
    }
  }

  /** No piece of a split contains the separator. */
  lemma {:induction false} SplitPiecesClean(s: string, c: char)
    ensures forall k :: 0 <= k < |Split(s, c)| ==> c !in Split(s, c)[k]
    decreases |s|
  {
    if s != [] {
      SplitPiecesClean(s[1..], c);
    }
  }

  /** Replacing the first `c` of a + [c] + t, when `a` has none. */
  lemma ReplaceAfterClean(a: string, c: char, t: string, rep: string)
    requires c !in a
    ensures ReplaceFirst(a + [c] + t, [c], rep) == a + rep + t
  {
    var s := a + [c] + t;
    IndexAfterClean(a, c, t);
    assert s[..|a|] == a;
    assert s[|a| + 1..] == t;
  }

  /** The first occurrence of `c` in a + [c] + t, when `a` has none, is at |a|. */
  lemma IndexAfterClean(a: string, c: char, t: string)
    requires c !in a
    ensures Index(a + [c] + t, [c]) == |a|
  {
    var s := a + [c] + t;
    forall j | 0 <= j < |a| ensures !OccursAt(s, [c], j) {
      assert s[j..j + 1] == [a[j]];
    }
    assert s[|a|..|a| + 1] == [c];
    IndexFromSkips(s, [c], 0, |a|);
  }

  /** IndexFrom passes over positions without a match. */
  lemma {:induction false} IndexFromSkips(s: string, sub: string, from: nat, at: nat)
    requires from <= at && at + |sub| <= |s|
    requires forall j :: from <= j < at ==> !OccursAt(s, sub, j)
    requires OccursAt(s, sub, at)
    ensures IndexFrom(s, sub, from) == at
    decreases at - from
  {
    if from < at {
      assert !OccursAt(s, sub, from);
      IndexFromSkips(s, sub, from + 1, at);
    }
  }

  // ---------------------------------------------------------------- decimal

  function DigitChar(d: nat): char
    requires d < 10
  {
    "0123456789"[d]
  }

  function DigitValue(ch: char): nat {
    if '0' <= ch <= '9' then (ch as int - '0' as int) as nat else 0
  }

  predicate IsDigit(ch: char) {
    '0' <= ch <= '9'
  }

  /** Decimal rendering of a natural number, most significant digit first. */
  function NatToString(n: nat): (r: string)
    ensures |r| > 0 && forall k :: 0 <= k < |r| ==> IsDigit(r[k])
    decreases n
  {
    if n < 10 then [DigitChar(n)] else NatToString(n / 10) + [DigitChar(n % 10)]
  }

  /** Go's strconv.Itoa (and fmt's %d / %v on an integer). */
  function IntToString(x: int): (r: string) {
    if x < 0 then "-" + NatToString(-x) else NatToString(x)
  }

  function ParseNat(s: string): nat
    decreases |s|
  {
    if s == [] then 0 else ParseNat(s[..|s| - 1]) * 10 + DigitValue(s[|s| - 1])
  }

  function ParseInt(s: string): int {
    if |s| > 0 && s[0] == '-' then -(ParseNat(s[1..]) as int) else ParseNat(s)
  }

  lemma {:induction false} ParseNatToString(n: nat)
    ensures ParseNat(NatToString(n)) == n
    decreases n
  {
    if n >= 10 {
      ParseNatToString(n / 10);
      var s := NatToString(n);
      assert s[..|s| - 1] == NatToString(n / 10);
    }
  }

  /** Decimal rendering round-trips and never contains a separator. */
  lemma IntToStringRoundTrip(x: int)
    ensures ParseInt(IntToString(x)) == x
    ensures |IntToString(x)| > 0 && ',' !in IntToString(x) && '?' !in IntToString(x)
  {
    ParseNatToString(if x < 0 then -x else x);
    if x < 0 {
      assert ("-" + NatToString(-x))[1..] == NatToString(-x);
    }
  }

  // ---------------------------------------------------------------- numbers

  const TwoTo63: int := 0x8000_0000_0000_0000
  const TwoTo64: int := 0x1_0000_0000_0000_0000

  predicate InInt64(x: int) {
    -TwoTo63 <= x < TwoTo63
  }

  /** Two's-complement wrap-around of Go's int64 arithmetic. */
  function WrapInt64(x: int): (r: int)
    ensures InInt64(r)
    ensures InInt64(x) ==> r == x
    ensures (r - x) % TwoTo64 == 0
  {
    (x + TwoTo63) % TwoTo64 - TwoTo63
  }

  // ---------------------------------------------------------------- clock

  /** One second as a Go time.Duration (nanoseconds). */
  const Second: int := 1_000_000_000

  /** `now.Add(d).Unix()` for a clock reading `now` taken at a whole second. */
  function ExpiryAt(now: int, d: int): (r: int)
    ensures d >= Second ==> r > now
    ensures 0 <= d < Second ==> r == now
    ensures d < 0 ==> r < now
  {
    now + d / Second
  }

  /** Go's util.ParseDuration result: the value it returns and whether it
      returned an error. The parser itself is not modelled. */
  datatype Parsed = Parsed(duration: int, failed: bool)

  /** The common rule for a configured duration: a non-empty setting that
      parses replaces the driver's default; anything else keeps it. */
  function ConfiguredDuration(configured: string, parsed: Parsed, fallback: int): (d: int)
    ensures configured != "" && !parsed.failed ==> d == parsed.duration
    ensures configured == "" || parsed.failed ==> d == fallback
  {
    if configured != "" && !parsed.failed then parsed.duration else fallback
  }

  /** A stored value and the Unix second at which it expires. */
  datatype Entry<T> = Entry(value: T, expiry: int)

  /** `key` holds an entry that has not expired at Unix second `now`
      (expiry strictly later than now). */
  predicate Live<T>(store: map<string, Entry<T>>, key: string, now: int) {
    key in store && store[key].expiry > now
  }

  /** An entry written at `now` for duration `d` is live in that same
      second exactly when `d` is at least one second. */
  lemma FreshEntryLive<T>(store: map<string, Entry<T>>, key: string, v: T, now: int, d: int)
    ensures Live(store[key := Entry(v, ExpiryAt(now, d))], key, now) <==> d >= Second
  {
    if d < Second {
      assert ExpiryAt(now, d) <= now;
    }
  }

  /** Writing one key leaves the liveness of every other key as it was. */
  lemma WriteKeepsOthers<T>(store: map<string, Entry<T>>, key: string, e: Entry<T>, other: string, now: int)
    requires other != key
    ensures Live(store[key := e], other, now) == Live(store, other, now)
    ensures other in store[key := e] <==> other in store
  {
  }
}
