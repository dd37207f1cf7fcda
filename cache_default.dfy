/** The in-memory cache (cache/default/cache.go): a map from the prefixed
    key to a value and its expiry second. The clock is a parameter `now`
    in Unix seconds; the `sync.Map` is a field of type `map`. */
module MemoryCache {
  import opened Common

  /** One minute, as a Go time.Duration. */
  const DefaultExpiry: int := 60 * Second

  /** The cache's lifetime: the configured expiry when it parses, otherwise one minute. */
  function ResolveExpiry(configured: string, parsed: Parsed): (d: int)
    ensures configured != "" && !parsed.failed ==> d == parsed.duration
    ensures configured == "" || parsed.failed ==> d == 60 * Second
  {
    ConfiguredDuration(configured, parsed, DefaultExpiry)
  }

  /** A key is listed by `Keys(prefixes...)`: no prefixes given, or it
      starts with one of them. */
  predicate Matches(key: string, prefixes: seq<string>) {
    prefixes == [] || exists i :: 0 <= i < |prefixes| && HasPrefix(key, prefixes[i])
  }

  /** The keys of `order` that match, in that order. */
  function Selected(order: seq<string>, prefixes: seq<string>): (r: seq<string>)
    ensures forall k :: k in r <==> k in order && Matches(k, prefixes)
    ensures |r| <= |order|
    ensures (forall k :: 0 <= k < |order| ==> !Matches(order[k], prefixes)) ==> r == []
    decreases |order|
  {
    if order == [] then []
    else
      var last := order[|order| - 1];
      Selected(order[..|order| - 1], prefixes) + (if Matches(last, prefixes) then [last] else [])
  }

  lemma SelectedSnoc(order: seq<string>, k: string, prefixes: seq<string>)
    ensures Selected(order + [k], prefixes) == Selected(order, prefixes) + (if Matches(k, prefixes) then [k] else [])
  {
    assert (order + [k])[..|order|] == order;
  }

  /** Each key is listed at most once. */
  lemma {:induction false} SelectedDistinct(order: seq<string>, prefixes: seq<string>)
    requires Distinct(order)
    ensures Distinct(Selected(order, prefixes))
    decreases |order|
  {
    if order != [] {
      var front := order[..|order| - 1];
      assert Distinct(front);
      SelectedDistinct(front, prefixes);
      assert order[|order| - 1] !in front;
    }
  }

  /** Without prefixes every key is listed, in map order. */
  lemma {:induction false} SelectedAll(order: seq<string>)
    ensures Selected(order, []) == order
    decreases |order|
  {
    if order != [] {
      var front, last := order[..|order| - 1], order[|order| - 1];
      SelectedAll(front);
      assert Matches(last, []);
      assert Selected(order, []) == Selected(front, []) + [last];
      assert front + [last] == order;
    }
  }

  /** The number `Serial` returns and stores: the live int64 under `rk`
      (any other kind of value, an expired entry or none counts as 0)
      plus `step`, with int64 wrap-around. */
  function SerialNext(caches: map<string, Entry<Value>>, rk: string, now: int, step: int): (num: int)
    ensures InInt64(num)
    ensures Live(caches, rk, now) && caches[rk].value.Int64? ==> (num - (caches[rk].value.n + step)) % TwoTo64 == 0
    ensures !(Live(caches, rk, now) && caches[rk].value.Int64?) && InInt64(step) ==> num == step
  {
    var base := if Live(caches, rk, now) && caches[rk].value.Int64? then caches[rk].value.n else 0;
    WrapInt64(base + step)
  }

  /** Two `Serial` calls on one key in the same second, with a default
      expiry of at least a second: the second continues from the first. */
  lemma SerialContinues(caches: map<string, Entry<Value>>, rk: string, now: int, step1: int, step2: int, expiry: int)
    requires expiry >= Second
    ensures var n1 := SerialNext(caches, rk, now, step1);
      SerialNext(caches[rk := Entry(Int64(n1), ExpiryAt(now, expiry))], rk, now, step2) == WrapInt64(n1 + step2)
  {
    var n1 := SerialNext(caches, rk, now, step1);
    FreshEntryLive(caches, rk, Int64(n1), now, expiry);
  }

  class DefaultCacheConnect {
    const name: string
    const prefix: string
    /** The default lifetime of a written entry (a time.Duration). */
    const expiry: int
    var caches: map<string, Entry<Value>>

    constructor Connect(name: string, prefix: string, configured: string, parsed: Parsed)
      ensures this.name == name && this.prefix == prefix
      ensures expiry == ResolveExpiry(configured, parsed) && caches == map[]
    {
      this.name, this.prefix := name, prefix;
      expiry := ResolveExpiry(configured, parsed);
      caches := map[];
    }

    /** The live value, or an error; an entry found expired is deleted. */
    method Read(key: string, now: int) returns (r: Result<Value>)
      modifies this`caches
      ensures Live(old(caches), prefix + key, now) ==> r == Ok(old(caches)[prefix + key].value) && caches == old(caches)
      ensures !Live(old(caches), prefix + key, now) ==> r == Err(CacheReadFailed) && caches == old(caches) - {prefix + key}
    {
      var rk := prefix + key;
      if rk in caches {
        var vv := caches[rk];
        if vv.expiry > now {
          return Ok(vv.value);
        } else {
          var _ := Delete(key);
        }
      }
      r := Err(CacheReadFailed);
    }

    /** Stores `val` under the prefixed key until `now` plus the explicit
        duration, or plus the default one. */
    method Write(key: string, val: Value, expires: seq<int>, now: int) returns (err: Outcome)
      modifies this`caches
      ensures err == Pass
      ensures caches == old(caches)[prefix + key := Entry(val, ExpiryAt(now, if |expires| > 0 then expires[0] else expiry))]
    {
      var value := Entry(val, ExpiryAt(now, expiry));
      if |expires| > 0 {
        value := Entry(val, ExpiryAt(now, expires[0]));
      }
      caches := caches[prefix + key := value];
      err := Pass;
    }

    /** True for any stored entry, expired or not; false with an error otherwise. */
    method Exists(key: string) returns (found: bool, err: Outcome)
      ensures found <==> prefix + key in caches
      ensures err == if found then Pass else Fail(CacheReadFailed)
    {
      if prefix + key in caches {
        return true, Pass;
      }
      return false, Fail(CacheReadFailed);
    }

    /** Removes only the prefixed key. */
    method Delete(key: string) returns (err: Outcome)
      modifies this`caches
      ensures err == Pass && caches == old(caches) - {prefix + key}
    {
      caches := caches - {prefix + key};
      err := Pass;
    }

    /** Adds `step` to the live int64 counter (0 when there is none) and
        stores the sum with the default expiry. */
    method Serial(key: string, step: int, now: int) returns (num: int, err: Outcome)
      modifies this`caches
      ensures err == Pass && num == SerialNext(old(caches), prefix + key, now, step)
      ensures caches == old(caches)[prefix + key := Entry(Int64(num), ExpiryAt(now, expiry))]
    {
      num := 0;
      var vv := Read(key, now);
      if vv.Ok? && vv.value.Int64? {
        num := vv.value.n;
      }
      num := WrapInt64(num + step);
      err := Write(key, Int64(num), [], now);
    }

    /** The `Range` callback of `Keys` for one stored key: appends it when
        it matches one of the prefixes, or when no prefix is given. */
    method Visit(k: string, prefixes: seq<string>, keys: seq<string>) returns (listed: seq<string>)
      ensures listed == keys + (if Matches(k, prefixes) then [k] else [])
    {
      listed := keys;
      var key := k;
      if prefix == "" {
        ReplaceEmptyByEmpty(key);
        key := ReplaceFirst(key, prefix, "");
      }
      if |prefixes| == 0 {
        listed := listed + [key];
      } else {
        var i := 0;
        while i < |prefixes|
          invariant 0 <= i <= |prefixes|
          invariant forall j :: 0 <= j < i ==> !HasPrefix(key, prefixes[j])
          invariant listed == keys
        {
          if HasPrefix(key, prefixes[i]) {
            listed := listed + [key];
            break;
          }
          i := i + 1;
        }
      }
    }

    /** The stored keys, expired ones included, as stored (with the
        connection prefix), each once, filtered by the prefixes. */
    method Keys(prefixes: seq<string>) returns (keys: seq<string>, err: Outcome)
      ensures err == Pass
      ensures exists order :: Enumerates(order, caches.Keys) && keys == Selected(order, prefixes)
      ensures Distinct(keys)
      ensures forall k :: k in keys <==> k in caches && Matches(k, prefixes)
    {
      keys, err := [], Pass;
      var todo := caches.Keys;
      ghost var order: seq<string> := [];
      while todo != {}
        invariant todo <= caches.Keys
        invariant forall k :: 0 <= k < |order| ==> order[k] in caches && order[k] !in todo
        invariant forall x :: x in caches && x !in todo ==> x in order
        invariant Distinct(order)
        invariant keys == Selected(order, prefixes)
        decreases |todo|
      {
        var k :| k in todo;
        keys := Visit(k, prefixes, keys);
        SelectedSnoc(order, k, prefixes);
        order := order + [k];
        todo := todo - {k};
      }
      SelectedDistinct(order, prefixes);
    }

    /** The loop of `Clear`: deletes each listed key. */
    method DeleteKeys(keys: seq<string>)
      modifies this`caches
      ensures caches == old(caches) - (set k | k in keys)
    {
      ghost var gone: set<string> := {};
      var i := 0;
      while i < |keys|
        invariant 0 <= i <= |keys|
        invariant gone == set k | k in keys[..i]
        invariant caches == old(caches) - gone
      {
        assert keys[..i + 1] == keys[..i] + [keys[i]];
        caches := caches - {keys[i]};
        gone := gone + {keys[i]};
        i := i + 1;
      }
      assert keys[..|keys|] == keys;
    }

    /** Deletes exactly the keys `Keys(prefixes...)` lists. */
    method Clear(prefixes: seq<string>) returns (err: Outcome)
      modifies this`caches
      ensures err == Pass
      ensures caches == old(caches) - (set k | k in old(caches) && Matches(k, prefixes))
    {
      var keys, _ := Keys(prefixes);
      assert (set k | k in keys) == set k | k in caches && Matches(k, prefixes);
      DeleteKeys(keys);
      err := Pass;
    }
  }

  /** After `Clear(prefixes...)` a following `Keys(prefixes...)` lists nothing. */
  lemma ClearedListsNothing(old_caches: map<string, Entry<Value>>, prefixes: seq<string>, order: seq<string>)
    requires Enumerates(order, (old_caches - (set k | k in old_caches && Matches(k, prefixes))).Keys)
    ensures Selected(order, prefixes) == []
  {
    assert forall k :: 0 <= k < |order| ==> !Matches(order[k], prefixes);
  }

  /** A written value reads back in the same second exactly when its
      lifetime is at least one second; other keys are not disturbed. */
  lemma WriteThenRead(caches: map<string, Entry<Value>>, rk: string, v: Value, now: int, d: int, other: string)
    requires other != rk
    ensures Live(caches[rk := Entry(v, ExpiryAt(now, d))], rk, now) <==> d >= Second
    ensures Live(caches[rk := Entry(v, ExpiryAt(now, d))], other, now) == Live(caches, other, now)
  {
    FreshEntryLive(caches, rk, v, now, d);
    WriteKeepsOthers(caches, rk, Entry(v, ExpiryAt(now, d)), other, now);
  }

  /** The whole interface in one sequence: write, read back, count, clear. */
  method CacheScenario(now: int)
  {
    var c := new DefaultCacheConnect.Connect("default", "app:", "", Parsed(0, true));
    var _ := c.Write("user", Str("ann"), [], now);
    var r := c.Read("user", now);
    assert r == Ok(Str("ann"));
    var n, _ := c.Serial("hits", 5, now);
    assert n == 5;
    var m, _ := c.Serial("hits", 2, now);
    assert m == 7;
    var _ := c.Write("tmp", Nil, [0], now);
    var t := c.Read("tmp", now);
    assert t.Err? && "app:tmp" !in c.caches;
    var found, _ := c.Exists("user");
    assert found;
  }
}
