/** The PostgreSQL data base object (data/postgres/base.go): the
    manual/automatic transaction state machine, the table lookup, and the
    value packing, unpacking and query post-processing around the SQL
    driver. Commit, rollback and `db.Begin` are outcomes passed in;
    `ark.Trigger` calls are recorded in `fired`. */
module PostgresData {
  import opened Common
  import opened PostgresDriver

  type Map = map<string, Value>

  /** One `ark.Trigger(name, values...)` call, or one queued trigger. */
  datatype TriggerCall = TriggerCall(name: string, values: seq<Map>)

  /** What `beginTx` hands back to run a statement on. */
  datatype Executor = NoExecutor | DbExecutor | TxExecutor(tx: nat)

  /** The table object `Table` builds. */
  datatype TableInfo = TableInfo(name: string, schema: string, table: string, key: string, fields: Map)

  /** The field description `Table` always adds under "$count"; its label
      is the two characters U+7EDF U+8BA1 ("count"). */
  const CountField: Map := map["type" := Str("int"), "must" := Nil, "name" := Str("\U{7EDF}\U{8BA1}"), "text" := Str("\U{7EDF}\U{8BA1}")]

  // ---------------------------------------------------------------- tables

  /** The registry keys `tableConfig` tries, most specific first. */
  function ConfigKeys(base: string, name: string): (keys: seq<string>)
    ensures |keys| == 3 && keys[2] == name
  {
    [base + "." + name, "*." + name, name]
  }

  /** The configuration of the first key the registry knows. */
  function FirstHit(keys: seq<string>, registry: map<string, Map>): (r: Option<Map>)
    ensures r.None? <==> forall i :: 0 <= i < |keys| ==> keys[i] !in registry
    decreases |keys|
  {
    if keys == [] then None
    else if keys[0] in registry then Some(registry[keys[0]])
    else FirstHit(keys[1..], registry)
  }

  /** A hit comes from the first key the registry knows. */
  lemma {:induction false} FirstHitIndex(keys: seq<string>, registry: map<string, Map>) returns (i: int)
    requires FirstHit(keys, registry).Some?
    ensures 0 <= i < |keys| && keys[i] in registry && FirstHit(keys, registry).value == registry[keys[i]]
    ensures forall j :: 0 <= j < i ==> keys[j] !in registry
    decreases |keys|
  {
    if keys[0] in registry {
      i := 0;
    } else {
      var k := FirstHitIndex(keys[1..], registry);
      i := k + 1;
    }
  }

  /** The lookup order of `tableConfig`: "<base>.<name>", then "*.<name>",
      then "<name>". */
  lemma TableConfigOrder(base: string, name: string, registry: map<string, Map>)
    ensures base + "." + name in registry ==> FirstHit(ConfigKeys(base, name), registry) == Some(registry[base + "." + name])
    ensures base + "." + name !in registry && "*." + name in registry ==> FirstHit(ConfigKeys(base, name), registry) == Some(registry["*." + name])
    ensures base + "." + name !in registry && "*." + name !in registry && name in registry ==> FirstHit(ConfigKeys(base, name), registry) == Some(registry[name])
    ensures base + "." + name !in registry && "*." + name !in registry && name !in registry ==> FirstHit(ConfigKeys(base, name), registry) == None
  {
    var keys := ConfigKeys(base, name);
    assert keys[1..] == ["*." + name, name];
    assert keys[1..][1..] == [name];
    assert keys[1..][1..][1..] == [];
    assert FirstHit(keys[1..][1..], registry) == if name in registry then Some(registry[name]) else None;
  }

  /** The configured field map, empty when "fields" is not a map. */
  function ConfiguredFields(config: Map): Map {
    if "fields" in config && config["fields"].MapVal? then config["fields"].m else map[]
  }

  /** The table object for a found configuration: schema, table and key
      are overridden by string settings, dots in the table name become
      underscores, and the configured fields are laid over "$count". */
  function TableOf(baseSchema: string, name: string, config: Map): (t: TableInfo)
    ensures t.name == name
    ensures t.schema == if "schema" in config && config["schema"].Str? then config["schema"].s else baseSchema
    ensures t.key == if "key" in config && config["key"].Str? then config["key"].s else "id"
    ensures t.table == ReplaceAll(if "table" in config && config["table"].Str? then config["table"].s else name, ".", "_")
    ensures '.' !in t.table
    ensures "$count" in t.fields
    ensures forall k :: k in t.fields <==> k == "$count" || k in ConfiguredFields(config)
    ensures forall k :: k in ConfiguredFields(config) ==> t.fields[k] == ConfiguredFields(config)[k]
    ensures "$count" !in ConfiguredFields(config) ==> t.fields["$count"] == MapVal(CountField)
  {
    var schema := if "schema" in config && config["schema"].Str? then config["schema"].s else baseSchema;
    var table := if "table" in config && config["table"].Str? then config["table"].s else name;
    var key := if "key" in config && config["key"].Str? then config["key"].s else "id";
    ReplaceAllRemovesChar(table, '.', "_");
    TableInfo(name, schema, ReplaceAll(table, ".", "_"), key, map["$count" := MapVal(CountField)] + ConfiguredFields(config))
  }

  /** A table name without dots is kept as it is. */
  lemma {:induction false} DotlessTableName(s: string)
    requires '.' !in s
    ensures ReplaceAll(s, ".", "_") == s
  {
    IndexOfAbsentChar(s, '.', 0);
  }

  // ---------------------------------------------------------------- packing

  /** PostgreSQL's array literal: the items joined by commas in braces. */
  function ArrayLiteral(items: seq<string>): string {
    "{" + Join(items, ",") + "}"
  }

  /** Reading an array literal back into its items. */
  function ArrayItems(lit: string): seq<string> {
    if |lit| >= 2 && lit[0] == '{' && lit[|lit| - 1] == '}' then
      var inner := lit[1..|lit| - 1];
      if inner == "" then [] else Split(inner, ',')
    else []
  }

  function BoolWords(bs: seq<bool>): (r: seq<string>)
    ensures |r| == |bs|
    ensures forall k :: 0 <= k < |bs| ==> r[k] == if bs[k] then "TRUE" else "FALSE"
  {
    seq(|bs|, k requires 0 <= k < |bs| => if bs[k] then "TRUE" else "FALSE")
  }

  function Decimals(ns: seq<int>): (r: seq<string>)
    ensures |r| == |ns|
    ensures forall k :: 0 <= k < |ns| ==> r[k] == IntToString(ns[k])
  {
    seq(|ns|, k requires 0 <= k < |ns| => IntToString(ns[k]))
  }

  /** How `packing` rewrites one value before it is written: string, bool
      and integer slices become array literals, a map or a list of maps its
      JSON text (`marshal` is json.Marshal, `None` its error), and anything
      else is passed through. */
  function PackValue(v: Value, marshal: Value -> Option<string>): (r: Value)
    ensures v.StrList? || v.BoolList? || v.IntList? || v.MapVal? || v.MapList? ==> r.Str?
    ensures !(v.StrList? || v.BoolList? || v.IntList? || v.MapVal? || v.MapList?) ==> r == v
    ensures v.MapVal? && marshal(v).None? ==> r == Str("{}")
    ensures v.MapList? && marshal(v).None? ==> r == Str("[]")
  {
    match v
    case StrList(items) => Str(ArrayLiteral(items))
    case BoolList(bs) => Str(ArrayLiteral(BoolWords(bs)))
    case IntList(ns) => Str(ArrayLiteral(Decimals(ns)))
    case MapVal(_) => (match marshal(v) case Some(text) => Str(text) case None => Str("{}"))
    case MapList(_) => (match marshal(v) case Some(text) => Str(text) case None => Str("[]"))
    case _ => v
  }

  lemma ArrayLiteralInner(items: seq<string>)
    ensures var lit := ArrayLiteral(items); |lit| >= 2 && lit[0] == '{' && lit[|lit| - 1] == '}' && lit[1..|lit| - 1] == Join(items, ",")
  {
  }

  /** An array literal gives back its items, provided no item contains a
      comma and the list is not the single empty string (which renders
      like the empty list). */
  lemma ArrayLiteralRoundTrip(items: seq<string>)
    requires items != [""]
    requires forall k :: 0 <= k < |items| ==> ',' !in items[k]
    ensures ArrayItems(ArrayLiteral(items)) == items
  {
    ArrayLiteralInner(items);
    SplitJoin(items, ',');
  }

  /** A packed bool slice reads back as the same bools. */
  lemma BoolArrayRoundTrip(bs: seq<bool>, marshal: Value -> Option<string>)
    ensures var words := ArrayItems(PackValue(BoolList(bs), marshal).s);
      |words| == |bs| && forall k :: 0 <= k < |bs| ==> (words[k] == "TRUE") == bs[k]
  {
    var words := BoolWords(bs);
    forall k | 0 <= k < |words| ensures ',' !in words[k] && words[k] != "" {
    }
    if |words| == 1 {
      assert words[0] != "";
    }
    assert words != [""];
    ArrayLiteralRoundTrip(words);
  }

  /** A packed integer slice reads back as the same integers. */
  lemma IntArrayRoundTrip(ns: seq<int>, marshal: Value -> Option<string>)
    ensures var items := ArrayItems(PackValue(IntList(ns), marshal).s);
      |items| == |ns| && forall k :: 0 <= k < |ns| ==> ParseInt(items[k]) == ns[k]
  {
    var items := Decimals(ns);
    forall k | 0 <= k < |items| ensures ',' !in items[k] && ParseInt(items[k]) == ns[k] {
      IntToStringRoundTrip(ns[k]);
    }
    if items == [""] {
      IntToStringRoundTrip(ns[0]);
    }
    ArrayLiteralRoundTrip(items);
  }

  /** A packed string slice reads back as the same strings when none of
      them contains a comma. */
  lemma StrArrayRoundTrip(items: seq<string>, marshal: Value -> Option<string>)
    requires items != [""]
    requires forall k :: 0 <= k < |items| ==> ',' !in items[k]
    ensures ArrayItems(PackValue(StrList(items), marshal).s) == items
  {
    ArrayLiteralRoundTrip(items);
  }

  /** The TRUE/FALSE loop of the bool case. */
  method RenderBools(t: seq<bool>) returns (arr: seq<string>)
    ensures arr == BoolWords(t)
  {
    arr := [];
    var i := 0;
    while i < |t|
      invariant 0 <= i <= |t|
      invariant arr == BoolWords(t[..i])
    {
      arr := arr + [if t[i] then "TRUE" else "FALSE"];
      i := i + 1;
    }
    assert t[..|t|] == t;
  }

  /** The decimal loop of the integer cases. */
  method RenderInts(t: seq<int>) returns (arr: seq<string>)
    ensures arr == Decimals(t)
  {
    arr := [];
    var i := 0;
    while i < |t|
      invariant 0 <= i <= |t|
      invariant arr == Decimals(t[..i])
    {
      arr := arr + [IntToString(t[i])];
      i := i + 1;
    }
    assert t[..|t|] == t;
  }

  /** `packing`: every entry rewritten by PackValue, under the same key. */
  method Packing(value: Map, marshal: Value -> Option<string>) returns (newValue: Map)
    ensures newValue.Keys == value.Keys
    ensures forall k :: k in value ==> newValue[k] == PackValue(value[k], marshal)
  {
    newValue := map[];
    var todo := value.Keys;
    while todo != {}
      invariant todo <= value.Keys
      invariant newValue.Keys == value.Keys - todo
      invariant forall k :: k in newValue ==> newValue[k] == PackValue(value[k], marshal)
      decreases |todo|
    {
      var k :| k in todo;
      var v := value[k];
      match v {
        case StrList(t) =>
          newValue := newValue[k := Str("{" + Join(t, ",") + "}")];
        case BoolList(t) =>
          var arr := RenderBools(t);
          newValue := newValue[k := Str("{" + Join(arr, ",") + "}")];
        case IntList(t) =>
          var arr := RenderInts(t);
          newValue := newValue[k := Str("{" + Join(arr, ",") + "}")];
        case MapVal(_) =>
          var b := marshal(v);
          if b.Some? {
            newValue := newValue[k := Str(b.value)];
          } else {
            newValue := newValue[k := Str("{}")];
          }
        case MapList(_) =>
          var b := marshal(v);
          if b.Some? {
            newValue := newValue[k := Str(b.value)];
          } else {
            newValue := newValue[k := Str("[]")];
          }
        case _ =>
          newValue := newValue[k := v];
      }
      todo := todo - {k};
    }
  }

  // ---------------------------------------------------------------- unpacking

  /** One column read back: bytes become text (`decode` is Go's string
      conversion); anything else is kept. */
  function UnpackValue(v: Value, decode: Bytes -> string): (r: Value)
    ensures v.Blob? ==> r == Str(decode(v.bytes))
    ensures !v.Blob? ==> r == v
  {
    if v.Blob? then Str(decode(v.bytes)) else v
  }

  /** The row map built from the column names and values, a later column
      of the same name overwriting an earlier one. */
  function Unpacked(keys: seq<string>, vals: seq<Value>, decode: Bytes -> string): (m: Map)
    requires |keys| <= |vals|
    ensures m.Keys == set k | k in keys
    decreases |keys|
  {
    if keys == [] then map[]
    else
      var n := |keys| - 1;
      Unpacked(keys[..n], vals, decode)[keys[n] := UnpackValue(vals[n], decode)]
  }

  /** With distinct column names each column's own value is found under its name. */
  lemma {:induction false} UnpackedLookup(keys: seq<string>, vals: seq<Value>, decode: Bytes -> string, i: int)
    requires |keys| <= |vals| && Distinct(keys) && 0 <= i < |keys|
    ensures Unpacked(keys, vals, decode)[keys[i]] == UnpackValue(vals[i], decode)
    decreases |keys|
  {
    var n := |keys| - 1;
    if i < n {
      assert keys[..n][i] == keys[i];
      UnpackedLookup(keys[..n], vals, decode, i);
    }
  }

  /** `unpacking`: the loop over the column names; the source indexes
      `vals` by each name's position, so it needs at least as many values. */
  method Unpacking(keys: seq<string>, vals: seq<Value>, decode: Bytes -> string) returns (m: Map)
    requires |keys| <= |vals|
    ensures m == Unpacked(keys, vals, decode)
  {
    m := map[];
    var i := 0;
    while i < |keys|
      invariant 0 <= i <= |keys|
      invariant m == Unpacked(keys[..i], vals, decode)
    {
      assert keys[..i + 1][..i] == keys[..i];
      m := m[keys[i] := UnpackValue(vals[i], decode)];
      i := i + 1;
    }
    assert keys[..|keys|] == keys;
  }

  // ---------------------------------------------------------------- parsing

  /** What `ark.Parse` produces, and `parsing` returns: the condition SQL,
      its arguments, and the ORDER BY text. */
  datatype Query = Query(sql: string, args: seq<Value>, order: string)

  /** The SQL with its pieces between '?' marks rejoined, the first `n`
      marks becoming $i, $i+1, ... and any later ones kept. */
  function Numbering(pieces: seq<string>, i: int, n: nat): string
    requires |pieces| > 0
    decreases |pieces|
  {
    if |pieces| == 1 then pieces[0]
    else if n == 0 then Join(pieces, "?")
    else pieces[0] + "$" + IntToString(i) + Numbering(pieces[1..], i + 1, n - 1)
  }

  /** The placeholder numbering of `parsing` applied to `sql`. */
  function Numbered(sql: string, i: int, n: nat): string {
    Numbering(Split(sql, '?'), i, n)
  }

  /** Numbering nothing leaves the SQL as it was. */
  lemma NumberedZero(sql: string, i: int)
    ensures Numbered(sql, i, 0) == sql
  {
    JoinSplit(sql, '?');
  }

  /** Once there are at least as many arguments as marks, no '?' is left. */
  lemma {:induction false} NumberingClears(pieces: seq<string>, i: int, n: nat)
    requires |pieces| > 0 && n + 1 >= |pieces|
    requires forall k :: 0 <= k < |pieces| ==> '?' !in pieces[k]
    ensures '?' !in Numbering(pieces, i, n)
    decreases |pieces|
  {
    if |pieces| > 1 {
      IntToStringRoundTrip(i);
      NumberingClears(pieces[1..], i + 1, n - 1);
    }
  }

  lemma NumberedClears(sql: string, i: int, n: nat)
    requires n + 1 >= |Split(sql, '?')|
    ensures '?' !in Numbered(sql, i, n)
  {
    SplitPiecesClean(sql, '?');
    NumberingClears(Split(sql, '?'), i, n);
  }

  /** Numbering the next '?' of the remaining SQL, `head` followed by the
      `rest` pieces: the mark after `head` is the first one. */
  lemma NextMark(done: string, head: string, rest: seq<string>, n: int, m: nat)
    requires rest != [] && m > 0
    requires '?' !in done && '?' !in head
    ensures ReplaceFirst(done + Join([head] + rest, "?"), "?", "$" + IntToString(n)) == (done + head + "$" + IntToString(n)) + Join(rest, "?")
    ensures done + Numbering([head] + rest, n, m) == (done + head + "$" + IntToString(n)) + Numbering(rest, n + 1, m - 1)
    ensures '?' !in done + head + "$" + IntToString(n)
  {
    MarkClean(n);
    JoinConsMark(done, head, rest, "$" + IntToString(n));
    NumberingCons(done, head, rest, n, m);
  }

  /** A placeholder `$n` holds no '?'. */
  lemma MarkClean(n: int)
    ensures '?' !in "$" + IntToString(n)
  {
    IntToStringRoundTrip(n);
  }

  lemma JoinConsMark(done: string, head: string, rest: seq<string>, mark: string)
    requires '?' !in done && '?' !in head && '?' !in mark && rest != []
    ensures ReplaceFirst(done + Join([head] + rest, "?"), "?", mark) == (done + head + mark) + Join(rest, "?")
    ensures '?' !in done + head + mark
  {
    var xs := [head] + rest;
    assert xs[1..] == rest;
    assert done + Join(xs, "?") == (done + head) + ['?'] + Join(rest, "?");
    ReplaceAfterClean(done + head, '?', Join(rest, "?"), mark);
  }

  lemma NumberingCons(done: string, head: string, rest: seq<string>, n: int, m: nat)
    requires rest != [] && m > 0
    ensures done + Numbering([head] + rest, n, m) == (done + head + "$" + IntToString(n)) + Numbering(rest, n + 1, m - 1)
  {
    assert ([head] + rest)[1..] == rest;
  }

  lemma NoMarkLeft(done: string, pieces: seq<string>, j: nat, n: int, m: nat)
    requires j == |pieces| - 1 && m > 0
    requires '?' !in done && forall k :: 0 <= k < |pieces| ==> '?' !in pieces[k]
    ensures ReplaceFirst(done + Join(pieces[j..], "?"), "?", "$" + IntToString(n)) == done + Join(pieces[j..], "?")
    ensures Numbering(pieces[j..], n, m) == Numbering(pieces[j..], n + 1, m - 1)
  {
    assert pieces[j..] == [pieces[j]];
    IndexOfAbsentChar(done + pieces[j], '?', 0);
  }

  /** With no arguments left the pieces are only rejoined. */
  lemma NumberingNone(ps: seq<string>, n: int)
    requires |ps| > 0
    ensures Numbering(ps, n, 0) == Join(ps, "?")
  {
  }

  /** One round of the numbering loop, on the pieces still to number. */
  lemma MarkStep(pieces: seq<string>, done: string, j: nat, n: int, m: nat) returns (done2: string, j2: nat)
    requires j < |pieces| && m > 0
    requires '?' !in done && forall k :: 0 <= k < |pieces| ==> '?' !in pieces[k]
    ensures j2 < |pieces| && '?' !in done2
    ensures ReplaceFirst(done + Join(pieces[j..], "?"), "?", "$" + IntToString(n)) == done2 + Join(pieces[j2..], "?")
    ensures done + Numbering(pieces[j..], n, m) == done2 + Numbering(pieces[j2..], n + 1, m - 1)
  {
    if j < |pieces| - 1 {
      var head, rest := pieces[j], pieces[j + 1..];
      assert pieces[j..] == [head] + rest;
      assert '?' !in head;
      NextMark(done, head, rest, n, m);
      done2, j2 := done + head + "$" + IntToString(n), j + 1;
    } else {
      NoMarkLeft(done, pieces, j, n, m);
      done2, j2 := done, j;
    }
  }

  /** The numbering loop as the source runs it: `k` times, the first '?'
      left becomes `$n` and `n` goes up by one. */
  function NumberLoop(sql: string, n: int, k: nat): string
    decreases k
  {
    if k == 0 then sql else NumberLoop(ReplaceFirst(sql, "?", "$" + IntToString(n)), n + 1, k - 1)
  }

  /** The loop numbers exactly the marks between the pieces, in order. */
  lemma {:induction false} NumberLoopNumbers(pieces: seq<string>, done: string, j: nat, n: int, m: nat)
    requires j < |pieces|
    requires '?' !in done && forall k :: 0 <= k < |pieces| ==> '?' !in pieces[k]
    ensures NumberLoop(done + Join(pieces[j..], "?"), n, m) == done + Numbering(pieces[j..], n, m)
    decreases m
  {
    if m == 0 {
      NumberingNone(pieces[j..], n);
    } else {
      var done2, j2 := MarkStep(pieces, done, j, n, m);
      NumberLoopNumbers(pieces, done2, j2, n + 1, m - 1);
    }
  }

  /** Running the source's loop on a whole SQL text numbers it. */
  lemma NumberLoopIsNumbered(sql: string, i: int, k: nat)
    ensures NumberLoop(sql, i, k) == Numbered(sql, i, k)
  {
    var pieces := Split(sql, '?');
    SplitPiecesClean(sql, '?');
    JoinSplit(sql, '?');
    assert pieces[0..] == pieces;
    assert "" + Join(pieces, "?") == sql;
    NumberLoopNumbers(pieces, "", 0, i, k);
    assert "" + Numbering(pieces, i, k) == Numbering(pieces, i, k);
  }

  /** The numbering loop of `parsing`: `count0` times the first '?' left
      becomes the next $n. */
  method NumberMarks(sql0: string, i: int, count0: nat) returns (sql: string)
    ensures sql == Numbered(sql0, i, count0)
  {
    sql := sql0;
    var n := i;
    var count := 0;
    while count < count0
      invariant 0 <= count <= count0 && n == i + count
      invariant NumberLoop(sql, n, count0 - count) == NumberLoop(sql0, i, count0)
    {
      sql := ReplaceFirst(sql, "?", "$" + IntToString(n));
      n := n + 1;
      count := count + 1;
    }
    NumberLoopIsNumbered(sql0, i, count0);
  }

  /** `parsing`: the quoting marks become double quotes, the random-order
      marker becomes RANDOM(), and one '?' per argument is numbered from
      `i`. `delims` and `randby` are the framework's markers. */
  method Parsing(i: int, parsed: Result<Query>, delims: string, randby: string) returns (r: Result<Query>)
    ensures parsed.Err? ==> r == parsed
    ensures parsed.Ok? ==> r == Ok(Query(
      Numbered(ReplaceAll(parsed.value.sql, delims, "\""), i, |parsed.value.args|),
      parsed.value.args,
      ReplaceAll(ReplaceAll(parsed.value.order, delims, "\""), randby, "RANDOM()")))
  {
    if parsed.Err? {
      return parsed;
    }
    var Query(sql, val, odr) := parsed.value;
    sql := ReplaceAll(sql, delims, "\"");
    odr := ReplaceAll(odr, delims, "\"");
    odr := ReplaceAll(odr, randby, "RANDOM()");
    sql := NumberMarks(sql, i, |val|);
    return Ok(Query(sql, val, odr));
  }

  /** The "$count" field with the configured fields laid over it. */
  method MergeFields(fields: Map) returns (fff: Map)
    ensures fff == map["$count" := MapVal(CountField)] + fields
  {
    fff := map["$count" := MapVal(CountField)];
    var todo := fields.Keys;
    while todo != {}
      invariant todo <= fields.Keys
      invariant fff.Keys == {"$count"} + (fields.Keys - todo)
      invariant forall k :: k in fields && k !in todo ==> fff[k] == fields[k]
      invariant "$count" !in fields || "$count" in todo ==> fff["$count"] == MapVal(CountField)
      decreases |todo|
    {
      var k :| k in todo;
      fff := fff[k := fields[k]];
      todo := todo - {k};
    }
  }

  // ---------------------------------------------------------------- the base

  class PostgresBase {
    const connect: PostgresConnect
    const name: string
    const schema: string
    /** The open transaction, by identity. */
    var tx: Option<nat>
    /** Transactions are committed by hand (after `Begin`). */
    var manual: bool
    /** Triggers queued until commit. */
    var triggers: seq<TriggerCall>
    var lastError: Option<Error>
    /** The `ark.Trigger` calls made, in order. */
    var fired: seq<TriggerCall>

    /** A transaction exists only in manual mode, and triggers are queued
        only in manual mode. */
    ghost predicate Valid()
      reads this
    {
      (tx.Some? ==> manual) && (!manual ==> triggers == [])
    }

    /** A fresh base in automatic mode (its construction in
        data/postgres/connect.go is not part of this model). */
    constructor (connect: PostgresConnect, name: string, schema: string)
      ensures Valid()
      ensures this.connect == connect && this.name == name && this.schema == schema
      ensures tx == None && !manual && triggers == [] && lastError == None && fired == []
    {
      this.connect, this.name, this.schema := connect, name, schema;
      tx, manual, triggers, lastError, fired := None, false, [], None, [];
    }

    /** Queues the trigger (with its first value, or an empty map) in
        manual mode; fires it at once in automatic mode. */
    method Trigger(name: string, values: seq<Map>)
      requires Valid()
      modifies this`triggers, this`fired
      ensures Valid()
      ensures manual ==> triggers == old(triggers) + [TriggerCall(name, [if |values| > 0 then values[0] else map[]])] && fired == old(fired)
      ensures !manual ==> fired == old(fired) + [TriggerCall(name, values)] && triggers == old(triggers)
    {
      if manual {
        var value: Map := map[];
        if |values| > 0 {
          value := values[0];
        }
        triggers := triggers + [TriggerCall(name, [value])];
      } else {
        fired := fired + [TriggerCall(name, values)];
      }
    }

    /** The first configuration found for the table. */
    method TableConfig(name: string, registry: map<string, Map>) returns (cfg: Option<Map>)
      ensures cfg == FirstHit(ConfigKeys(this.name, name), registry)
    {
      var keys := [this.name + "." + name, "*." + name, name];
      var i := 0;
      while i < |keys|
        invariant 0 <= i <= |keys|
        invariant FirstHit(keys, registry) == FirstHit(keys[i..], registry)
      {
        assert keys[i..][1..] == keys[i + 1..];
        if keys[i] in registry {
          return Some(registry[keys[i]]);
        }
        i := i + 1;
      }
      return None;
    }

    /** The table object, or `TableNotFound` where the source panics. */
    method Table(name: string, registry: map<string, Map>) returns (r: Result<TableInfo>)
      ensures FirstHit(ConfigKeys(this.name, name), registry).None? ==> r == Err(TableNotFound)
      ensures FirstHit(ConfigKeys(this.name, name), registry).Some? ==> r == Ok(TableOf(schema, name, FirstHit(ConfigKeys(this.name, name), registry).value))
    {
      var config := TableConfig(name, registry);
      if config.None? {
        return Err(TableNotFound);
      }
      var cfg := config.value;
      var sch, table, key, fields := schema, name, "id", map[];
      if "schema" in cfg && cfg["schema"].Str? {
        sch := cfg["schema"].s;
      }
      if "table" in cfg && cfg["table"].Str? {
        table := cfg["table"].s;
      }
      if "key" in cfg && cfg["key"].Str? {
        key := cfg["key"].s;
      }
      if "fields" in cfg && cfg["fields"].MapVal? {
        fields := cfg["fields"].m;
      }
      assert fields == ConfiguredFields(cfg);
      var fff := MergeFields(fields);
      table := ReplaceAll(table, ".", "_");
      return Ok(TableInfo(name, sch, table, key, fff));
    }

    /** In manual mode: the open transaction, or a new one from `dbBegin`
        (kept for later calls), or its error. In automatic mode: the
        database itself, with no transaction. */
    method BeginTx(dbBegin: Result<nat>) returns (exec: Executor, err: Outcome)
      requires Valid()
      modifies this`tx
      ensures Valid()
      ensures manual && old(tx).Some? ==> tx == old(tx) && exec == TxExecutor(old(tx).value) && err == Pass
      ensures manual && old(tx).None? && dbBegin.Ok? ==> tx == Some(dbBegin.value) && exec == TxExecutor(dbBegin.value) && err == Pass
      ensures manual && old(tx).None? && dbBegin.Err? ==> tx == None && exec == NoExecutor && err == Fail(dbBegin.error)
      ensures !manual ==> tx == old(tx) && exec == DbExecutor && err == Pass
    {
      if manual {
        if tx.None? {
          if dbBegin.Err? {
            return NoExecutor, Fail(dbBegin.error);
          }
          tx := Some(dbBegin.value);
        }
        return TxExecutor(tx.value), Pass;
      } else {
        return DbExecutor, Pass;
      }
    }

    /** Clears the last error and switches to manual mode. From automatic
        mode no transaction is opened yet, so nil is returned. */
    method Begin(dbBegin: Result<nat>) returns (t: Option<nat>, err: Outcome)
      requires Valid()
      modifies this`tx, this`manual, this`lastError
      ensures Valid() && lastError == None
      ensures !old(manual) ==> manual && tx == None && t == None && err == Pass
      ensures old(manual) && old(tx).Some? ==> manual && tx == old(tx) && t == tx && err == Pass
      ensures old(manual) && old(tx).None? && dbBegin.Ok? ==> manual && tx == Some(dbBegin.value) && t == tx && err == Pass
      ensures old(manual) && old(tx).None? && dbBegin.Err? ==> manual && tx == None && t == None && err == Fail(dbBegin.error)
    {
      lastError := None;
      var _, e := BeginTx(dbBegin);
      if e.Fail? {
        return None, e;
      }
      manual := true;
      return tx, Pass;
    }

    /** Back to automatic mode with no transaction and no queued triggers. */
    method EndTx() returns (err: Outcome)
      modifies this`tx, this`manual, this`triggers
      ensures Valid() && err == Pass
      ensures tx == None && !manual && triggers == []
    {
      tx, manual, triggers := None, false, [];
      err := Pass;
    }

    /** Commits, then fires the queued triggers in order; the transaction
        ends whatever happens. `commit` is the result of tx.Commit. */
    method Submit(commit: Outcome) returns (err: Outcome)
      modifies this`tx, this`manual, this`triggers, this`fired
      ensures Valid() && tx == None && !manual && triggers == []
      ensures old(tx).None? ==> err == Fail(InvalidTransaction) && fired == old(fired)
      ensures old(tx).Some? && commit.Fail? ==> err == commit && fired == old(fired)
      ensures old(tx).Some? && commit.Pass? ==> err == Pass && fired == old(fired) + old(triggers)
    {
      if tx.None? {
        var _ := EndTx();
        return Fail(InvalidTransaction);
      }
      if commit.Fail? {
        var _ := EndTx();
        return commit;
      }
      var i := 0;
      while i < |triggers|
        invariant 0 <= i <= |triggers|
        invariant triggers == old(triggers)
        invariant fired == old(fired) + triggers[..i]
      {
        assert triggers[..i + 1] == triggers[..i] + [triggers[i]];
        fired := fired + [triggers[i]];
        i := i + 1;
      }
      assert triggers[..|triggers|] == triggers;
      var _ := EndTx();
      err := Pass;
    }

    /** Rolls back and ends the transaction; without one, or when the
        rollback fails, nothing changes. `rollback` is tx.Rollback's result. */
    method Cancel(rollback: Outcome) returns (err: Outcome)
      requires Valid()
      modifies this`tx, this`manual, this`triggers
      ensures Valid()
      ensures old(tx).None? ==> err == Fail(InvalidTransaction) && tx == old(tx) && manual == old(manual) && triggers == old(triggers)
      ensures old(tx).Some? && rollback.Fail? ==> err == rollback && tx == old(tx) && manual == old(manual) && triggers == old(triggers)
      ensures old(tx).Some? && rollback.Pass? ==> err == Pass && tx == None && !manual && triggers == []
    {
      if tx.None? {
        return Fail(InvalidTransaction);
      }
      if rollback.Fail? {
        return rollback;
      }
      var _ := EndTx();
      err := Pass;
    }

    /** A failure cancels the transaction and becomes the last error; a
        nil error changes nothing. */
    method ErrorHandler(key: string, err: Outcome, rollback: Outcome)
      requires Valid()
      modifies this`tx, this`manual, this`triggers, this`lastError
      ensures Valid()
      ensures err.Pass? ==> tx == old(tx) && manual == old(manual) && triggers == old(triggers) && lastError == old(lastError)
      ensures err.Fail? ==> lastError == Some(err.error)
      ensures err.Fail? && old(tx).Some? && rollback.Pass? ==> tx == None && !manual && triggers == []
      ensures err.Fail? && !(old(tx).Some? && rollback.Pass?) ==> tx == old(tx) && manual == old(manual) && triggers == old(triggers)
    {
      if err.Fail? {
        var _ := Cancel(rollback);
        lastError := Some(err.error);
      }
    }

    /** One fewer active base on the connection, and an open transaction
        is rolled back. */
    method Close(rollback: Outcome) returns (err: Outcome)
      requires Valid()
      modifies connect`actives, this`tx, this`manual, this`triggers
      ensures Valid() && err == Pass
      ensures connect.actives == old(connect.actives) - 1
      ensures old(tx).Some? && rollback.Pass? ==> tx == None && !manual && triggers == []
      ensures !(old(tx).Some? && rollback.Pass?) ==> tx == old(tx) && manual == old(manual) && triggers == old(triggers)
    {
      connect.actives := connect.actives - 1;
      if tx.Some? {
        var _ := Cancel(rollback);
      }
      err := Pass;
    }

    /** Hands out the last error once. */
    method Erred() returns (err: Option<Error>)
      modifies this`lastError
      ensures err == old(lastError) && lastError == None
    {
      err := lastError;
      lastError := None;
    }
  }

  /** Manual mode end to end: triggers wait for the commit and fire in
      order; after a failed commit none fires. */
  method TransactionScenario(c: PostgresConnect, a: Map)
  {
    var b := new PostgresBase(c, "main", "public");
    var t0, _ := b.Begin(Ok(1));
    assert t0 == None && b.manual;
    var e, _ := b.BeginTx(Ok(7));
    assert e == TxExecutor(7);
    b.Trigger("created", [a]);
    b.Trigger("updated", []);
    var ok := b.Submit(Pass);
    assert ok == Pass && b.fired == [TriggerCall("created", [a]), TriggerCall("updated", [map[]])];
    assert !b.manual && b.tx == None;
    b.Trigger("deleted", []);
    assert |b.fired| == 3;
    var _, _ := b.Begin(Ok(2));
    var _, _ := b.BeginTx(Ok(8));
    b.Trigger("later", []);
    var bad := b.Submit(Fail(Database(1)));
    assert bad == Fail(Database(1)) && |b.fired| == 3 && b.triggers == [];
  }
}
