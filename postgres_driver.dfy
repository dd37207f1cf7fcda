/** The PostgreSQL driver's `Connect` (data/postgres/driver.go): the URL
    scheme rewrite over the scheme aliases of data/postgres/index.go and
    the choice of schema. */
module PostgresDriver {
  import opened Common

  /** The URL schemes accepted as aliases, in the order they are tried. */
  const Schemes: seq<string> := [
    "postgresql://", "postgres://", "pgsql://", "pg://", "cockroachdb://",
    "cockroach://", "crdb://", "timescale://", "timescaledb://", "tsdb://"
  ]

  const Canonical: string := "postgres://"

  /** One iteration of the rewrite loop. */
  function RewriteStep(url: string, scheme: string): string {
    if HasPrefix(url, scheme) then ReplaceFirst(url, scheme, Canonical) else url
  }

  /** The rewrite loop run over `schemes`, in order. */
  function RewriteAll(schemes: seq<string>, url: string): string
    decreases |schemes|
  {
    if schemes == [] then url
    else RewriteStep(RewriteAll(schemes[..|schemes| - 1], url), schemes[|schemes| - 1])
  }

  /** `Connect`'s URL after the loop. */
  function Rewrite(url: string): string {
    RewriteAll(Schemes, url)
  }

  /** No scheme is a prefix of another one. */
  predicate PrefixFree(schemes: seq<string>) {
    forall i, j :: 0 <= i < |schemes| && 0 <= j < |schemes| && i != j ==> !HasPrefix(schemes[i], schemes[j])
  }

  /** Every alias has exactly one ':', three characters before its end. */
  predicate ColonOnlyAt(s: string) {
    |s| >= 3 && s[|s| - 3] == ':' && forall p :: 0 <= p < |s| && s[p] == ':' ==> p == |s| - 3
  }

  lemma SchemesPrefixFree()
    ensures PrefixFree(Schemes)
    ensures Schemes[1] == Canonical
  {
    assert forall k :: 0 <= k < |Schemes| ==> ColonOnlyAt(Schemes[k]);
    assert Distinct(Schemes);
    forall i, j | 0 <= i < |Schemes| && 0 <= j < |Schemes| && i != j
      ensures !HasPrefix(Schemes[i], Schemes[j])
    {
      var a, b := Schemes[i], Schemes[j];
      assert ColonOnlyAt(a) && ColonOnlyAt(b);
      assert a[..|a|] == a;
      assert |b| <= |a| ==> a[..|b|][|b| - 3] == a[|b| - 3];
    }
  }

  /** Replacing a leading occurrence swaps that prefix. */
  lemma ReplaceLeading(s: string, rest: string, rep: string)
    ensures ReplaceFirst(s + rest, s, rep) == rep + rest
  {
    var u := s + rest;
    assert u[0..|s|] == s;
    assert Index(u, s) == 0;
    assert u[|s|..] == rest;
  }

  /** A URL that starts with one scheme starts with no other one. */
  lemma OnlyOneScheme(schemes: seq<string>, k: int, j: int, rest: string)
    requires PrefixFree(schemes)
    requires 0 <= k < |schemes| && 0 <= j < |schemes| && j != k
    ensures !HasPrefix(schemes[k] + rest, schemes[j])
  {
    var a, b := schemes[k], schemes[j];
    if |b| <= |a| {
      assert (a + rest)[..|b|] == a[..|b|];
    } else {
      assert |b| <= |a + rest| ==> (a + rest)[..|b|][..|a|] == a;
    }
  }

  lemma {:induction false} RewriteAllSplit(xs: seq<string>, ys: seq<string>, url: string)
    ensures RewriteAll(xs + ys, url) == RewriteAll(ys, RewriteAll(xs, url))
    decreases |ys|
  {
    if ys != [] {
      var front := ys[..|ys| - 1];
      assert (xs + ys)[..|xs + ys| - 1] == xs + front;
      assert (xs + ys)[|xs + ys| - 1] == ys[|ys| - 1];
      RewriteAllSplit(xs, front, url);
    } else {
      assert xs + ys == xs;
    }
  }

  /** Steps that match nothing leave the URL alone. */
  lemma {:induction false} RewriteAllNoMatch(schemes: seq<string>, url: string)
    requires forall j :: 0 <= j < |schemes| ==> !HasPrefix(url, schemes[j])
    ensures RewriteAll(schemes, url) == url
    decreases |schemes|
  {
    if schemes != [] {
      RewriteAllNoMatch(schemes[..|schemes| - 1], url);
    }
  }

  /** Steps after the canonical form is reached keep it: only the canonical
      scheme itself matches, and it rewrites to itself. */
  lemma {:induction false} RewriteAllKeepsCanonical(schemes: seq<string>, rest: string)
    requires forall j :: 0 <= j < |schemes| ==> schemes[j] == Canonical || !HasPrefix(Canonical + rest, schemes[j])
    ensures RewriteAll(schemes, Canonical + rest) == Canonical + rest
    decreases |schemes|
  {
    if schemes != [] {
      RewriteAllKeepsCanonical(schemes[..|schemes| - 1], rest);
      ReplaceLeading(Canonical, rest, Canonical);
    }
  }

  /** A URL with a listed scheme comes out with `postgres://` in its place
      and the remainder kept. */
  lemma RewriteMatching(k: int, rest: string)
    requires 0 <= k < |Schemes|
    ensures Rewrite(Schemes[k] + rest) == Canonical + rest
  {
    SchemesPrefixFree();
    var url := Schemes[k] + rest;
    var before, after := Schemes[..k], Schemes[k + 1..];
    assert Schemes == before + [Schemes[k]] + after;
    forall j | 0 <= j < |before| ensures !HasPrefix(url, before[j]) {
      OnlyOneScheme(Schemes, k, j, rest);
    }
    RewriteAllNoMatch(before, url);
    assert RewriteAll([Schemes[k]], url) == Canonical + rest by {
      assert [Schemes[k]][..0] == [];
      assert HasPrefix(url, Schemes[k]);
      ReplaceLeading(Schemes[k], rest, Canonical);
    }
    RewriteAllSplit(before, [Schemes[k]], url);
    forall j | 0 <= j < |after| ensures after[j] == Canonical || !HasPrefix(Canonical + rest, after[j]) {
      if after[j] != Canonical {
        assert after[j] == Schemes[k + 1 + j];
        OnlyOneScheme(Schemes, 1, k + 1 + j, rest);
      }
    }
    RewriteAllKeepsCanonical(after, rest);
    RewriteAllSplit(before + [Schemes[k]], after, url);
  }

  /** A URL with no listed scheme is not touched. */
  lemma RewriteUnmatched(url: string)
    requires forall k :: 0 <= k < |Schemes| ==> !HasPrefix(url, Schemes[k])
    ensures Rewrite(url) == url
  {
    RewriteAllNoMatch(Schemes, url);
  }

  /** Rewriting twice gives what rewriting once gives. */
  lemma RewriteIdempotent(url: string)
    ensures Rewrite(Rewrite(url)) == Rewrite(url)
  {
    if k :| 0 <= k < |Schemes| && HasPrefix(url, Schemes[k]) {
      var rest := url[|Schemes[k]|..];
      assert url == Schemes[k] + rest;
      RewriteMatching(k, rest);
      RewriteMatching(1, rest);
    } else {
      RewriteUnmatched(url);
    }
  }

  /** The schema: "public" unless the `schema` setting is a non-empty string. */
  function ResolveSchema(settings: map<string, Value>): (schema: string)
    ensures "schema" in settings && settings["schema"].Str? && settings["schema"].s != "" ==> schema == settings["schema"].s
    ensures !("schema" in settings && settings["schema"].Str? && settings["schema"].s != "") ==> schema == "public"
    ensures schema != ""
  {
    if "schema" in settings && settings["schema"].Str? && settings["schema"].s != "" then settings["schema"].s else "public"
  }

  /** The loop of `Connect` over the aliases. */
  method RewriteUrl(url: string) returns (r: string)
    ensures r == Rewrite(url)
  {
    r := url;
    var i := 0;
    while i < |Schemes|
      invariant 0 <= i <= |Schemes|
      invariant r == RewriteAll(Schemes[..i], url)
    {
      assert Schemes[..i + 1][..i] == Schemes[..i];
      if HasPrefix(r, Schemes[i]) {
        r := ReplaceFirst(r, Schemes[i], Canonical);
      }
      i := i + 1;
    }
    assert Schemes[..|Schemes|] == Schemes;
  }

  /** The connection object `Connect` returns (its declaration in
      data/postgres/connect.go is not part of this model): the rewritten
      URL, the schema, no database handle yet and no active bases. */
  class PostgresConnect {
    const name: string
    const url: string
    const schema: string
    /** The `*sql.DB` has been opened. */
    var db: bool
    var actives: int

    /** The driver's `Connect`; it never fails. */
    constructor Connect(name: string, url: string, settings: map<string, Value>)
      ensures this.name == name && this.url == Rewrite(url) && schema == ResolveSchema(settings)
      ensures !db && actives == 0
    {
      var u := RewriteUrl(url);
      this.name := name;
      this.url := u;
      schema := ResolveSchema(settings);
      db, actives := false, 0;
    }
  }
}
