/** Affected-package selection: one pass over the listed packages against the packages a diff
    touches equals reachability in the import graph of their test builds. */
module Affected {
  import opened Options

  type Pkg = string

  /** What `go list` says of a package: its transitive non-test imports, and the direct imports
      of its test files. */
  datatype Info = Info(deps: set<Pkg>, testImports: set<Pkg>)

  type Listing = map<Pkg, Info>

  // ---------------------------------------------------------------------------
  // From the diff to the changed packages

  const FALLBACK_EXACT: set<string> := {"go.mod", "go.sum", "cli/go.mod", "cli/go.sum"}
  const FALLBACK_PREFIXES: seq<string> := [".github/", "internal/testutil/"]

  predicate StartsWith(s: string, prefix: string) {
    prefix <= s
  }

  predicate EndsWith(s: string, suffix: string) {
    |suffix| <= |s| && s[|s| - |suffix|..] == suffix
  }

  /** The files a change of which no package graph can bound. */
  predicate Trigger(f: string) {
    || f == "go.mod" || f == "go.sum" || f == "cli/go.mod" || f == "cli/go.sum"
    || ".github/" <= f || "internal/testutil/" <= f
  }

  /** Module files, CI configuration and test utilities ask for a full run. */
  method NeedsFullFallback(changed: seq<string>) returns (full: bool)
    ensures full <==> exists i :: 0 <= i < |changed| && Trigger(changed[i])
  {
    for i := 0 to |changed|
      invariant forall j :: 0 <= j < i ==> !Trigger(changed[j])
    {
      var f := changed[i];
      if f in FALLBACK_EXACT || StartsWith(f, FALLBACK_PREFIXES[0]) || StartsWith(f, FALLBACK_PREFIXES[1]) {
        return true;
      }
    }
    full := false;
  }

  /** The part of `f[..n]` before its last slash, or "." when it has none. */
  function Dir(f: string, n: nat): (d: string)
    requires n <= |f|
    ensures (exists i :: 0 <= i < n && f[i] == '/') ==>
              |d| < n && d == f[..|d|] && f[|d|] == '/' && forall j :: |d| < j < n ==> f[j] != '/'
    ensures (forall i :: 0 <= i < n ==> f[i] != '/') ==> d == "."
  {
    if n == 0 then "." else if f[n - 1] == '/' then f[..n - 1] else Dir(f, n - 1)
  }

  /** The module the run is for: the root one, or one in a directory. */
  datatype Module = Root | Nested(dir: string)

  predicate InModule(m: Module, f: string) {
    EndsWith(f, ".go") &&
    match m
    case Root => !StartsWith(f, "cli/") && !StartsWith(f, "operator/")
    case Nested(dir) => StartsWith(f, dir + "/")
  }

  /** The path of `f` inside the module. */
  function Inside(m: Module, f: string): string
    requires InModule(m, f)
  {
    match m
    case Root => f
    case Nested(dir) => f[|dir| + 1..]
  }

  /** The listed package `f` belongs to, if any. */
  function PackageOf(m: Module, dirs: map<string, Pkg>, f: string): Option<Pkg> {
    if !InModule(m, f) then None
    else
      var d := Dir(Inside(m, f), |Inside(m, f)|);
      if d in dirs then Some(dirs[d]) else None
  }

  function AsSet(p: Option<Pkg>): set<Pkg> {
    if p.Some? then {p.value} else {}
  }

  /** The listed packages with a changed Go file. */
  function ChangedPackages(m: Module, dirs: map<string, Pkg>, changed: seq<string>): set<Pkg> {
    if changed == [] then {}
    else
      var n := |changed| - 1;
      ChangedPackages(m, dirs, changed[..n]) + AsSet(PackageOf(m, dirs, changed[n]))
  }

  /** The file with path `f` lies in directory `d` itself. */
  ghost predicate LiesIn(f: string, d: string) {
    (d == "." && '/' !in f) || exists name :: '/' !in name && f == d + "/" + name
  }

  /** The last slash of a path is in one place. */
  lemma OneLastSlash(d: string, name: string, e: string, other: string)
    requires '/' !in name && '/' !in other && d + "/" + name == e + "/" + other
    ensures d == e
  {
    var f := d + "/" + name;
    assert f[|d|] == '/' && f[|e|] == '/';
    assert forall j :: |d| < j < |f| ==> f[j] == name[j - |d| - 1];
    assert forall j :: |e| < j < |f| ==> f[j] == other[j - |e| - 1];
    assert d == f[..|d|] && e == f[..|e|];
  }

  lemma DirSplits(f: string)
    ensures '/' in f ==> var d := Dir(f, |f|); |d| < |f| && f == d + "/" + f[|d| + 1..] && '/' !in f[|d| + 1..]
    ensures '/' !in f ==> Dir(f, |f|) == "."
  {
  }

  lemma DirExactly(f: string, d: string)
    ensures Dir(f, |f|) == d <==> LiesIn(f, d)
  {
    DirSplits(f);
    var r := Dir(f, |f|);
    forall name: string | '/' !in name && f == d + "/" + name ensures d == r {
      assert f[|d|] == '/';
      OneLastSlash(d, name, r, f[|r| + 1..]);
    }
  }

  /** `f` is a Go file of the module, in the directory of the listed package `p`. */
  ghost predicate FileOf(m: Module, dirs: map<string, Pkg>, f: string, p: Pkg) {
    && |f| >= 3 && f[|f| - 3..] == ".go"
    && exists d :: d in dirs && dirs[d] == p &&
         match m
         case Root => LiesIn(f, d) && !("cli/" <= f) && !("operator/" <= f)
         case Nested(dir) => exists inner :: f == dir + "/" + inner && LiesIn(inner, d)
  }

  lemma PackageExactly(m: Module, dirs: map<string, Pkg>, f: string, p: Pkg)
    ensures PackageOf(m, dirs, f) == Some(p) <==> FileOf(m, dirs, f, p)
  {
    if InModule(m, f) {
      var inner := Inside(m, f);
      assert m.Nested? ==> f == m.dir + "/" + inner;
      forall d ensures Dir(inner, |inner|) == d <==> LiesIn(inner, d) {
        DirExactly(inner, d);
      }
      assert forall g :: m.Nested? && f == m.dir + "/" + g ==> g == f[|m.dir| + 1..];
    }
  }

  /** A package is in it exactly when some changed file is a Go file of the module in its directory. */
  lemma {:induction false} ChangedExactly(m: Module, dirs: map<string, Pkg>, changed: seq<string>, p: Pkg)
    ensures p in ChangedPackages(m, dirs, changed) <==> exists f :: f in changed && FileOf(m, dirs, f, p)
  {
    if changed != [] {
      var n := |changed| - 1;
      ChangedExactly(m, dirs, changed[..n], p);
      PackageExactly(m, dirs, changed[n], p);
      assert changed == changed[..n] + [changed[n]];
      assert forall f :: f in changed <==> f in changed[..n] || f == changed[n];
    }
  }

  // ---------------------------------------------------------------------------
  // The selection

  predicate DependsOn(l: Listing, p: Pkg, changed: set<Pkg>) {
    p in l && l[p].deps * changed != {}
  }

  /** What the pass looks at for one package. */
  predicate Touched(l: Listing, p: Pkg, changed: set<Pkg>)
    requires p in l
  {
    || p in changed || DependsOn(l, p, changed) || l[p].testImports * changed != {}
    || exists q :: q in l[p].testImports && DependsOn(l, q, changed)
  }

  function Selection(l: Listing, changed: set<Pkg>): set<Pkg> {
    set p | p in l && Touched(l, p, changed)
  }

  /** The pass, over the packages and their test imports in any order. */
  method Select(l: Listing, changed: set<Pkg>) returns (affected: set<Pkg>)
    requires changed <= l.Keys
    ensures affected == Selection(l, changed)
  {
    affected := changed;
    var rest := l.Keys;
    while rest != {}
      invariant rest <= l.Keys
      invariant forall p :: p in affected <==> p in changed || (p in l && p !in rest && Touched(l, p, changed))
      decreases |rest|
    {
      var p :| p in rest;
      rest := rest - {p};
      if p in affected {
        continue;
      }
      if l[p].deps * changed != {} || l[p].testImports * changed != {} {
        affected := affected + {p};
        continue;
      }
      var hop := l[p].testImports;
      while hop != {}
        invariant hop <= l[p].testImports
        invariant forall q :: q in l[p].testImports && q !in hop ==> !DependsOn(l, q, changed)
        decreases |hop|
      {
        var q :| q in hop;
        hop := hop - {q};
        if q in l && l[q].deps * changed != {} {
          affected := affected + {p};
          break;
        }
      }
    }
  }

  method CollectPackages(m: Module, changed: seq<string>, dirs: map<string, Pkg>) returns (packages: set<Pkg>)
    ensures packages == ChangedPackages(m, dirs, changed) && packages <= dirs.Values
  {
    packages := {};
    for i := 0 to |changed|
      invariant packages <= dirs.Values && packages == ChangedPackages(m, dirs, changed[..i])
    {
      assert changed[..i + 1][..i] == changed[..i];
      packages := packages + AsSet(PackageOf(m, dirs, changed[i]));
    }
    assert changed[..|changed|] == changed;
  }

  /** The whole script, from the changed files to the printed set. */
  method Run(m: Module, changed: seq<string>, l: Listing, dirs: map<string, Pkg>)
    returns (full: bool, affected: set<Pkg>)
    requires dirs.Values <= l.Keys
    ensures full <==> exists i :: 0 <= i < |changed| && Trigger(changed[i])
    ensures !full ==> affected == Selection(l, ChangedPackages(m, dirs, changed))
  {
    affected := {};
    full := NeedsFullFallback(changed);
    if !full {
      var packages := CollectPackages(m, changed, dirs);
      affected := Select(l, packages);
    }
  }

  // ---------------------------------------------------------------------------
  // The import graph

  /** Direct imports of every package, listed or not, and of its test files. */
  datatype Graph = Graph(imports: map<Pkg, set<Pkg>>, tests: map<Pkg, set<Pkg>>)

  function ImportsOf(g: Graph, p: Pkg): set<Pkg> {
    if p in g.imports then g.imports[p] else {}
  }

  function TestsOf(g: Graph, p: Pkg): set<Pkg> {
    if p in g.tests then g.tests[p] else {}
  }

  /** A chain of imports from the first package to the last. */
  predicate Chain(g: Graph, ps: seq<Pkg>) {
    |ps| > 0 && forall i :: 0 <= i < |ps| - 1 ==> ps[i + 1] in ImportsOf(g, ps[i])
  }

  /** `a` imports `b` through one or more imports. */
  ghost predicate Imports(g: Graph, a: Pkg, b: Pkg) {
    exists ps :: Chain(g, ps) && |ps| > 1 && ps[0] == a && ps[|ps| - 1] == b
  }

  /** Building `a` compiles `b`. */
  ghost predicate Builds(g: Graph, a: Pkg, b: Pkg) {
    exists ps :: Chain(g, ps) && ps[0] == a && ps[|ps| - 1] == b
  }

  ghost predicate BuildReaches(g: Graph, p: Pkg, changed: set<Pkg>) {
    exists c :: c in changed && Builds(g, p, c)
  }

  /** Building and testing `p` compiles some changed package. */
  ghost predicate TestBuildReaches(g: Graph, p: Pkg, changed: set<Pkg>) {
    BuildReaches(g, p, changed) || exists t :: t in TestsOf(g, p) && BuildReaches(g, t, changed)
  }

  /** The listing tells the truth about the graph, and a package it does not list reaches no
      changed one. */
  ghost predicate Describes(l: Listing, g: Graph, changed: set<Pkg>) {
    && (forall p, q :: p in l ==> (q in l[p].deps <==> Imports(g, p, q)))
    && (forall p :: p in l ==> l[p].testImports == TestsOf(g, p))
    && (forall p, c :: p !in l && c in changed ==> !Imports(g, p, c))
  }

  lemma BuildsExactly(g: Graph, a: Pkg, b: Pkg)
    ensures Builds(g, a, b) <==> a == b || Imports(g, a, b)
  {
    if Builds(g, a, b) {
      var ps :| Chain(g, ps) && ps[0] == a && ps[|ps| - 1] == b;
      assert |ps| > 1 ==> Imports(g, a, b);
    } else {
      assert Chain(g, [a]) && [a][|[a]| - 1] == a;
    }
  }

  lemma DependsExactly(l: Listing, g: Graph, p: Pkg, changed: set<Pkg>)
    requires Describes(l, g, changed) && changed <= l.Keys
    ensures DependsOn(l, p, changed) <==> exists c :: c in changed && Imports(g, p, c)
  {
    if DependsOn(l, p, changed) {
      var c :| c in l[p].deps * changed;
      assert Imports(g, p, c);
    } else if p in l && exists c :: c in changed && Imports(g, p, c) {
      var c :| c in changed && Imports(g, p, c);
      assert c in l[p].deps * changed;
    }
  }

  /** Some changed package is `p` or is imported by it. */
  lemma ReachesExactly(l: Listing, g: Graph, p: Pkg, changed: set<Pkg>)
    requires Describes(l, g, changed) && changed <= l.Keys
    ensures BuildReaches(g, p, changed) <==> p in changed || DependsOn(l, p, changed)
  {
    DependsExactly(l, g, p, changed);
    forall c ensures Builds(g, p, c) <==> p == c || Imports(g, p, c) {
      BuildsExactly(g, p, c);
    }
  }

  lemma TouchedExactly(l: Listing, g: Graph, p: Pkg, changed: set<Pkg>)
    requires p in l && l[p].testImports == TestsOf(g, p)
    requires forall t :: BuildReaches(g, t, changed) <==> t in changed || DependsOn(l, t, changed)
    ensures Touched(l, p, changed) <==> TestBuildReaches(g, p, changed)
  {
    if l[p].testImports * changed != {} {
      var t :| t in l[p].testImports * changed;
      assert BuildReaches(g, t, changed);
    }
    forall t | t in TestsOf(g, p) && BuildReaches(g, t, changed) ensures Touched(l, p, changed) {
      assert t in changed ==> t in l[p].testImports * changed;
    }
  }

  /** The printed packages are exactly the listed ones whose test build reaches a changed
      package. */
  lemma SelectionExactly(l: Listing, g: Graph, p: Pkg, changed: set<Pkg>)
    requires Describes(l, g, changed) && changed <= l.Keys
    ensures p in Selection(l, changed) <==> p in l && TestBuildReaches(g, p, changed)
  {
    forall t ensures BuildReaches(g, t, changed) <==> t in changed || DependsOn(l, t, changed) {
      ReachesExactly(l, g, t, changed);
    }
    if p in l {
      TouchedExactly(l, g, p, changed);
    }
  }

  /** What two diffs select together is what each selects. */
  lemma SelectionDistributes(l: Listing, a: set<Pkg>, b: set<Pkg>)
    ensures Selection(l, a + b) == Selection(l, a) + Selection(l, b)
  {
    forall p ensures DependsOn(l, p, a + b) <==> DependsOn(l, p, a) || DependsOn(l, p, b) {
      if p in l {
        assert l[p].deps * (a + b) == l[p].deps * a + l[p].deps * b;
      }
    }
    forall p | p in l ensures Touched(l, p, a + b) <==> Touched(l, p, a) || Touched(l, p, b) {
      assert l[p].testImports * (a + b) == l[p].testImports * a + l[p].testImports * b;
    }
  }
}
