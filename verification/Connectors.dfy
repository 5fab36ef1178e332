/** Connector ownership (ADR-082): a project-scoped connector is pinned to a project ID at its
    first boot, across any history of boots, project renames, deletions, name reuse and config
    edits. */
module Connectors {
  import opened Options
  import opened Ascii

  // ---------------------------------------------------------------------------
  // The stored rows

  /** Projects in ID order: the ID is the index, so it is never used twice. */
  datatype Project = Project(name: string, live: bool)

  datatype Binding = Binding(project: nat, name: string)

  type Bindings = map<string, Binding>

  datatype Scope = Platform | ProjectScope(project: string)

  datatype Connector = Connector(name: string, scope: Scope)

  datatype Owner = PlatformOwned | OwnedBy(project: nat)

  predicate Named(p: Project, name: string) {
    p.live && Lower(p.name) == Lower(name)
  }

  /** Live, and of that name letter by letter, the case of ASCII letters aside. */
  lemma NamedExactly(p: Project, name: string)
    ensures Named(p, name) <==> p.live && SameLetters(p.name, name)
  {
    SameLowerExactly(p.name, name);
  }

  /** GetProjectByName: the first live project of that name, letter case aside. */
  function Find(ps: seq<Project>, name: string, from: nat := 0): (r: Option<nat>)
    requires from <= |ps|
    ensures r.Some? ==> from <= r.value < |ps| && Named(ps[r.value], name)
    ensures r.Some? ==> forall i :: from <= i < r.value ==> !Named(ps[i], name)
    ensures r.None? ==> forall i :: from <= i < |ps| ==> !Named(ps[i], name)
    decreases |ps| - from
  {
    if from == |ps| then None else if Named(ps[from], name) then Some(from) else Find(ps, name, from + 1)
  }

  /** Which storage calls fail, by the position of the connector in the config. */
  datatype Faults = Faults(binding: set<nat>, project: set<nat>, create: set<nat>)

  const NO_FAULTS := Faults({}, {}, {})

  // ---------------------------------------------------------------------------
  // One connector

  /** The project ID the connector is resolved to, if it is; `b` are the bindings by now. */
  function ProjectOf(ps: seq<Project>, b: Bindings, c: Connector, i: nat, f: Faults): Option<nat>
    requires c.scope.ProjectScope?
  {
    if i in f.binding || i in f.project then None
    else if c.name in b then
      var id := b[c.name].project;
      if id < |ps| && ps[id].live && ps[id].name == b[c.name].name then Some(id) else None
    else if i in f.create then None
    else Find(ps, c.scope.project)
  }

  function Resolved(ps: seq<Project>, b: Bindings, c: Connector, i: nat, f: Faults): Option<Owner> {
    if c.scope.Platform? then Some(PlatformOwned)
    else
      var id := ProjectOf(ps, b, c, i, f);
      if id.Some? then Some(OwnedBy(id.value)) else None
  }

  /** The bindings after the connector was resolved. */
  function Bound(ps: seq<Project>, b: Bindings, c: Connector, i: nat, f: Faults): Bindings {
    if c.scope.Platform? || c.name in b then b
    else
      var id := ProjectOf(ps, b, c, i, f);
      if id.Some? && id.value < |ps| then b[c.name := Binding(id.value, ps[id.value].name)] else b
  }

  // ---------------------------------------------------------------------------
  // The whole config

  /** What the loop has collected: the ownership map, the connectors with a problem (by
      position), and the bindings. */
  datatype Collected = Collected(owners: map<string, Owner>, problems: seq<nat>, bindings: Bindings)

  function Collect(ps: seq<Project>, b: Bindings, cs: seq<Connector>, n: nat, f: Faults): Collected
    requires n <= |cs|
  {
    if n == 0 then Collected(map[], [], b)
    else
      var r := Collect(ps, b, cs, n - 1, f);
      var o := Resolved(ps, r.bindings, cs[n - 1], n - 1, f);
      var bound := Bound(ps, r.bindings, cs[n - 1], n - 1, f);
      if o.Some? then Collected(r.owners[cs[n - 1].name := o.value], r.problems, bound)
      else Collected(r.owners, r.problems + [n - 1], bound)
  }

  class Storage {
    var projects: seq<Project>
    var bindings: Bindings

    /** resolveConnectorOwnership: every problem is collected before giving up. */
    method ResolveOwnership(cs: seq<Connector>, f: Faults)
      returns (owners: Option<map<string, Owner>>, problems: seq<nat>)
      modifies this`bindings
      ensures var r := Collect(projects, old(bindings), cs, |cs|, f);
              && bindings == r.bindings && problems == r.problems
              && owners == if r.problems == [] then Some(r.owners) else None
    {
      var m: map<string, Owner> := map[];
      problems := [];
      for i := 0 to |cs|
        invariant Collect(projects, old(bindings), cs, i, f) == Collected(m, problems, bindings)
      {
        var c := cs[i];
        if c.scope.Platform? {
          m := m[c.name := PlatformOwned];
        } else if i in f.binding {
          problems := problems + [i];
        } else if c.name !in bindings {
          var found := Find(projects, c.scope.project);
          if i in f.project || found.None? || i in f.create {
            problems := problems + [i];
          } else {
            bindings := bindings[c.name := Binding(found.value, projects[found.value].name)];
            m := m[c.name := OwnedBy(found.value)];
          }
        } else {
          var bound := bindings[c.name];
          if i in f.project || bound.project >= |projects| || !projects[bound.project].live {
            problems := problems + [i];
          } else if projects[bound.project].name != bound.name {
            problems := problems + [i];
          } else {
            m := m[c.name := OwnedBy(bound.project)];
          }
        }
      }
      owners := if problems != [] then None else Some(m);
    }
  }

  // ---------------------------------------------------------------------------
  // Every connector is accounted for once

  /** The names of the connectors among the first `n` that are not a problem. */
  function ResolvedNames(cs: seq<Connector>, n: nat, problems: seq<nat>): set<string>
    requires n <= |cs|
  {
    set i | 0 <= i < n && i !in problems :: cs[i].name
  }

  predicate Distinct(cs: seq<Connector>) {
    forall i, j :: 0 <= i < j < |cs| ==> cs[i].name != cs[j].name
  }

  predicate Ascending(s: seq<nat>, n: nat) {
    (forall i, j :: 0 <= i < j < |s| ==> s[i] < s[j]) && (forall i :: 0 <= i < |s| ==> s[i] < n)
  }

  /** The problems and the map after one more connector. */
  lemma OneMore(ps: seq<Project>, b: Bindings, cs: seq<Connector>, n: nat, f: Faults)
    requires 0 < n <= |cs|
    ensures var q := Collect(ps, b, cs, n - 1, f);
            var r := Collect(ps, b, cs, n, f);
            || (r.problems == q.problems && r.owners.Keys == q.owners.Keys + {cs[n - 1].name})
            || (r.problems == q.problems + [n - 1] && r.owners == q.owners)
  {
  }

  lemma NamesGrow(cs: seq<Connector>, n: nat, problems: seq<nat>)
    requires 0 < n <= |cs| && Ascending(problems, n - 1)
    ensures ResolvedNames(cs, n, problems) == ResolvedNames(cs, n - 1, problems) + {cs[n - 1].name}
    ensures ResolvedNames(cs, n, problems + [n - 1]) == ResolvedNames(cs, n - 1, problems)
  {
  }

  /** Each connector is reported at most once, in order, and the map covers exactly the names of
      the connectors that are not reported; with distinct names the two add up to the config. */
  predicate Accounted(cs: seq<Connector>, n: nat, r: Collected)
    requires n <= |cs|
  {
    && Ascending(r.problems, n)
    && r.owners.Keys == ResolvedNames(cs, n, r.problems)
    && (Distinct(cs) ==> |r.owners.Keys| + |r.problems| == n)
  }

  lemma AccountForOne(cs: seq<Connector>, n: nat, q: Collected, r: Collected)
    requires 0 < n <= |cs| && Accounted(cs, n - 1, q)
    requires || (r.problems == q.problems && r.owners.Keys == q.owners.Keys + {cs[n - 1].name})
             || (r.problems == q.problems + [n - 1] && r.owners == q.owners)
    ensures Accounted(cs, n, r)
  {
    NamesGrow(cs, n, q.problems);
    assert Distinct(cs) ==> cs[n - 1].name !in q.owners.Keys;
  }

  lemma {:induction false} EachConnectorOnce(ps: seq<Project>, b: Bindings, cs: seq<Connector>, n: nat, f: Faults)
    requires n <= |cs|
    ensures Accounted(cs, n, Collect(ps, b, cs, n, f))
  {
    if n > 0 {
      EachConnectorOnce(ps, b, cs, n - 1, f);
      OneMore(ps, b, cs, n, f);
      AccountForOne(cs, n, Collect(ps, b, cs, n - 1, f), Collect(ps, b, cs, n, f));
    }
  }

  /** The two binding tables agree on the connector. */
  predicate Agree(b: Bindings, q: Bindings, c: Connector) {
    (c.name in q <==> c.name in b) && (c.name in b ==> q[c.name] == b[c.name])
  }

  lemma {:induction false} OtherBindings(ps: seq<Project>, b: Bindings, cs: seq<Connector>, n: nat, f: Faults, i: nat)
    requires n <= i < |cs| && Distinct(cs)
    ensures Agree(b, Collect(ps, b, cs, n, f).bindings, cs[i])
  {
    if n > 0 {
      OtherBindings(ps, b, cs, n - 1, f, i);
    }
  }

  lemma SameBindingResolves(ps: seq<Project>, b: Bindings, q: Bindings, c: Connector, i: nat, f: Faults)
    requires Agree(b, q, c)
    ensures Resolved(ps, q, c, i, f) == Resolved(ps, b, c, i, f)
  {
  }

  lemma LastIsProblem(ps: seq<Project>, b: Bindings, cs: seq<Connector>, i: nat, f: Faults)
    requires i < |cs|
    ensures i in Collect(ps, b, cs, i + 1, f).problems <==>
            Resolved(ps, Collect(ps, b, cs, i, f).bindings, cs[i], i, f).None?
  {
    EachConnectorOnce(ps, b, cs, i, f);
  }

  lemma {:induction false} ProblemAt(ps: seq<Project>, b: Bindings, cs: seq<Connector>, n: nat, f: Faults, i: nat)
    requires i < n <= |cs|
    ensures i in Collect(ps, b, cs, n, f).problems <==>
            Resolved(ps, Collect(ps, b, cs, i, f).bindings, cs[i], i, f).None?
    decreases n
  {
    if i < n - 1 {
      ProblemAt(ps, b, cs, n - 1, f, i);
      OneMore(ps, b, cs, n, f);
    } else {
      LastIsProblem(ps, b, cs, i, f);
    }
  }

  /** A project-scoped connector that cannot be resolved from the stored rows: its binding or its project
      cannot be read, its bound project is gone or renamed, or it has no binding and its project
      name is unknown or the binding cannot be written. */
  predicate Unresolvable(ps: seq<Project>, b: Bindings, c: Connector, i: nat, f: Faults) {
    && c.scope.ProjectScope?
    && (|| i in f.binding || i in f.project
        || (c.name in b &&
            (b[c.name].project >= |ps| || ps[b[c.name].project] != Project(b[c.name].name, true)))
        || (c.name !in b &&
            (i in f.create || forall k :: 0 <= k < |ps| ==> !Named(ps[k], c.scope.project))))
  }

  lemma ResolvedExactly(ps: seq<Project>, b: Bindings, c: Connector, i: nat, f: Faults)
    ensures Resolved(ps, b, c, i, f).None? <==> Unresolvable(ps, b, c, i, f)
  {
  }

  /** With distinct names a connector is a problem exactly when it cannot be resolved from the
      stored rows. The order of the config plays no part. */
  lemma ProblemsExactly(ps: seq<Project>, b: Bindings, cs: seq<Connector>, f: Faults, i: nat)
    requires i < |cs| && Distinct(cs)
    ensures i in Collect(ps, b, cs, |cs|, f).problems <==> Unresolvable(ps, b, cs[i], i, f)
  {
    ProblemAt(ps, b, cs, |cs|, f, i);
    OtherBindings(ps, b, cs, i, f, i);
    SameBindingResolves(ps, b, Collect(ps, b, cs, i, f).bindings, cs[i], i, f);
    ResolvedExactly(ps, b, cs[i], i, f);
  }

  lemma {:induction false} OwnerAt(ps: seq<Project>, b: Bindings, cs: seq<Connector>, n: nat, f: Faults, i: nat)
    requires i < n <= |cs| && Distinct(cs) && !Unresolvable(ps, b, cs[i], i, f)
    ensures var r := Collect(ps, b, cs, n, f);
            cs[i].name in r.owners && Some(r.owners[cs[i].name]) == Resolved(ps, b, cs[i], i, f)
    decreases n
  {
    ResolvedExactly(ps, b, cs[i], i, f);
    if i < n - 1 {
      OwnerAt(ps, b, cs, n - 1, f, i);
    } else {
      OtherBindings(ps, b, cs, i, f, i);
      SameBindingResolves(ps, b, Collect(ps, b, cs, i, f).bindings, cs[i], i, f);
    }
  }

  /** Whom each connector is resolved to, with distinct names: a bound one to its bound project,
      whatever its config entry now says, and a new one to the first live project of the
      configured name. */
  lemma OwnersExactly(ps: seq<Project>, b: Bindings, cs: seq<Connector>, f: Faults, i: nat)
    requires i < |cs| && Distinct(cs) && !Unresolvable(ps, b, cs[i], i, f)
    ensures var c := cs[i];
            var owners := Collect(ps, b, cs, |cs|, f).owners;
            && c.name in owners && (c.scope.Platform? <==> owners[c.name] == PlatformOwned)
            && (c.scope.ProjectScope? && c.name in b ==> owners[c.name] == OwnedBy(b[c.name].project))
            && (c.scope.ProjectScope? && c.name !in b ==>
                  var k := owners[c.name].project;
                  && k < |ps| && Named(ps[k], c.scope.project)
                  && forall j :: 0 <= j < k ==> !Named(ps[j], c.scope.project))
  {
    OwnerAt(ps, b, cs, |cs|, f, i);
  }

  // ---------------------------------------------------------------------------
  // Bindings are written once

  lemma {:induction false} BindingsKept(ps: seq<Project>, b: Bindings, cs: seq<Connector>, n: nat, f: Faults, c: string)
    requires n <= |cs| && c in b
    ensures var r := Collect(ps, b, cs, n, f); c in r.bindings && r.bindings[c] == b[c]
  {
    if n > 0 {
      BindingsKept(ps, b, cs, n - 1, f, c);
    }
  }

  /** A bound connector resolves to its bound project or to nothing. */
  lemma {:induction false} OwnerIsBound(ps: seq<Project>, b: Bindings, cs: seq<Connector>, n: nat, f: Faults, c: string)
    requires n <= |cs| && c in b
    requires forall i :: 0 <= i < |cs| && cs[i].name == c ==> cs[i].scope.ProjectScope?
    ensures var r := Collect(ps, b, cs, n, f);
            c in r.owners ==>
              r.owners[c] == OwnedBy(b[c].project) && b[c].project < |ps|
                  && ps[b[c].project] == Project(b[c].name, true)
  {
    if n > 0 {
      OwnerIsBound(ps, b, cs, n - 1, f, c);
      BindingsKept(ps, b, cs, n - 1, f, c);
    }
  }

  // ---------------------------------------------------------------------------
  // Histories

  datatype World = World(projects: seq<Project>, bindings: Bindings)

  /** Boots with any config and faults, project changes, and the operator clearing a binding. */
  datatype Event =
    | Boot(cs: seq<Connector>, f: Faults)
    | Create(name: string)
    | Rename(id: nat, name: string)
    | Delete(id: nat)
    | Clear(connector: string)

  function Next(w: World, e: Event): World {
    match e
    case Boot(cs, f) => w.(bindings := Collect(w.projects, w.bindings, cs, |cs|, f).bindings)
    case Create(name) => w.(projects := w.projects + [Project(name, true)])
    case Rename(id, name) =>
      if id < |w.projects| && w.projects[id].live then w.(projects := w.projects[id := Project(name, true)]) else w
    case Delete(id) => if id < |w.projects| then w.(projects := w.projects[id := w.projects[id].(live := false)]) else w
    case Clear(c) => w.(bindings := w.bindings - {c})
  }

  function After(w: World, es: seq<Event>): World
    decreases |es|
  {
    if es == [] then w else After(Next(w, es[0]), es[1..])
  }

  lemma {:induction false} HistoryKeepsBinding(w: World, es: seq<Event>, c: string)
    requires c in w.bindings && Clear(c) !in es
    ensures c in After(w, es).bindings && After(w, es).bindings[c] == w.bindings[c]
    decreases |es|
  {
    if es != [] {
      match es[0] {
        case Boot(cs, f) => BindingsKept(w.projects, w.bindings, cs, |cs|, f, c);
        case _ =>
      }
      HistoryKeepsBinding(Next(w, es[0]), es[1..], c);
    }
  }

  /** A connector with a binding row, in every later history that leaves the row alone: a boot
      that succeeds with the connector project-scoped resolves it to the very project first
      bound, which is live and bears the name recorded then. So a rename, a deletion, another
      project taking the name, or an edit of the config's project name never reassigns it. */
  lemma Pinned(w: World, es: seq<Event>, cs: seq<Connector>, f: Faults, c: string, i: nat)
    requires c in w.bindings && Clear(c) !in es
    requires i < |cs| && cs[i].name == c && forall j :: 0 <= j < |cs| && cs[j].name == c ==> cs[j].scope.ProjectScope?
    requires var t := After(w, es); Collect(t.projects, t.bindings, cs, |cs|, f).problems == []
    ensures var t := After(w, es);
            var r := Collect(t.projects, t.bindings, cs, |cs|, f);
            && c in r.owners && r.owners[c] == OwnedBy(w.bindings[c].project)
            && w.bindings[c].project < |t.projects|
            && t.projects[w.bindings[c].project] == Project(w.bindings[c].name, true)
  {
    HistoryKeepsBinding(w, es, c);
    var t := After(w, es);
    EachConnectorOnce(t.projects, t.bindings, cs, |cs|, f);
    var r := Collect(t.projects, t.bindings, cs, |cs|, f);
    assert c in ResolvedNames(cs, |cs|, r.problems);
    OwnerIsBound(t.projects, t.bindings, cs, |cs|, f, c);
  }

  /** The first successful boot binds: whatever project-scoped connector it resolved has a
      binding row to that project afterwards. */
  lemma {:induction false} ResolvedIsBound(ps: seq<Project>, b: Bindings, cs: seq<Connector>, n: nat, f: Faults,
                                           c: string)
    requires n <= |cs|
    ensures var r := Collect(ps, b, cs, n, f);
            c in r.owners && r.owners[c].OwnedBy? ==>
              c in r.bindings && r.bindings[c].project == r.owners[c].project
              && r.owners[c].project < |ps| && ps[r.owners[c].project] == Project(r.bindings[c].name, true)
  {
    if n > 0 {
      ResolvedIsBound(ps, b, cs, n - 1, f, c);
      if c in Collect(ps, b, cs, n - 1, f).bindings {
        OneMoreKeeps(ps, b, cs, n, f, c);
      }
    }
  }

  lemma OneMoreKeeps(ps: seq<Project>, b: Bindings, cs: seq<Connector>, n: nat, f: Faults, c: string)
    requires 0 < n <= |cs| && c in Collect(ps, b, cs, n - 1, f).bindings
    ensures var q := Collect(ps, b, cs, n - 1, f).bindings;
            var r := Collect(ps, b, cs, n, f).bindings;
            c in r && r[c] == q[c]
  {
  }

  // ---------------------------------------------------------------------------
  // A repeat run

  /** What the run left bound is enough to resolve connector `i` to the same owner again. */
  predicate Settled(ps: seq<Project>, b: Bindings, c: Connector, o: Owner) {
    if c.scope.Platform? then o == PlatformOwned
    else c.name in b && o == OwnedBy(b[c.name].project) && b[c.name].project < |ps|
         && ps[b[c.name].project] == Project(b[c.name].name, true)
  }

  lemma {:induction false} SuccessSettles(ps: seq<Project>, b: Bindings, cs: seq<Connector>, n: nat, f: Faults, i: nat)
    requires i < n <= |cs| && Collect(ps, b, cs, n, f).problems == []
    ensures exists o :: Resolved(ps, Collect(ps, b, cs, i, f).bindings, cs[i], i, f) == Some(o)
                        && Settled(ps, Collect(ps, b, cs, n, f).bindings, cs[i], o)
    decreases n
  {
    var r := Collect(ps, b, cs, n, f);
    var q := Collect(ps, b, cs, n - 1, f);
    if i < n - 1 {
      assert q.problems == [];
      SuccessSettles(ps, b, cs, n - 1, f, i);
      var o :| Resolved(ps, Collect(ps, b, cs, i, f).bindings, cs[i], i, f) == Some(o)
          && Settled(ps, q.bindings, cs[i], o);
      if cs[i].name in q.bindings {
        OneMoreKeeps(ps, b, cs, n, f, cs[i].name);
      }
      assert Settled(ps, r.bindings, cs[i], o);
    } else {
      var o := Resolved(ps, q.bindings, cs[i], i, f).value;
      assert Settled(ps, r.bindings, cs[i], o);
    }
  }

  /** A settled connector resolves as before and adds no binding. */
  lemma SettledAgain(ps: seq<Project>, b: Bindings, c: Connector, i: nat, o: Owner)
    requires Settled(ps, b, c, o)
    ensures Resolved(ps, b, c, i, NO_FAULTS) == Some(o) && Bound(ps, b, c, i, NO_FAULTS) == b
  {
  }

  lemma {:induction false} RepeatPrefix(ps: seq<Project>, b: Bindings, cs: seq<Connector>, n: nat, f: Faults)
    requires n <= |cs| && Collect(ps, b, cs, |cs|, f).problems == []
    ensures var r := Collect(ps, b, cs, |cs|, f);
            Collect(ps, r.bindings, cs, n, NO_FAULTS) == Collected(Collect(ps, b, cs, n, f).owners, [], r.bindings)
  {
    if n > 0 {
      var r := Collect(ps, b, cs, |cs|, f);
      RepeatPrefix(ps, b, cs, n - 1, f);
      SuccessSettles(ps, b, cs, |cs|, f, n - 1);
      var o :| Resolved(ps, Collect(ps, b, cs, n - 1, f).bindings, cs[n - 1], n - 1, f) == Some(o)
          && Settled(ps, r.bindings, cs[n - 1], o);
      SettledAgain(ps, r.bindings, cs[n - 1], n - 1, o);
    }
  }

  /** A successful run repeated with nothing changed gives the same ownership map and writes no
      binding. */
  lemma RepeatChangesNothing(ps: seq<Project>, b: Bindings, cs: seq<Connector>, f: Faults)
    requires Collect(ps, b, cs, |cs|, f).problems == []
    ensures var r := Collect(ps, b, cs, |cs|, f);
            Collect(ps, r.bindings, cs, |cs|, NO_FAULTS) == r
  {
    RepeatPrefix(ps, b, cs, |cs|, f);
  }

  /** The project-scoped entry has a project that is known by name. */
  predicate Findable(ps: seq<Project>, c: Connector) {
    c.scope.ProjectScope? && Find(ps, c.scope.project).Some?
  }

  /** Some entry named `name` among `cs[from..to]` is findable. */
  predicate FindableIn(ps: seq<Project>, cs: seq<Connector>, name: string, from: nat, to: nat)
    requires to <= |cs|
  {
    exists j :: from <= j < to && cs[j].name == name && Findable(ps, cs[j])
  }

  /** A connector that the run meets too early: it has no binding and its project is unknown, no
      earlier entry of its name binds it, and a later one does. */
  predicate Late(ps: seq<Project>, b: Bindings, cs: seq<Connector>, i: nat)
    requires i < |cs|
  {
    && cs[i].scope.ProjectScope? && cs[i].name !in b && !Findable(ps, cs[i])
    && !FindableIn(ps, cs, cs[i].name, 0, i) && FindableIn(ps, cs, cs[i].name, i + 1, |cs|)
  }

  /** Which names a faultless run has bound by then, and that what it bound is live. */
  lemma {:induction false} BoundExactly(ps: seq<Project>, b: Bindings, cs: seq<Connector>, n: nat, name: string)
    requires n <= |cs|
    ensures var q := Collect(ps, b, cs, n, NO_FAULTS).bindings;
            && (name in q <==> name in b || FindableIn(ps, cs, name, 0, n))
            && (name in q && name !in b ==>
                  q[name].project < |ps| && ps[q[name].project] == Project(q[name].name, true))
  {
    if n > 0 {
      BoundExactly(ps, b, cs, n - 1, name);
      var q := Collect(ps, b, cs, n - 1, NO_FAULTS).bindings;
      BoundByOne(ps, q, cs[n - 1], n - 1, name);
      assert FindableIn(ps, cs, name, 0, n) <==>
             FindableIn(ps, cs, name, 0, n - 1) || (cs[n - 1].name == name && Findable(ps, cs[n - 1]));
    }
  }

  lemma BoundByOne(ps: seq<Project>, q: Bindings, c: Connector, i: nat, name: string)
    ensures var r := Bound(ps, q, c, i, NO_FAULTS);
            && (name in r <==> name in q || (c.name == name && Findable(ps, c)))
            && (name in q ==> r[name] == q[name])
            && (name in r && name !in q ==> r[name].project < |ps| && ps[r[name].project] == Project(r[name].name, true)
                                            && Find(ps, c.scope.project) == Some(r[name].project))
  {
  }

  lemma {:induction false} BindingsStay(ps: seq<Project>, b: Bindings, cs: seq<Connector>, n: nat, m: nat, f: Faults,
                                        name: string)
    requires n <= m <= |cs| && name in Collect(ps, b, cs, n, f).bindings
    ensures var q := Collect(ps, b, cs, m, f).bindings;
            name in q && q[name] == Collect(ps, b, cs, n, f).bindings[name]
    decreases m
  {
    if n < m {
      BindingsStay(ps, b, cs, n, m - 1, f, name);
      OneMoreKeeps(ps, b, cs, m, f, name);
    }
  }

  /** A connector is met too early exactly when it leaves its own turn unbound and the run bound. */
  lemma LateExactly(ps: seq<Project>, b: Bindings, cs: seq<Connector>, i: nat)
    requires i < |cs| && cs[i].scope.ProjectScope?
    ensures Late(ps, b, cs, i) <==>
              && cs[i].name !in Collect(ps, b, cs, i + 1, NO_FAULTS).bindings
              && cs[i].name in Collect(ps, b, cs, |cs|, NO_FAULTS).bindings
  {
    var name := cs[i].name;
    BoundExactly(ps, b, cs, i + 1, name);
    BoundExactly(ps, b, cs, |cs|, name);
    assert FindableIn(ps, cs, name, 0, i + 1) <==> FindableIn(ps, cs, name, 0, i) || Findable(ps, cs[i]);
    assert FindableIn(ps, cs, name, 0, |cs|) <==>
           FindableIn(ps, cs, name, 0, i + 1) || FindableIn(ps, cs, name, i + 1, |cs|);
  }

  /** One connector against the bindings `q` of its turn and the bindings `r` left in the end. */
  lemma AgainstBoth(ps: seq<Project>, q: Bindings, r: Bindings, c: Connector, i: nat)
    requires var bound := Bound(ps, q, c, i, NO_FAULTS); c.name in bound ==> c.name in r && r[c.name] == bound[c.name]
    ensures var bound := Bound(ps, q, c, i, NO_FAULTS);
            if c.scope.ProjectScope? && c.name !in bound && c.name in r then
              Resolved(ps, q, c, i, NO_FAULTS).None?
            else
              Resolved(ps, r, c, i, NO_FAULTS) == Resolved(ps, q, c, i, NO_FAULTS) && Bound(ps, r, c, i, NO_FAULTS) == r
  {
    BoundByOne(ps, q, c, i, c.name);
  }

  /** The bindings of a connector's turn, of the turn after it, and of the end belong together. */
  lemma TurnAndEnd(ps: seq<Project>, b: Bindings, cs: seq<Connector>, i: nat)
    requires i < |cs|
    ensures var q := Collect(ps, b, cs, i, NO_FAULTS).bindings;
            var r := Collect(ps, b, cs, |cs|, NO_FAULTS).bindings;
            var bound := Bound(ps, q, cs[i], i, NO_FAULTS);
            && Collect(ps, b, cs, i + 1, NO_FAULTS).bindings == bound
            && (cs[i].name in bound ==> cs[i].name in r && r[cs[i].name] == bound[cs[i].name])
  {
    if cs[i].name in Collect(ps, b, cs, i + 1, NO_FAULTS).bindings {
      BindingsStay(ps, b, cs, i + 1, |cs|, NO_FAULTS, cs[i].name);
    }
  }

  /** Against the bindings the whole run leaves, a connector resolves as it did during the run and
      adds no binding, unless it was met too early. */
  lemma ResolvesAgain(ps: seq<Project>, b: Bindings, cs: seq<Connector>, i: nat)
    requires i < |cs| && !Late(ps, b, cs, i)
    ensures var q := Collect(ps, b, cs, i, NO_FAULTS).bindings;
            var r := Collect(ps, b, cs, |cs|, NO_FAULTS).bindings;
            && Resolved(ps, r, cs[i], i, NO_FAULTS) == Resolved(ps, q, cs[i], i, NO_FAULTS)
            && Bound(ps, r, cs[i], i, NO_FAULTS) == r
  {
    TurnAndEnd(ps, b, cs, i);
    if cs[i].scope.ProjectScope? {
      LateExactly(ps, b, cs, i);
    }
    AgainstBoth(ps, Collect(ps, b, cs, i, NO_FAULTS).bindings, Collect(ps, b, cs, |cs|, NO_FAULTS).bindings, cs[i], i);
  }

  /** One that was met too early was a problem and resolves now. */
  lemma LateResolvesNow(ps: seq<Project>, b: Bindings, cs: seq<Connector>, i: nat)
    requires i < |cs| && Late(ps, b, cs, i)
    ensures var r := Collect(ps, b, cs, |cs|, NO_FAULTS).bindings;
            && Resolved(ps, Collect(ps, b, cs, i, NO_FAULTS).bindings, cs[i], i, NO_FAULTS).None?
            && cs[i].name in r && Settled(ps, r, cs[i], OwnedBy(r[cs[i].name].project))
  {
    TurnAndEnd(ps, b, cs, i);
    LateExactly(ps, b, cs, i);
    BoundExactly(ps, b, cs, |cs|, cs[i].name);
    AgainstBoth(ps, Collect(ps, b, cs, i, NO_FAULTS).bindings, Collect(ps, b, cs, |cs|, NO_FAULTS).bindings, cs[i], i);
  }

  lemma {:induction false} RepeatAnyPrefix(ps: seq<Project>, b: Bindings, cs: seq<Connector>, n: nat)
    requires n <= |cs| && forall i :: 0 <= i < |cs| ==> !Late(ps, b, cs, i)
    ensures var r := Collect(ps, b, cs, |cs|, NO_FAULTS);
            var q := Collect(ps, b, cs, n, NO_FAULTS);
            Collect(ps, r.bindings, cs, n, NO_FAULTS) == Collected(q.owners, q.problems, r.bindings)
  {
    if n > 0 {
      RepeatAnyPrefix(ps, b, cs, n - 1);
      ResolvesAgain(ps, b, cs, n - 1);
    }
  }

  /** A connector met too early is a problem of the first run and not of the second. */
  lemma LatePassesOnRetry(ps: seq<Project>, b: Bindings, cs: seq<Connector>, i: nat)
    requires i < |cs| && Late(ps, b, cs, i)
    ensures var r := Collect(ps, b, cs, |cs|, NO_FAULTS);
            i in r.problems && i !in Collect(ps, r.bindings, cs, |cs|, NO_FAULTS).problems
  {
    var r := Collect(ps, b, cs, |cs|, NO_FAULTS);
    LateResolvesNow(ps, b, cs, i);
    ProblemAt(ps, b, cs, |cs|, NO_FAULTS, i);
    BindingsKept(ps, r.bindings, cs, i, NO_FAULTS, cs[i].name);
    ProblemAt(ps, r.bindings, cs, |cs|, NO_FAULTS, i);
  }

  /** A faultless run repeated with nothing changed gives the same owners and problems and writes
      no binding, if and only if no connector is met too early. */
  lemma RepeatExactly(ps: seq<Project>, b: Bindings, cs: seq<Connector>)
    ensures var r := Collect(ps, b, cs, |cs|, NO_FAULTS);
            Collect(ps, r.bindings, cs, |cs|, NO_FAULTS) == r <==> forall i :: 0 <= i < |cs| ==> !Late(ps, b, cs, i)
  {
    if forall i :: 0 <= i < |cs| ==> !Late(ps, b, cs, i) {
      RepeatAnyPrefix(ps, b, cs, |cs|);
    } else {
      var i :| 0 <= i < |cs| && Late(ps, b, cs, i);
      LatePassesOnRetry(ps, b, cs, i);
    }
  }

  /** In particular with distinct names. */
  lemma RepeatReportsTheSame(ps: seq<Project>, b: Bindings, cs: seq<Connector>)
    requires Distinct(cs)
    ensures var r := Collect(ps, b, cs, |cs|, NO_FAULTS);
            Collect(ps, r.bindings, cs, |cs|, NO_FAULTS) == r
  {
    RepeatExactly(ps, b, cs);
  }

  /** The smallest case: two entries of one name, the first naming an unknown project and the
      second a known one, fail the first boot and pass the second, which then owns the
      connector by the project the failed boot bound. */
  lemma DuplicateNamesPassOnRetry(name: string, known: string, unknown: string)
    requires Lower(known) != Lower(unknown)
    ensures var ps := [Project(known, true)];
            var cs := [Connector(name, ProjectScope(unknown)), Connector(name, ProjectScope(known))];
            var r := Collect(ps, map[], cs, 2, NO_FAULTS);
            && r.problems == [0]
            && Collect(ps, r.bindings, cs, 2, NO_FAULTS) == Collected(map[name := OwnedBy(0)], [], r.bindings)
  {
    var ps := [Project(known, true)];
    var cs := [Connector(name, ProjectScope(unknown)), Connector(name, ProjectScope(known))];
    assert Find(ps, unknown) == None && Find(ps, known) == Some(0);
    var b: Bindings := map[];
    assert Collect(ps, b, cs, 0, NO_FAULTS) == Collected(map[], [], b);
    assert Collect(ps, b, cs, 1, NO_FAULTS) == Collected(map[], [0], b);
    var r := Collect(ps, b, cs, 2, NO_FAULTS);
    assert r == Collected(map[name := OwnedBy(0)], [0], map[name := Binding(0, known)]);
    assert Collect(ps, r.bindings, cs, 0, NO_FAULTS) == Collected(map[], [], r.bindings);
    assert Collect(ps, r.bindings, cs, 1, NO_FAULTS) == Collected(map[name := OwnedBy(0)], [], r.bindings);
  }

  // ---------------------------------------------------------------------------
  // The last gate

  /** connectOwnershipKeySetMismatch: each name of exactly one side, once. */
  method KeySetMismatch(builtNames: seq<string>, ownership: map<string, Owner>) returns (mismatch: seq<string>)
    ensures forall n :: n in mismatch <==> (n in builtNames) != (n in ownership)
    ensures forall i, j :: 0 <= i < j < |mismatch| ==> mismatch[i] != mismatch[j]
    ensures mismatch == [] <==> (forall n :: n in builtNames <==> n in ownership)
  {
    var built: set<string> := {};
    for i := 0 to |builtNames|
      invariant forall n :: n in built <==> n in builtNames[..i]
    {
      assert builtNames[..i + 1] == builtNames[..i] + [builtNames[i]];
      built := built + {builtNames[i]};
    }
    assert builtNames[..|builtNames|] == builtNames;
    mismatch := [];
    var rest := built;
    while rest != {}
      invariant rest <= built
      invariant forall n :: n in mismatch <==> n in built && n !in rest && n !in ownership
      invariant forall i, j :: 0 <= i < j < |mismatch| ==> mismatch[i] != mismatch[j]
      decreases |rest|
    {
      var n :| n in rest;
      rest := rest - {n};
      if n !in ownership {
        mismatch := mismatch + [n];
      }
    }
    rest := ownership.Keys;
    while rest != {}
      invariant rest <= ownership.Keys
      invariant forall n :: n in mismatch <==>
                  (n in built && n !in ownership) || (n in ownership && n !in rest && n !in built)
      invariant forall i, j :: 0 <= i < j < |mismatch| ==> mismatch[i] != mismatch[j]
      decreases |rest|
    {
      var n :| n in rest;
      rest := rest - {n};
      if n !in built {
        mismatch := mismatch + [n];
      }
    }
    if mismatch != [] {
      assert mismatch[0] in mismatch;
    }
  }

  function Names(cs: seq<Connector>): set<string> {
    set i | 0 <= i < |cs| :: cs[i].name
  }

  /** The end of wireConnect: ownership is installed exactly when there are connectors, every one
      resolved and the manager was built from exactly the configured names; what is installed then covers just
      those. Anything else stops the boot. */
  method Wire(st: Storage, builtNames: seq<string>, cs: seq<Connector>, f: Faults)
    returns (installed: Option<map<string, Owner>>)
    modifies st`bindings
    ensures st.bindings == Collect(st.projects, old(st.bindings), cs, |cs|, f).bindings
    ensures var r := Collect(st.projects, old(st.bindings), cs, |cs|, f);
            && (installed.Some? <==> cs != [] && r.problems == [] && forall n :: n in builtNames <==> n in Names(cs))
            && (installed.Some? ==> installed.value == r.owners && installed.value.Keys == Names(cs)
                                    && forall n :: n in installed.value <==> n in builtNames)
  {
    if cs == [] {
      return None;
    }
    ghost var before := st.bindings;
    EachConnectorOnce(st.projects, before, cs, |cs|, f);
    var owners, problems := st.ResolveOwnership(cs, f);
    if owners.None? {
      return None;
    }
    assert owners.value.Keys == Names(cs);
    var mismatch := KeySetMismatch(builtNames, owners.value);
    installed := if mismatch == [] then owners else None;
  }
}
