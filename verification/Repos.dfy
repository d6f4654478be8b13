/** Profiles, and how a build root's repositories are made to follow one. */
module Repositories {
  import opened Wrappers
  import opened Text
  import opened Paths
  import opened Mounts
  import opened Ledgers
  import opened Slots
  import opened Overlays
  import opened Eopkg

  datatype Repo = Repo(Name: string, URI: string, Local: bool, AutoIndex: bool)

  datatype Profile = Profile(Name: string, AddRepos: seq<string>, RemoveRepos: seq<string>, Repos: map<string, Repo>)

  const PROFILE_SUFFIX := ".profile"

  predicate HasSuffix(s: string, suffix: string): (r: bool)
    ensures r <==> exists name :: s == name + suffix
  {
    var r := |s| >= |suffix| && s[|s| - |suffix|..] == suffix;
    assert r ==> s == s[..|s| - |suffix|] + suffix;
    r
  }

  predicate Wildcard(names: seq<string>): (r: bool)
    ensures r <==> names == ["*"]
  {
    |names| == 1 && names[0] == "*"
  }

  predicate NamesExist(p: Profile) { p.AddRepos == ["*"] || forall r :: r in p.AddRepos ==> r in p.Repos }

  /** What validation establishes of a profile. */
  predicate Accepted(p: Profile) { NamesExist(p) && forall k :: k in p.Repos ==> p.Repos[k].Name == k }

  /** Each repository is named by its key, whatever the file said. */
  function Named(repos: map<string, Repo>): map<string, Repo> { map k | k in repos :: repos[k].(Name := k) }

  /** The same keys, and nothing but the name is different. */
  predicate OnlyRenamed(a: map<string, Repo>, b: map<string, Repo>) {
    a.Keys == b.Keys
    && forall k :: k in a ==> a[k].URI == b[k].URI && a[k].Local == b[k].Local && a[k].AutoIndex == b[k].AutoIndex
  }

  method NameRepos(repos: map<string, Repo>) returns (named: map<string, Repo>)
    ensures named == Named(repos)
  {
    named := repos;
    var keys := repos.Keys;
    while keys != {}
      invariant keys <= repos.Keys && named.Keys == repos.Keys
      invariant forall k :: k in repos ==> named[k] == if k in keys then repos[k] else repos[k].(Name := k)
      decreases |keys|
    {
      var k :| k in keys;
      named := named[k := named[k].(Name := k)];
      keys := keys - {k};
    }
  }

  /** `decoded` is what reading and decoding the file gave. */
  method NewProfileFromPath(basename: string, decoded: Option<Profile>) returns (r: Option<Profile>)
    ensures r.Some? <==> HasSuffix(basename, PROFILE_SUFFIX) && decoded.Some? && NamesExist(decoded.value)
    ensures r.Some? ==> Accepted(r.value) && r.value.Name + PROFILE_SUFFIX == basename
    ensures r.Some? ==> r.value == decoded.value.(Name := r.value.Name, Repos := Named(decoded.value.Repos))
    ensures r.Some? ==> OnlyRenamed(r.value.Repos, decoded.value.Repos)
  {
    if !HasSuffix(basename, PROFILE_SUFFIX) || decoded.None? { return None; }
    var p := decoded.value;
    var repos := NameRepos(p.Repos);
    p := p.(Name := basename[..|basename| - |PROFILE_SUFFIX|], Repos := repos);
    if Wildcard(p.AddRepos) { return Some(p); }
    for i := 0 to |p.AddRepos|
      invariant forall j :: 0 <= j < i ==> p.AddRepos[j] in p.Repos
    {
      if p.AddRepos[i] !in p.Repos { return None; }
    }
    return Some(p);
  }

  // ---------------------------------------------------------------- what a reconfiguration should come to

  /** Where a local repository appears in the root at `base`. */
  function RepoTarget(base: Path, name: string): Path { JoinName(Under(base, HOST_REPOS), name) }

  function EntryOf(r: Repo): EopkgRepo {
    EopkgRepo(r.Name, if r.Local then IndexFile(Sub(RepoTarget(Root, r.Name), "eopkg-index.xml.xz")) else Remote(r.URI))
  }

  /**
   The index that the package manager is told of is, seen from outside the root, the one in the directory that is
   mounted; a remote repository is known by its address.
   */
  lemma EntryIsMounted(base: Path, r: Repo)
    ensures EntryOf(r).ID == r.Name && (!r.Local ==> EntryOf(r).URI == Remote(r.URI))
    ensures r.Local && Plain(r.Name) ==>
              EntryOf(r).URI.IndexFile? && exists parts ::
                EntryOf(r).URI.file == Under(Root, parts) &&
                Under(base, parts) == Sub(RepoTarget(base, r.Name), "eopkg-index.xml.xz")
  {
    if r.Local && Plain(r.Name) {
      var parts := ["hostRepos", r.Name, "eopkg-index.xml.xz"];
      JoinPlain(Under(Root, HOST_REPOS), r.Name);
      JoinPlain(Under(base, HOST_REPOS), r.Name);
      assert parts[..2][..1] == HOST_REPOS && parts[..2] == HOST_REPOS + [r.Name];
      assert Under(Root, parts) == Sub(Under(Root, parts[..2]), parts[2]);
      assert Under(base, parts) == Sub(Under(base, parts[..2]), parts[2]);
    }
  }

  /** A nil repository contributes nothing. */
  function Entries(rs: seq<Option<Repo>>): seq<EopkgRepo> {
    if rs == [] then []
    else Entries(rs[..|rs| - 1]) + match rs[|rs| - 1] case Some(r) => [EntryOf(r)] case None => []
  }

  function Targets(base: Path, rs: seq<Option<Repo>>): seq<Path> {
    if rs == [] then []
    else
      Targets(base, rs[..|rs| - 1])
      + match rs[|rs| - 1] case Some(r) => (if r.Local then [RepoTarget(base, r.Name)] else []) case None => []
  }

  /** The local repositories that are to be indexed first. */
  function AutoIndexed(rs: seq<Option<Repo>>): seq<string> {
    if rs == [] then []
    else
      AutoIndexed(rs[..|rs| - 1])
      + match rs[|rs| - 1] case Some(r) => (if r.Local && r.AutoIndex then [r.Name] else []) case None => []
  }

  lemma OneMore(base: Path, rs: seq<Option<Repo>>, i: nat)
    requires i < |rs| && rs[i].Some?
    ensures Entries(rs[..i + 1]) == Entries(rs[..i]) + [EntryOf(rs[i].value)]
    ensures Targets(base, rs[..i + 1]) ==
            Targets(base, rs[..i]) + if rs[i].value.Local then [RepoTarget(base, rs[i].value.Name)] else []
    ensures AutoIndexed(rs[..i + 1]) ==
            AutoIndexed(rs[..i]) + if rs[i].value.Local && rs[i].value.AutoIndex then [rs[i].value.Name] else []
  {
    assert rs[..i + 1][..i] == rs[..i];
  }

  lemma {:induction false} PrefixOf(base: Path, rs: seq<Option<Repo>>, i: nat)
    requires i <= |rs|
    ensures Entries(rs[..i]) <= Entries(rs) && Targets(base, rs[..i]) <= Targets(base, rs)
    ensures Entries(rs[..0]) == [] && Targets(base, rs[..0]) == [] && AutoIndexed(rs[..0]) == []
    decreases |rs| - i
  {
    if i == |rs| {
      assert rs[..i] == rs;
    } else {
      assert rs[..i + 1][..i] == rs[..i];
      PrefixOf(base, rs, i + 1);
    }
  }

  lemma Within(before: seq<Path>, base: Path, rs: seq<Option<Repo>>, i: nat)
    requires i <= |rs|
    ensures before <= before + Targets(base, rs[..i]) <= before + Targets(base, rs)
    ensures i == |rs| ==> rs[..i] == rs
  {
    PrefixOf(base, rs, i);
  }

  function WithoutAll(repos: seq<EopkgRepo>, ids: seq<string>): (r: seq<EopkgRepo>)
    ensures forall x :: x in r <==> x in repos && x.ID !in ids
  {
    if ids == [] then repos
    else
      assert forall s :: s in ids <==> s in ids[..|ids| - 1] || s == ids[|ids| - 1];
      Without(WithoutAll(repos, ids[..|ids| - 1]), ids[|ids| - 1])
  }

  /** What removal leaves. */
  function Kept(repos: seq<EopkgRepo>, p: Profile): seq<EopkgRepo> {
    if p.RemoveRepos == ["*"] then [] else WithoutAll(repos, p.RemoveRepos)
  }

  /** The names in an order they may be added: as listed, or every one of them once when none or a wildcard is. */
  ghost predicate AddOrder(p: Profile, names: seq<string>) {
    if p.AddRepos == [] || p.AddRepos == ["*"] then
      && (forall n :: n in names <==> n in p.Repos)
      && (forall i, j :: 0 <= i < j < |names| ==> names[i] != names[j])
    else names == p.AddRepos
  }

  /** The repositories a profile asks for: those it keeps, and then those it adds, by name. */
  ghost predicate Follows(p: Profile, names: seq<string>, before: seq<EopkgRepo>, after: seq<EopkgRepo>) {
    var kept := Kept(before, p);
    && AddOrder(p, names) && (forall n :: n in names ==> n in p.Repos)
    && kept <= after && |after| == |kept| + |names|
    && forall i :: 0 <= i < |names| ==> after[|kept| + i] == EntryOf(p.Repos[names[i]])
  }

  lemma {:induction false} EntriesByName(p: Profile, names: seq<string>)
    requires None !in Picked(p, names)
    ensures |Entries(Picked(p, names))| == |names|
    ensures forall i :: 0 <= i < |names| ==>
              names[i] in p.Repos && Entries(Picked(p, names))[i] == EntryOf(p.Repos[names[i]])
    decreases |names|
  {
    if names != [] {
      var rest := names[..|names| - 1];
      assert Picked(p, names)[..|rest|] == Picked(p, rest);
      assert Picked(p, names)[|rest|] != None;
      EntriesByName(p, rest);
    }
  }

  /** Every repository exists, and none is known already when its turn comes. */
  ghost predicate Addable(known: seq<EopkgRepo>, rs: seq<Option<Repo>>) { AddableFirst(known, rs, |rs|) }

  ghost predicate AddableFirst(known: seq<EopkgRepo>, rs: seq<Option<Repo>>, n: nat)
    requires n <= |rs|
  {
    forall i :: 0 <= i < n ==> rs[i].Some? && Unknown(known, rs, i)
  }

  ghost predicate Unknown(known: seq<EopkgRepo>, rs: seq<Option<Repo>>, i: nat)
    requires i < |rs| && rs[i].Some?
  {
    && !Knows(known, rs[i].value.Name)
    && forall j :: 0 <= j < i ==> rs[j] == None || rs[j].value.Name != rs[i].value.Name
  }

  lemma {:induction false} KnownSoFar(known: seq<EopkgRepo>, rs: seq<Option<Repo>>, i: nat, id: string)
    requires i <= |rs|
    ensures Knows(known + Entries(rs[..i]), id) <==>
            Knows(known, id) || exists j :: 0 <= j < i && rs[j].Some? && rs[j].value.Name == id
    decreases i
  {
    if i == 0 {
      assert known + Entries(rs[..0]) == known;
    } else {
      assert (exists j :: 0 <= j < i && rs[j].Some? && rs[j].value.Name == id) <==>
             (exists j :: 0 <= j < i - 1 && rs[j].Some? && rs[j].value.Name == id)
             || (rs[i - 1].Some? && rs[i - 1].value.Name == id);
      KnownSoFar(known, rs, i - 1, id);
      assert rs[..i][..i - 1] == rs[..i - 1];
      var before := known + Entries(rs[..i - 1]);
      if rs[i - 1].Some? {
        KnowsOneMore(before, EntryOf(rs[i - 1].value), id);
        assert known + Entries(rs[..i]) == before + [EntryOf(rs[i - 1].value)];
      } else {
        assert known + Entries(rs[..i]) == before;
      }
    }
  }

  lemma WhenUnknown(known: seq<EopkgRepo>, rs: seq<Option<Repo>>, i: nat)
    requires i < |rs|
    ensures rs[i].Some? ==> (Unknown(known, rs, i) <==> !Knows(known + Entries(rs[..i]), rs[i].value.Name))
    ensures rs[i].None? || !Unknown(known, rs, i) ==> !Addable(known, rs)
  {
    if rs[i].Some? { KnownSoFar(known, rs, i, rs[i].value.Name); }
  }

  lemma AddableOneMore(known: seq<EopkgRepo>, rs: seq<Option<Repo>>, i: nat)
    requires i < |rs|
    ensures AddableFirst(known, rs, i + 1) <==> AddableFirst(known, rs, i) && rs[i].Some? && Unknown(known, rs, i)
  {
    hide Unknown;
  }

  lemma KnowsOneMore(repos: seq<EopkgRepo>, e: EopkgRepo, id: string)
    ensures Knows(repos + [e], id) <==> Knows(repos, id) || e.ID == id
  {
    assert (repos + [e])[|repos|] == e;
    assert forall i :: 0 <= i < |repos| ==> (repos + [e])[i] == repos[i];
  }

  function Picked(p: Profile, names: seq<string>): seq<Option<Repo>> {
    seq(|names|, i requires 0 <= i < |names| => if names[i] in p.Repos then Some(p.Repos[names[i]]) else None)
  }

  // ---------------------------------------------------------------- the code

  ghost predicate Ready(o: Overlay, e: EopkgManager)
    reads o, e`dbusActive, o.world`live, o.world`trace, e.world`trace, e.notif`held
  {
    e.world == o.world && e.root == o.Union() && o.Valid() && e.Valid() && !e.notif.held
  }

  method Reindex(world: World, notif: PidNotifier, name: string) returns (ok: bool)
    requires !notif.held
    modifies notif, world`indexed
    ensures !notif.held && (world.faultless ==> ok)
    ensures world.indexed == if ok then old(world.indexed) + [name] else old(world.indexed)
  {
    ok := ChrootExec(world, notif);
    if ok { world.indexed := world.indexed + [name]; }
  }

  method AddLocalRepo(o: Overlay, e: EopkgManager, repo: Repo) returns (ok: bool)
    requires Ready(o, e) && repo.Local
    modifies o`ExtraMounts, e`repos, e.notif, o.world`live, o.world`ups, o.world`indexed
    ensures Ready(o, e)
    ensures e.repos == if ok then old(e.repos) + [EntryOf(repo)] else old(e.repos)
    ensures o.ExtraMounts == old(o.ExtraMounts) + [RepoTarget(o.Union(), repo.Name)]
         || (!ok && o.ExtraMounts == old(o.ExtraMounts))
    ensures o.JustExtras() && (o.world.faultless ==> (ok <==> !Knows(old(e.repos), repo.Name)))
    ensures ok ==> o.world.indexed == old(o.world.indexed) + if repo.AutoIndex then [repo.Name] else []
  {
    ok := o.world.Try();
    if !ok { return; }
    ok := o.BindExtra(RepoTarget(o.Union(), repo.Name));
    if !ok { return; }
    if repo.AutoIndex {
      ok := Reindex(o.world, e.notif, repo.Name);
      e.notif.SetActivePID(0);
      if !ok { return; }
    }
    ok := e.AddRepo(repo.Name, IndexFile(Sub(RepoTarget(Root, repo.Name), "eopkg-index.xml.xz")));
  }

  method RemoveRepos(e: EopkgManager, ids: seq<string>) returns (ok: bool)
    requires !e.notif.held
    modifies e`repos, e.notif
    ensures !e.notif.held && (e.world.faultless ==> ok)
    ensures ok ==> e.repos == WithoutAll(old(e.repos), ids)
  {
    for i := 0 to |ids|
      invariant !e.notif.held && e.repos == WithoutAll(old(e.repos), ids[..i])
    {
      ok := e.RemoveRepo(ids[i]);
      if !ok { return; }
      assert ids[..i + 1][..i] == ids[..i];
    }
    assert ids[..|ids|] == ids;
    return true;
  }

  /** A repository is made known; a local one is mounted first, and stays mounted when a later step fails. */
  method AddOne(o: Overlay, e: EopkgManager, repo: Repo) returns (ok: bool)
    requires Ready(o, e)
    modifies o`ExtraMounts, e`repos, e.notif, o.world`live, o.world`ups, o.world`indexed
    ensures Ready(o, e)
    ensures e.repos == if ok then old(e.repos) + [EntryOf(repo)] else old(e.repos)
    ensures o.ExtraMounts == old(o.ExtraMounts) + (if repo.Local then [RepoTarget(o.Union(), repo.Name)] else [])
         || (!ok && o.ExtraMounts == old(o.ExtraMounts))
    ensures o.JustExtras() && (o.world.faultless ==> (ok <==> !Knows(old(e.repos), repo.Name)))
    ensures ok ==>
              o.world.indexed == old(o.world.indexed) + if repo.Local && repo.AutoIndex then [repo.Name] else []
  {
    hide Balanced, VfsOrder, RepoTarget, Overlay.ValidFor;
    if repo.Local {
      ok := AddLocalRepo(o, e, repo);
    } else {
      ok := e.AddRepo(repo.Name, Remote(repo.URI));
    }
  }

  /** A nil repository is dereferenced when its turn comes. */
  method AddRepos(o: Overlay, e: EopkgManager, rs: seq<Option<Repo>>) returns (r: Outcome)
    requires Ready(o, e)
    modifies o`ExtraMounts, e`repos, e.notif, o.world`live, o.world`ups, o.world`indexed
    ensures Ready(o, e)
    ensures (r.Panicked? ==> None in rs) && (r.Done? ==> None !in rs)
    ensures o.world.faultless ==> (r.Done? <==> Addable(old(e.repos), rs))
    ensures o.JustExtras() && (r.Done? ==> o.world.indexed == old(o.world.indexed) + AutoIndexed(rs))
    ensures r.Done? ==> e.repos == old(e.repos) + Entries(rs)
    ensures r.Done? ==> o.ExtraMounts == old(o.ExtraMounts) + Targets(o.Union(), rs)
    ensures old(o.ExtraMounts) <= o.ExtraMounts <= old(o.ExtraMounts) + Targets(o.Union(), rs)
  {
    hide Ready, Targets, Entries, AutoIndexed, RepoTarget, Knows, Unknown;
    PrefixOf(o.Union(), rs, 0);
    for i := 0 to |rs|
      invariant Ready(o, e)
      invariant e.repos == old(e.repos) + Entries(rs[..i])
      invariant o.ExtraMounts == old(o.ExtraMounts) + Targets(o.Union(), rs[..i])
      invariant o.JustExtras() && o.world.indexed == old(o.world.indexed) + AutoIndexed(rs[..i])
      invariant forall j :: 0 <= j < i ==> rs[j].Some?
      invariant o.world.faultless ==> AddableFirst(old(e.repos), rs, i)
    {
      Within(old(o.ExtraMounts), o.Union(), rs, i);
      WhenUnknown(old(e.repos), rs, i);
      AddableOneMore(old(e.repos), rs, i);
      if rs[i].None? { return Panicked; }
      var repo := rs[i].value;
      OneMore(o.Union(), rs, i);
      Within(old(o.ExtraMounts), o.Union(), rs, i + 1);
      ghost var extras, ups := o.ExtraMounts, o.world.ups;
      var ok := AddOne(o, e, repo);
      JoinStretches(old(o.ExtraMounts), extras, o.ExtraMounts, old(o.world.ups), ups, o.world.ups);
      if !ok { return Failed; }
    }
    Within(old(o.ExtraMounts), o.Union(), rs, |rs|);
    return Done;
  }

  /**
   Success leaves what removal keeps, followed by the additions in their order; an accepted profile never makes
   it dereference a missing repository.
   */
  method ConfigureRepos(o: Overlay, e: EopkgManager, p: Profile) returns (r: Outcome, ghost names: seq<string>)
    requires Ready(o, e)
    modifies o`ExtraMounts, e`repos, e.notif, o.world`live, o.world`ups, o.world`indexed
    ensures Ready(o, e)
    ensures NamesExist(p) ==> !r.Panicked?
    ensures r.Done? ==> Follows(p, names, old(e.repos), e.repos)
    ensures o.world.faultless ==>
              AddOrder(p, names) && (r.Done? <==> Addable(Kept(old(e.repos), p), Picked(p, names)))
    ensures o.JustExtras() && (r.Done? ==> o.world.indexed == old(o.world.indexed) + AutoIndexed(Picked(p, names)))
    ensures r.Done? ==> o.ExtraMounts == old(o.ExtraMounts) + Targets(o.Union(), Picked(p, names))
    ensures old(o.ExtraMounts) <= o.ExtraMounts <= old(o.ExtraMounts) + Targets(o.Union(), Picked(p, names))
  {
    hide Balanced, VfsOrder, Targets, Entries, AutoIndexed, Kept, AddOrder, Addable, Overlay.ValidFor;
    names := [];
    var ok := MakeRoom(o, e, p);
    if !ok { return Failed, []; }
    var adds;
    adds, names := PlanAdditions(p);
    r := AddRepos(o, e, adds);
    if r.Done? { EntriesByName(p, names); }
  }

  /** Whatever is known is listed, and what is not to be kept is removed. */
  method MakeRoom(o: Overlay, e: EopkgManager, p: Profile) returns (ok: bool)
    requires Ready(o, e)
    modifies e`repos, e.notif
    ensures Ready(o, e) && (e.world.faultless ==> ok)
    ensures ok ==> e.repos == Kept(old(e.repos), p)
  {
    hide Balanced, VfsOrder, Kept, Overlay.ValidFor;
    var found := e.GetRepos();
    if found.None? { return false; }
    var removals := PlanRemovals(found.value, p);
    ok := RemoveRepos(e, removals);
    if ok { AllAreGone(old(e.repos), found.value, p, removals); }
  }

  method PlanRemovals(repos: seq<EopkgRepo>, p: Profile) returns (removals: seq<string>)
    ensures p.RemoveRepos == ["*"] ==> forall x :: x in repos ==> x.ID in removals
    ensures p.RemoveRepos != ["*"] ==> removals == p.RemoveRepos
  {
    removals := [];
    if Wildcard(p.RemoveRepos) {
      for i := 0 to |repos|
        invariant forall j :: 0 <= j < i ==> repos[j].ID in removals
      {
        removals := removals + [repos[i].ID];
      }
    } else {
      removals := removals + p.RemoveRepos;
    }
  }

  lemma AllAreGone(repos: seq<EopkgRepo>, found: seq<EopkgRepo>, p: Profile, removals: seq<string>)
    requires multiset(found) == multiset(repos)
    requires p.RemoveRepos == ["*"] ==> forall x :: x in found ==> x.ID in removals
    requires p.RemoveRepos != ["*"] ==> removals == p.RemoveRepos
    ensures WithoutAll(repos, removals) == Kept(repos, p)
  {
    if p.RemoveRepos == ["*"] {
      forall x | x in repos
        ensures x.ID in removals
      {
        assert x in multiset(repos) && x in multiset(found);
      }
      SomeMember(WithoutAll(repos, removals));
    }
  }

  lemma SomeMember(repos: seq<EopkgRepo>)
    ensures repos == [] || exists x :: x in repos
  {
    if repos != [] { assert repos[0] in repos; }
  }

  /** Iterating over a map visits the keys in any order. */
  method PlanAdditions(p: Profile) returns (adds: seq<Option<Repo>>, ghost names: seq<string>)
    ensures AddOrder(p, names) && adds == Picked(p, names)
    ensures NamesExist(p) ==> None !in adds
  {
    adds, names := [], [];
    if Wildcard(p.AddRepos) || p.AddRepos == [] {
      var keys := p.Repos.Keys;
      while keys != {}
        invariant keys <= p.Repos.Keys && adds == Picked(p, names)
        invariant forall n :: n in names <==> n in p.Repos && n !in keys
        invariant forall i, j :: 0 <= i < j < |names| ==> names[i] != names[j]
        decreases |keys|
      {
        var k :| k in keys;
        adds, names := adds + [Some(p.Repos[k])], names + [k];
        keys := keys - {k};
      }
    } else {
      for i := 0 to |p.AddRepos|
        invariant names == p.AddRepos[..i] && adds == Picked(p, names)
      {
        var id := p.AddRepos[i];
        adds, names := adds + [if id in p.Repos then Some(p.Repos[id]) else None], names + [id];
      }
    }
  }
}
