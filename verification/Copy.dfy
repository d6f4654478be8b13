/** Copying a file or a whole directory tree into a build root. */
module Copies {
  import opened Wrappers
  import opened Paths

  type Content = seq<bv8>

  /** What a source path holds; a link to nowhere is missing like a path that does not exist. */
  datatype Node = Missing | File(content: Content) | Dir(entries: seq<Entry>)

  datatype Entry = Entry(name: string, node: Node)

  /** A directory names each entry once. */
  predicate Proper(n: Node) {
    n.Dir? ==>
      && (forall i, j :: 0 <= i < j < |n.entries| ==> n.entries[i].name != n.entries[j].name)
      && forall e :: e in n.entries ==> Proper(e.node)
  }

  /** The file at a path relative to a node. */
  function At(n: Node, rel: seq<string>): Option<Content>
    decreases n, 1, 0
  {
    match n
    case Missing => None
    case File(c) => if rel == [] then Some(c) else None
    case Dir(entries) => AtFirst(n, |entries|, rel)
  }

  /** The same, looking through the first `k` entries of a directory only. */
  function AtFirst(n: Node, k: nat, rel: seq<string>): Option<Content>
    requires n.Dir? && k <= |n.entries|
    decreases n, 0, k
  {
    if rel == [] || k == 0 then None
    else if n.entries[k - 1].name == rel[0] then At(n.entries[k - 1].node, rel[1..])
    else AtFirst(n, k - 1, rel)
  }

  /** The files after a node has been copied to `at`. */
  function Copied(files: map<Path, Content>, at: Path, n: Node): map<Path, Content>
    decreases n, 1, 0
  {
    match n
    case Missing => files
    case File(c) => files[at := c]
    case Dir(entries) => CopiedFirst(files, at, n, |entries|)
  }

  function CopiedFirst(files: map<Path, Content>, at: Path, n: Node, k: nat): map<Path, Content>
    requires n.Dir? && k <= |n.entries|
    decreases n, 0, k
  {
    if k == 0 then files
    else Copied(CopiedFirst(files, at, n, k - 1), Sub(at, n.entries[k - 1].name), n.entries[k - 1].node)
  }

  // ---------------------------------------------------------------- what copying comes to

  ghost predicate Lands(at: Path, n: Node, p: Path) { exists rel :: At(n, rel).Some? && p == Under(at, rel) }

  /** Every source file is at its place, and every other file is as it was. */
  ghost predicate Overrides(after: map<Path, Content>, before: map<Path, Content>, at: Path, n: Node) {
    && (forall rel :: At(n, rel).Some? ==> Under(at, rel) in after && after[Under(at, rel)] == At(n, rel).value)
    && forall p :: Lands(at, n, p) || SameAt(after, before, p)
  }

  predicate SameAt(a: map<Path, Content>, b: map<Path, Content>, p: Path) {
    (p in a <==> p in b) && (p in a && p in b ==> a[p] == b[p])
  }

  ghost predicate LandsFirst(at: Path, n: Node, k: nat, p: Path)
    requires n.Dir? && k <= |n.entries|
  {
    exists rel :: AtFirst(n, k, rel).Some? && p == Under(at, rel)
  }

  ghost predicate OverridesFirst(after: map<Path, Content>, before: map<Path, Content>, at: Path, n: Node, k: nat)
    requires n.Dir? && k <= |n.entries|
  {
    && (forall rel :: AtFirst(n, k, rel).Some? ==>
          Under(at, rel) in after && after[Under(at, rel)] == AtFirst(n, k, rel).value)
    && forall p :: LandsFirst(at, n, k, p) || SameAt(after, before, p)
  }

  lemma {:induction false} CopiedOverrides(files: map<Path, Content>, at: Path, n: Node)
    requires Proper(n)
    ensures Overrides(Copied(files, at, n), files, at, n)
    decreases n, 1, 0
  {
    match n
    case Missing =>
    case File(c) =>
      assert At(n, []) == Some(c) && Under(at, []) == at;
    case Dir(entries) =>
      CopiedFirstOverrides(files, at, n, |entries|);
      assert forall rel :: At(n, rel) == AtFirst(n, |entries|, rel);
      assert forall p :: LandsFirst(at, n, |entries|, p) ==> Lands(at, n, p);
  }

  lemma {:induction false} CopiedFirstOverrides(files: map<Path, Content>, at: Path, n: Node, k: nat)
    requires n.Dir? && k <= |n.entries| && Proper(n)
    ensures OverridesFirst(CopiedFirst(files, at, n, k), files, at, n, k)
    decreases n, 0, k
  {
    if k > 0 {
      CopiedFirstOverrides(files, at, n, k - 1);
      var e := n.entries[k - 1];
      assert e in n.entries;
      var before := CopiedFirst(files, at, n, k - 1);
      CopiedOverrides(before, Sub(at, e.name), e.node);
      OneMoreEntry(CopiedFirst(files, at, n, k), before, files, at, n, k);
    }
  }

  lemma UnderFirst(at: Path, name: string, rest: seq<string>)
    ensures Under(at, [name] + rest) == Under(Sub(at, name), rest)
    decreases |rest|
  {
    var all := [name] + rest;
    if rest == [] {
      assert all[..0] == [];
    } else {
      assert all[..|all| - 1] == [name] + rest[..|rest| - 1];
      UnderFirst(at, name, rest[..|rest| - 1]);
    }
  }

  lemma OneMoreEntry(after: map<Path, Content>, between: map<Path, Content>, before: map<Path, Content>,
                     at: Path, n: Node, k: nat)
    requires n.Dir? && 0 < k <= |n.entries| && Proper(n)
    requires OverridesFirst(between, before, at, n, k - 1)
    requires Overrides(after, between, Sub(at, n.entries[k - 1].name), n.entries[k - 1].node)
    ensures OverridesFirst(after, before, at, n, k)
  {
    var e := n.entries[k - 1];
    var sub := Sub(at, e.name);
    forall rel | AtFirst(n, k, rel).Some?
      ensures Under(at, rel) in after && after[Under(at, rel)] == AtFirst(n, k, rel).value
    {
      assert rel == [rel[0]] + rel[1..];
      UnderFirst(at, rel[0], rel[1..]);
      if rel[0] != e.name {
        NotIn(at, rel, e);
        assert AtFirst(n, k, rel) == AtFirst(n, k - 1, rel);
        assert SameAt(after, between, Under(at, rel));
      }
    }
    forall p
      ensures LandsFirst(at, n, k, p) || SameAt(after, before, p)
    {
      if Lands(sub, e.node, p) {
        var rest :| At(e.node, rest).Some? && p == Under(sub, rest);
        UnderFirst(at, e.name, rest);
        assert ([e.name] + rest)[1..] == rest;
        assert AtFirst(n, k, [e.name] + rest).Some?;
      } else if LandsFirst(at, n, k - 1, p) {
        var rel :| AtFirst(n, k - 1, rel).Some? && p == Under(at, rel);
        EarlierEntry(n, k, rel);
        assert AtFirst(n, k, rel).Some?;
      }
    }
  }

  /** What lies elsewhere in the directory is not below an entry's place. */
  lemma NotIn(at: Path, rel: seq<string>, e: Entry)
    requires rel != [] && rel[0] != e.name
    ensures !Lands(Sub(at, e.name), e.node, Under(at, rel))
  {
    forall rest
      ensures Under(Sub(at, e.name), rest) != Under(at, rel)
    {
      UnderFirst(at, e.name, rest);
      BelowIsPrefix(at, [e.name] + rest, rel);
    }
  }

  lemma {:induction false} EarlierEntry(n: Node, k: nat, rel: seq<string>)
    requires n.Dir? && 0 < k <= |n.entries| && Proper(n) && AtFirst(n, k - 1, rel).Some?
    ensures AtFirst(n, k, rel) == AtFirst(n, k - 1, rel)
  {
    var i := NamedBy(n, k - 1, rel);
    assert n.entries[i].name != n.entries[k - 1].name;
  }

  lemma {:induction false} NamedBy(n: Node, k: nat, rel: seq<string>) returns (i: nat)
    requires n.Dir? && k <= |n.entries| && AtFirst(n, k, rel).Some?
    ensures i < k && n.entries[i].name == rel[0]
    decreases k
  {
    i := k - 1;
    if n.entries[i].name != rel[0] { i := NamedBy(n, k - 1, rel); }
  }

  /** Nothing else does that: the source and the old files determine the new ones. */
  lemma OverridesDetermines(a: map<Path, Content>, b: map<Path, Content>, before: map<Path, Content>, at: Path, n: Node)
    requires Overrides(a, before, at, n) && Overrides(b, before, at, n)
    ensures a == b
  {
    forall p
      ensures (p in a <==> p in b) && (p in a && p in b ==> a[p] == b[p])
    {
      if Lands(at, n, p) {
        var rel :| At(n, rel).Some? && p == Under(at, rel);
      } else {
        assert SameAt(a, before, p) && SameAt(b, before, p);
      }
    }
  }

  predicate Elsewhere(p: Path, target: Path) { p != target && !Below(p, target) }

  lemma ElsewhereToo(target: Path, name: string)
    ensures forall p :: Elsewhere(p, target) ==> Elsewhere(p, Sub(target, name))
  {
    forall p | Elsewhere(p, target)
      ensures Elsewhere(p, Sub(target, name))
    {
      if Below(p, Sub(target, name)) { BelowIsTransitive(p, Sub(target, name), target); }
    }
  }

  // ---------------------------------------------------------------- which directories are made

  /** A path and everything above it. */
  function Chain(d: Path): (r: set<Path>)
    ensures forall x :: x in r <==> x == d || Below(d, x)
  {
    if d.Root? then {d} else {d} + Chain(d.parent)
  }

  /** The directories that copying a node to `at` makes sure of: only files ask for any. */
  function Made(at: Path, n: Node): set<Path>
    requires at.Sub?
    decreases n, 1, 0
  {
    match n
    case Missing => {}
    case File(_) => Chain(at.parent)
    case Dir(entries) => MadeFirst(at, n, |entries|)
  }

  function MadeFirst(at: Path, n: Node, k: nat): set<Path>
    requires n.Dir? && k <= |n.entries|
    decreases n, 0, k
  {
    if k == 0 then {} else MadeFirst(at, n, k - 1) + Made(Sub(at, n.entries[k - 1].name), n.entries[k - 1].node)
  }

  lemma {:induction false} MadeGrows(at: Path, n: Node, k: nat)
    requires n.Dir? && k <= |n.entries|
    ensures MadeFirst(at, n, k) <= MadeFirst(at, n, |n.entries|)
    decreases |n.entries| - k
  {
    if k < |n.entries| { MadeGrows(at, n, k + 1); }
  }

  ghost predicate Above(at: Path, n: Node, d: Path) { exists rel :: At(n, rel).Some? && Below(Under(at, rel), d) }

  ghost predicate AboveFirst(at: Path, n: Node, k: nat, d: Path)
    requires n.Dir? && k <= |n.entries|
  {
    exists rel :: AtFirst(n, k, rel).Some? && Below(Under(at, rel), d)
  }

  /** Exactly the directories above the place of some source file. */
  lemma {:induction false} MadeExactly(at: Path, n: Node, d: Path)
    requires Proper(n) && at.Sub?
    ensures d in Made(at, n) <==> Above(at, n, d)
    decreases n, 1, 0
  {
    match n
    case Missing =>
    case File(c) =>
      assert At(n, []) == Some(c) && Under(at, []) == at;
    case Dir(entries) =>
      MadeFirstExactly(at, n, |entries|, d);
      assert forall rel :: At(n, rel) == AtFirst(n, |entries|, rel);
  }

  lemma {:induction false} MadeFirstExactly(at: Path, n: Node, k: nat, d: Path)
    requires n.Dir? && k <= |n.entries| && Proper(n)
    ensures d in MadeFirst(at, n, k) <==> AboveFirst(at, n, k, d)
    decreases n, 0, k
  {
    if k > 0 {
      var e := n.entries[k - 1];
      assert e in n.entries;
      MadeFirstExactly(at, n, k - 1, d);
      MadeExactly(Sub(at, e.name), e.node, d);
      OneMoreAbove(at, n, k, d);
    }
  }

  lemma OneMoreAbove(at: Path, n: Node, k: nat, d: Path)
    requires n.Dir? && 0 < k <= |n.entries| && Proper(n)
    ensures var e := n.entries[k - 1];
            AboveFirst(at, n, k, d) <==> AboveFirst(at, n, k - 1, d) || Above(Sub(at, e.name), e.node, d)
  {
    var e := n.entries[k - 1];
    if AboveFirst(at, n, k, d) {
      var rel :| AtFirst(n, k, rel).Some? && Below(Under(at, rel), d);
      assert rel == [rel[0]] + rel[1..];
      UnderFirst(at, rel[0], rel[1..]);
    }
    if AboveFirst(at, n, k - 1, d) {
      var rel :| AtFirst(n, k - 1, rel).Some? && Below(Under(at, rel), d);
      EarlierEntry(n, k, rel);
    }
    if Above(Sub(at, e.name), e.node, d) {
      var rest :| At(e.node, rest).Some? && Below(Under(Sub(at, e.name), rest), d);
      UnderFirst(at, e.name, rest);
      assert ([e.name] + rest)[1..] == rest;
      assert AtFirst(n, k, [e.name] + rest).Some?;
    }
  }

  ghost predicate HasFileBelow(n: Node, dir: seq<string>) { exists rel :: At(n, rel).Some? && dir < rel }

  /** A directory of the source is recreated exactly when the source has a file somewhere below it. */
  lemma DirectoryRecreated(at: Path, n: Node, dir: seq<string>)
    requires Proper(n) && at.Sub?
    ensures Under(at, dir) in Made(at, n) <==> HasFileBelow(n, dir)
  {
    MadeExactly(at, n, Under(at, dir));
    if HasFileBelow(n, dir) {
      var rel :| At(n, rel).Some? && dir < rel;
      BelowIsPrefix(at, rel, dir);
      assert Below(Under(at, rel), Under(at, dir));
    }
    if Above(at, n, Under(at, dir)) {
      var rel :| At(n, rel).Some? && Below(Under(at, rel), Under(at, dir));
      BelowIsPrefix(at, rel, dir);
    }
  }

  // ---------------------------------------------------------------- what can stand in the way

  /** No file where a directory has to be, and no directory where a file has to be. */
  ghost predicate Unobstructed(files: map<Path, Content>, dirs: set<Path>, at: Path, n: Node)
    requires at.Sub?
  {
    (forall d :: d in Made(at, n) ==> d !in files) && forall p :: Lands(at, n, p) ==> p !in dirs
  }

  ghost predicate UnobstructedFirst(files: map<Path, Content>, dirs: set<Path>, at: Path, n: Node, k: nat)
    requires n.Dir? && k <= |n.entries|
  {
    (forall d :: d in MadeFirst(at, n, k) ==> d !in files) && forall p :: LandsFirst(at, n, k, p) ==> p !in dirs
  }

  lemma OneMoreLands(at: Path, n: Node, k: nat, p: Path)
    requires n.Dir? && 0 < k <= |n.entries| && Proper(n)
    ensures var e := n.entries[k - 1];
            LandsFirst(at, n, k, p) <==> LandsFirst(at, n, k - 1, p) || Lands(Sub(at, e.name), e.node, p)
  {
    var e := n.entries[k - 1];
    if LandsFirst(at, n, k, p) {
      var rel :| AtFirst(n, k, rel).Some? && p == Under(at, rel);
      assert rel == [rel[0]] + rel[1..];
      UnderFirst(at, rel[0], rel[1..]);
    }
    if LandsFirst(at, n, k - 1, p) {
      var rel :| AtFirst(n, k - 1, rel).Some? && p == Under(at, rel);
      EarlierEntry(n, k, rel);
    }
    if Lands(Sub(at, e.name), e.node, p) {
      var rest :| At(e.node, rest).Some? && p == Under(Sub(at, e.name), rest);
      UnderFirst(at, e.name, rest);
      assert ([e.name] + rest)[1..] == rest;
      assert AtFirst(n, k, [e.name] + rest).Some?;
    }
  }

  lemma LeafUnobstructed(files: map<Path, Content>, dirs: set<Path>, at: Path, n: Node)
    requires at.Sub?
    ensures n.Missing? ==> Unobstructed(files, dirs, at, n)
    ensures n.File? ==>
              (Unobstructed(files, dirs, at, n) <==> at !in dirs && forall x :: x in Chain(at.parent) ==> x !in files)
    ensures n.Dir? ==> UnobstructedFirst(files, dirs, at, n, 0)
  {
    if n.File? { assert At(n, []) == Some(n.content) && Under(at, []) == at && Lands(at, n, at); }
  }

  /** A directory is unobstructed exactly when all its entries are, and then any first few are. */
  lemma WhollyOrNot(files: map<Path, Content>, dirs: set<Path>, at: Path, n: Node, k: nat)
    requires n.Dir? && k <= |n.entries| && Proper(n) && at.Sub?
    ensures Unobstructed(files, dirs, at, n) ==> UnobstructedFirst(files, dirs, at, n, k)
    ensures k == |n.entries| && UnobstructedFirst(files, dirs, at, n, k) ==> Unobstructed(files, dirs, at, n)
  {
    assert forall rel :: At(n, rel) == AtFirst(n, |n.entries|, rel);
    assert forall p :: Lands(at, n, p) <==> LandsFirst(at, n, |n.entries|, p);
    if Unobstructed(files, dirs, at, n) { UnobstructedSoFar(files, dirs, at, n, k); }
  }

  lemma OneMoreUnobstructed(files: map<Path, Content>, dirs: set<Path>, at: Path, n: Node, k: nat)
    requires n.Dir? && k < |n.entries| && Proper(n)
    ensures var e := n.entries[k];
            UnobstructedFirst(files, dirs, at, n, k + 1) <==>
            UnobstructedFirst(files, dirs, at, n, k) && Unobstructed(files, dirs, Sub(at, e.name), e.node)
  {
    forall p ensures LandsFirst(at, n, k + 1, p) <==>
                     LandsFirst(at, n, k, p) || Lands(Sub(at, n.entries[k].name), n.entries[k].node, p) {
      OneMoreLands(at, n, k + 1, p);
    }
  }

  lemma {:induction false} UnobstructedSoFar(files: map<Path, Content>, dirs: set<Path>, at: Path, n: Node, k: nat)
    requires n.Dir? && k <= |n.entries| && Proper(n) && UnobstructedFirst(files, dirs, at, n, |n.entries|)
    ensures UnobstructedFirst(files, dirs, at, n, k)
    decreases |n.entries| - k
  {
    if k < |n.entries| {
      UnobstructedSoFar(files, dirs, at, n, k + 1);
      OneMoreUnobstructed(files, dirs, at, n, k);
    }
  }

  /** What the entries before have put there does not stand in the way of the next. */
  lemma EntriesStandApart(files: map<Path, Content>, dirs: set<Path>, at: Path, n: Node, k: nat)
    requires n.Dir? && k < |n.entries| && Proper(n)
    ensures var e, sub := n.entries[k], Sub(at, n.entries[k].name);
            Unobstructed(CopiedFirst(files, at, n, k), dirs + MadeFirst(at, n, k), sub, e.node) <==>
            Unobstructed(files, dirs, sub, e.node)
  {
    var e, sub := n.entries[k], Sub(at, n.entries[k].name);
    assert e in n.entries;
    CopiedFirstOverrides(files, at, n, k);
    forall d | d in Made(sub, e.node)
      ensures d in CopiedFirst(files, at, n, k) <==> d in files
    {
      MadeExactly(sub, e.node, d);
      var rest :| At(e.node, rest).Some? && Below(Under(sub, rest), d);
      if LandsFirst(at, n, k, d) {
        var rel :| AtFirst(n, k, rel).Some? && d == Under(at, rel);
        OtherName(at, n, k, rest, rel);
      }
    }
    forall p | Lands(sub, e.node, p)
      ensures p !in MadeFirst(at, n, k)
    {
      var rest :| At(e.node, rest).Some? && p == Under(sub, rest);
      MadeFirstExactly(at, n, k, p);
      if AboveFirst(at, n, k, p) {
        var rel :| AtFirst(n, k, rel).Some? && Below(Under(at, rel), p);
        OtherName(at, n, k, rest, rel);
      }
    }
  }

  /** Paths below different entries of a directory do not lie below each other. */
  lemma OtherName(at: Path, n: Node, k: nat, rest: seq<string>, rel: seq<string>)
    requires n.Dir? && k < |n.entries| && Proper(n) && AtFirst(n, k, rel).Some?
    ensures var below := Under(Sub(at, n.entries[k].name), rest);
            !Below(below, Under(at, rel)) && !Below(Under(at, rel), below)
  {
    var name := n.entries[k].name;
    var j := NamedBy(n, k, rel);
    assert n.entries[j].name != name;
    UnderFirst(at, name, rest);
    BelowIsPrefix(at, [name] + rest, rel);
    BelowIsPrefix(at, rel, [name] + rest);
  }

  // ---------------------------------------------------------------- the code

  class Disk {
    /** Whether every call succeeds that nothing stands in the way of. */
    const faultless: bool
    var files: map<Path, Content>
    var dirs: set<Path>

    /** Everything lies in a directory, and nothing is both. */
    ghost predicate Valid()
      reads this
    {
      && Root in dirs && (forall d :: d in dirs && d.Sub? ==> d.parent in dirs)
      && forall f :: f in files ==> f !in dirs && f.Sub? && f.parent in dirs
    }

    constructor (faultless: bool)
      ensures Valid() && files == map[] && dirs == {Root} && this.faultless == faultless
    {
      this.faultless, files, dirs := faultless, map[], {Root};
    }

    lemma ChainStands(d: Path)
      requires Valid() && d in dirs
      ensures Chain(d) <= dirs
      decreases d
    {
      if d.Sub? { ChainStands(d.parent); }
    }

    method Try() returns (ok: bool)
      ensures faultless ==> ok
    {
      ok := *;
      ok := ok || faultless;
    }

    /** A failure may leave some of the directories made. */
    method MkdirAll(d: Path) returns (ok: bool)
      requires Valid()
      modifies this`dirs
      ensures Valid() && old(dirs) <= dirs <= old(dirs) + Chain(d)
      ensures ok ==> dirs == old(dirs) + Chain(d)
      ensures faultless ==> (ok <==> forall x :: x in Chain(d) ==> x !in files)
      decreases d
    {
      if d in dirs {
        ChainStands(d);
        return true;
      }
      if d in files { return false; }
      ok := MkdirAll(d.parent);
      if !ok { return; }
      ok := Try();
      if ok { dirs := dirs + {d}; }
    }

    /** Fails without a directory to copy into, or onto a directory; a failed copy may leave anything at the target. */
    method CopyFile(c: Content, target: Path) returns (ok: bool)
      requires Valid()
      modifies this`files
      ensures Valid() && (ok ==> files == old(files)[target := c])
      ensures faultless ==> (ok <==> target !in dirs && target.Sub? && target.parent in dirs)
      ensures forall p :: p != target ==> SameAt(files, old(files), p)
    {
      ok := false;
      if target in dirs || target.Root? || target.parent !in dirs { return; }
      ok := Try();
      var partly := Try();
      var written: Content := *;
      if ok {
        files := files[target := c];
      } else if partly {
        files := files[target := written];
      }
    }

    /**
     `name` is the last component of the source path. On success the files are the old ones overridden by the
     source's, each at its place below `destdir/name`, and the directories above those places exist besides the
     old ones. Whatever happens, no file elsewhere changes and no directory goes away.
     */
    method CopyAll(source: Node, name: string, destdir: Path) returns (ok: bool)
      requires Valid() && Proper(source)
      modifies this
      ensures Valid()
      ensures ok ==> files == Copied(old(files), Sub(destdir, name), source)
      ensures ok ==> dirs == old(dirs) + Made(Sub(destdir, name), source)
      ensures faultless ==> (ok <==> Unobstructed(old(files), old(dirs), Sub(destdir, name), source))
      ensures forall p :: Elsewhere(p, Sub(destdir, name)) ==> SameAt(files, old(files), p)
      ensures old(dirs) <= dirs <= old(dirs) + Made(Sub(destdir, name), source)
      decreases source
    {
      hide Unobstructed, UnobstructedFirst;
      LeafUnobstructed(files, dirs, Sub(destdir, name), source);
      if source.Missing? { return true; }
      if source.Dir? {
        var read := Try();
        if !read { return false; }
        for i := 0 to |source.entries|
          invariant Valid() && files == CopiedFirst(old(files), Sub(destdir, name), source, i)
          invariant dirs == old(dirs) + MadeFirst(Sub(destdir, name), source, i)
          invariant forall p :: Elsewhere(p, Sub(destdir, name)) ==> SameAt(files, old(files), p)
          invariant faultless ==> UnobstructedFirst(old(files), old(dirs), Sub(destdir, name), source, i)
        {
          EntriesStandApart(old(files), old(dirs), Sub(destdir, name), source, i);
          var f := source.entries[i];
          ElsewhereToo(Sub(destdir, name), f.name);
          MadeGrows(Sub(destdir, name), source, i + 1);
          OneMoreUnobstructed(old(files), old(dirs), Sub(destdir, name), source, i);
          ok := CopyAll(f.node, f.name, Sub(destdir, name));
          if !ok { WhollyOrNot(old(files), old(dirs), Sub(destdir, name), source, i + 1); return; }
        }
        WhollyOrNot(old(files), old(dirs), Sub(destdir, name), source, |source.entries|);
        return true;
      }
      ok := CopyInto(source.content, name, destdir);
    }

    method CopyInto(c: Content, name: string, destdir: Path) returns (ok: bool)
      requires Valid()
      modifies this
      ensures Valid()
      ensures ok ==> files == old(files)[Sub(destdir, name) := c] && dirs == old(dirs) + Chain(destdir)
      ensures faultless ==>
                (ok <==> Sub(destdir, name) !in old(dirs) && forall x :: x in Chain(destdir) ==> x !in old(files))
      ensures forall p :: p != Sub(destdir, name) ==> SameAt(files, old(files), p)
      ensures old(dirs) <= dirs <= old(dirs) + Chain(destdir)
    {
      if destdir in dirs { ChainStands(destdir); }
      if Below(destdir, Sub(destdir, name)) { BelowIsDeeper(destdir, Sub(destdir, name)); }
      if destdir !in dirs && destdir !in files {
        var made := MkdirAll(destdir);
        if !made { return false; }
      }
      ok := CopyFile(c, Sub(destdir, name));
      if destdir in dirs { ChainStands(destdir); }
    }
  }
}
