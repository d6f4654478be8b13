/** Cleaned absolute paths. */
module Paths {
  import opened Text

  datatype Path = Root | Sub(parent: Path, name: string)

  /** Strictly below. */
  predicate Below(p: Path, q: Path) {
    p.Sub? && (p.parent == q || Below(p.parent, q))
  }

  /** A path below a directory, by its components. */
  function Under(base: Path, parts: seq<string>): Path
    decreases |parts|
  {
    if parts == [] then base else Sub(Under(base, parts[..|parts| - 1]), parts[|parts| - 1])
  }

  /** A single ordinary path component. */
  predicate Plain(name: string) { name != "" && name != "." && name != ".." && Free('/', name) }

  /** Follows components one by one, the way `filepath.Clean` resolves them. */
  function Walk(base: Path, parts: seq<string>): Path
    decreases |parts|
  {
    if parts == [] then base
    else if parts[0] == "" || parts[0] == "." then Walk(base, parts[1..])
    else if parts[0] == ".." then Walk(if base.Sub? then base.parent else Root, parts[1..])
    else Walk(Sub(base, parts[0]), parts[1..])
  }

  /** `filepath.Join(base, name)` for any name at all. */
  function JoinName(base: Path, name: string): Path { Walk(base, Split(name, '/')) }

  /** A name without separators that is not special adds one component. */
  lemma JoinPlain(base: Path, name: string)
    requires Plain(name)
    ensures JoinName(base, name) == Sub(base, name)
  {
    SplitWhole(name, '/');
    assert [name][1..] == [];
    assert Walk(base, [name]) == Walk(Sub(base, name), [name][1..]);
  }

  lemma {:induction false} BelowIsTransitive(p: Path, q: Path, r: Path)
    requires Below(p, q) && Below(q, r)
    ensures Below(p, r)
    decreases p
  {
    if p.parent != q { BelowIsTransitive(p.parent, q, r); }
  }

  function Depth(p: Path): nat { if p.Root? then 0 else 1 + Depth(p.parent) }

  lemma {:induction false} BelowIsDeeper(p: Path, q: Path)
    requires Below(p, q)
    ensures Depth(p) > Depth(q)
    decreases p
  {
    if p.parent != q { BelowIsDeeper(p.parent, q); }
  }

  lemma NotBelowItself(p: Path)
    ensures !Below(p, p)
  {
    if Below(p, p) { BelowIsDeeper(p, p); }
  }

  /** Below a common directory, lying below is having the other's components first. */
  lemma {:induction false} BelowIsPrefix(base: Path, p: seq<string>, q: seq<string>)
    ensures Below(Under(base, p), Under(base, q)) <==> q < p
    ensures Under(base, p) == Under(base, q) ==> p == q
    decreases |p| + |q|
  {
    if p == [] {
      NotAboveItself(base, q);
    } else {
      BelowIsPrefix(base, p[..|p| - 1], q);
      assert q < p <==> q == p[..|p| - 1] || q < p[..|p| - 1];
      if q == [] {
        NotAboveItself(base, p);
      } else {
        BelowIsPrefix(base, p[..|p| - 1], q[..|q| - 1]);
        assert p == p[..|p| - 1] + [p[|p| - 1]] && q == q[..|q| - 1] + [q[|q| - 1]];
      }
    }
  }

  lemma {:induction false} NotAboveItself(base: Path, q: seq<string>)
    ensures Depth(Under(base, q)) == Depth(base) + |q|
    ensures !Below(base, Under(base, q))
    decreases |q|
  {
    if q != [] { NotAboveItself(base, q[..|q| - 1]); }
    if Below(base, Under(base, q)) { BelowIsDeeper(base, Under(base, q)); }
  }
}
