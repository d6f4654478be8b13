/**
 The content-addressed source cache: staging, `sources/<sha256>/<file>`, and the sha1 links that legacy
 packages find their archives by. The hash functions are arbitrary functions to 20 and 32 bytes.
 */
module SourceCache {
  import opened Wrappers

  newtype byte = x: int | 0 <= x < 256
  type Bytes = seq<byte>

  /** The hex sums the code computes: a digest of the content, encoded in lower case. */
  datatype Hashes = Hashes(Sha1Sum: Bytes -> string, Sha256Sum: Bytes -> string)
  {
    ghost predicate Sized() {
      forall c :: |Sha1Sum(c)| == 40 && |Sha256Sum(c)| == 64
    }

    ghost predicate InHex() {
      forall c :: LowerHex(Sha1Sum(c)) && LowerHex(Sha256Sum(c)) && HexDecode(Sha256Sum(c)).Some?
    }

    /** No two contents share a sha256. */
    ghost predicate Injective() {
      forall c, d {:trigger Sha256Sum(c), Sha256Sum(d)} :: Sha256Sum(c) == Sha256Sum(d) ==> c == d
    }
  }

  // ---------------------------------------------------------------- hexadecimal

  function HexDigit(n: int): (c: char)
    requires 0 <= n < 16
    ensures IsLowerHex(c) && HexValue(c) == Some(n)
  {
    if n < 10 then (n + '0' as int) as char else (n - 10 + 'a' as int) as char
  }

  function HexValue(c: char): (v: Option<int>)
    ensures v.Some? ==> 0 <= v.value < 16
  {
    if '0' <= c <= '9' then Some(c as int - '0' as int)
    else if 'a' <= c <= 'f' then Some(c as int - 'a' as int + 10)
    else if 'A' <= c <= 'F' then Some(c as int - 'A' as int + 10)
    else None
  }

  predicate IsLowerHex(c: char) { '0' <= c <= '9' || 'a' <= c <= 'f' }

  predicate LowerHex(s: string) { forall i :: 0 <= i < |s| ==> IsLowerHex(s[i]) }

  /** Base16, section 8 of RFC 4648, in lower case. */
  function HexEncode(b: Bytes): (s: string)
    ensures |s| == 2 * |b| && LowerHex(s)
  {
    if b == [] then "" else [HexDigit(b[0] as int / 16), HexDigit(b[0] as int % 16)] + HexEncode(b[1..])
  }

  /** Accepts both cases; fails on odd lengths and other characters. */
  function HexDecode(s: string): (r: Option<Bytes>)
    ensures r.Some? ==> |s| == 2 * |r.value|
  {
    if s == "" then Some([])
    else if |s| == 1 then None
    else
      match (HexValue(s[0]), HexValue(s[1]), HexDecode(s[2..]))
      case (Some(hi), Some(lo), Some(rest)) => Some([(hi * 16 + lo) as byte] + rest)
      case _ => None
  }

  lemma {:induction false} DecodeEncode(b: Bytes)
    ensures HexDecode(HexEncode(b)) == Some(b)
    decreases |b|
  {
    hide HexDigit, HexValue, LowerHex, IsLowerHex;
    if b != [] {
      DecodeEncode(b[1..]);
      DecodePair(HexDigit(b[0] as int / 16), HexDigit(b[0] as int % 16), HexEncode(b[1..]));
      assert [b[0]] + b[1..] == b;
    }
  }

  lemma DecodePair(x: char, y: char, rest: string)
    requires HexValue(x).Some? && HexValue(y).Some? && HexDecode(rest).Some?
    ensures HexDecode([x, y] + rest) ==
            Some([(HexValue(x).value * 16 + HexValue(y).value) as byte] + HexDecode(rest).value)
  {}

  /** Encoding what a string decodes to gives the string back exactly when it was in lower case. */
  lemma {:induction false} EncodeDecode(s: string)
    requires HexDecode(s).Some?
    ensures HexEncode(HexDecode(s).value) == s <==> LowerHex(s)
    decreases |s|
  {
    if s != "" {
      var b, u := HexDecode(s).value, s[2..];
      EncodeDecode(u);
      assert b[1..] == HexDecode(u).value;
      var pair := [HexDigit(b[0] as int / 16), HexDigit(b[0] as int % 16)];
      PairRoundTrip(s[0], s[1]);
      assert s == s[..2] + u;
      assert HexEncode(b) == pair + HexEncode(b[1..]);
      SplitEquality(pair, HexEncode(b[1..]), s[..2], u);
      assert LowerHex(s) <==> LowerHex(s[..2]) && LowerHex(u);
    }
  }

  lemma PairRoundTrip(x: char, y: char)
    requires HexValue(x).Some? && HexValue(y).Some?
    ensures var n := HexValue(x).value * 16 + HexValue(y).value;
            0 <= n < 256 && ([HexDigit(n / 16), HexDigit(n % 16)] == [x, y] <==> LowerHex([x, y]))
  {}

  lemma SplitEquality(a: string, b: string, c: string, d: string)
    requires |a| == |c|
    ensures a + b == c + d <==> a == c && b == d
  {
    assert (a + b)[..|a|] == a && (a + b)[|a|..] == b;
    assert (c + d)[..|c|] == c && (c + d)[|c|..] == d;
  }

  /** Strings that decode alike, one of them in lower case, are equal exactly when the other is too. */
  lemma DecodeAlike(s: string, t: string)
    requires HexDecode(s) == HexDecode(t) && HexDecode(s).Some? && LowerHex(t)
    ensures s == t <==> LowerHex(s)
  {
    EncodeDecode(s);
    EncodeDecode(t);
  }

  /** Encoded digests of 20 and 32 bytes are such sums. */
  lemma EncodedDigestsAreSums(sha1: Bytes -> Bytes, sha256: Bytes -> Bytes, h: Hashes)
    requires forall c :: |sha1(c)| == 20 && |sha256(c)| == 32
    requires forall c :: h.Sha1Sum(c) == HexEncode(sha1(c)) && h.Sha256Sum(c) == HexEncode(sha256(c))
    ensures h.Sized() && h.InHex()
  {
    forall c
      ensures LowerHex(h.Sha1Sum(c)) && LowerHex(h.Sha256Sum(c)) && HexDecode(h.Sha256Sum(c)).Some?
    {
      DecodeEncode(sha256(c));
    }
  }

  // ---------------------------------------------------------------- the store

  /** What lies under the source directory: the staging area once it is made, the hash directories, the sha1 links. */
  datatype Store = Store(staging: Option<map<string, Bytes>>, dirs: set<string>, files: map<Entry, Bytes>,
                         links: map<string, string>)

  /** `SourceDir/dir/file`. */
  datatype Entry = Entry(dir: string, file: string)

  const STAGING := "staging"

  /** A tarball source. Its file name has no path separator; `http` tells it from a `file://` source. */
  datatype SimpleSource = SimpleSource(file: string, legacy: bool, validator: string, http: bool)

  /** What the file system finds at `SourceDir/name/file`, through a link if `name` is one. */
  function Lookup(st: Store, name: string, file: string): Option<Bytes> {
    if name == STAGING then
      if st.staging.Some? && file in st.staging.value then Some(st.staging.value[file]) else None
    else
      var entry := Entry(if name in st.links then st.links[name] else name, file);
      if entry in st.files then Some(st.files[entry]) else None
  }

  /** `SimpleSource.IsFetched`; an empty validator vanishes from the joined path. */
  predicate IsFetched(st: Store, s: SimpleSource) {
    if s.validator == "" then (s.file == STAGING && st.staging.Some?) || s.file in st.dirs || s.file in st.links
    else Lookup(st, s.validator, s.file).Some?
  }

  /** Every stored file lies in the directory its content names, and links lead from sha1 names to directories. */
  ghost predicate Indexed(h: Hashes, st: Store) {
    && (forall d :: d in st.dirs ==> |d| == 64)
    && (forall e :: e in st.files ==> e.dir in st.dirs && h.Sha256Sum(st.files[e]) == e.dir)
    && (forall l :: l in st.links ==> |l| == 40 && st.links[l] in st.dirs)
  }

  /** Every link leads to a directory that holds a file with that sha1. */
  ghost predicate Linked(h: Hashes, st: Store) {
    forall l :: l in st.links ==> LinkHolds(h, st, l)
  }

  ghost predicate LinkHolds(h: Hashes, st: Store, l: string)
    requires l in st.links
  {
    exists e :: e in st.files && e.dir == st.links[l] && h.Sha1Sum(st.files[e]) == l
  }

  /** No directory, no stored entry and no link goes away. */
  ghost predicate Grows(a: Store, b: Store) {
    && (a.staging.Some? ==> b.staging.Some?) && a.dirs <= b.dirs && a.files.Keys <= b.files.Keys
    && (forall l :: l in a.links ==> l in b.links && b.links[l] == a.links[l])
  }

  /** A store that only grows never exchanges what a file holds, for the content decides its directory. */
  lemma ContentsStay(h: Hashes, a: Store, b: Store)
    requires h.Injective() && Indexed(h, a) && Indexed(h, b) && Grows(a, b)
    ensures Keeps(a, b)
  {}

  /** Every stored file is still there and holds what it held. */
  ghost predicate Keeps(a: Store, b: Store) {
    forall e :: e in a.files ==> e in b.files && b.files[e] == a.files[e]
  }

  /** The staging directory is there. */
  function Staged(st: Store): Store { if st.staging.Some? then st else st.(staging := Some(map[])) }

  function WithDir(st: Store, name: string): Store { st.(dirs := st.dirs + {name}) }

  /** The move out of staging. */
  function Deposit(h: Hashes, st: Store, file: string, c: Bytes): Store {
    var d := h.Sha256Sum(c);
    WithDir(st, d).(files := st.files[Entry(d, file) := c])
  }

  function WithLink(h: Hashes, st: Store, c: Bytes): Store {
    st.(links := st.links[h.Sha1Sum(c) := h.Sha256Sum(c)])
  }

  /** What a successful fetch of a source with content `c` makes of the stored part; it made the staging area first. */
  function AfterFetch(h: Hashes, st: Store, s: SimpleSource, c: Bytes): Store {
    var moved := Deposit(h, Staged(st), s.file, c);
    if s.legacy then WithLink(h, moved, c) else moved
  }

  predicate SameStored(a: Store, b: Store) { a.dirs == b.dirs && a.files == b.files && a.links == b.links }

  lemma FetchKeepsIndex(h: Hashes, st: Store, s: SimpleSource, c: Bytes)
    requires h.Sized() && Indexed(h, st) && (s.legacy ==> h.Sha1Sum(c) !in st.links)
    ensures Indexed(h, AfterFetch(h, st, s, c)) && Grows(st, AfterFetch(h, st, s, c))
  {}

  lemma FetchKeepsLinks(h: Hashes, st: Store, s: SimpleSource, c: Bytes)
    requires Indexed(h, st) && h.Injective() && Linked(h, st) && (s.legacy ==> h.Sha1Sum(c) !in st.links)
    ensures Linked(h, AfterFetch(h, st, s, c))
  {
    var t := AfterFetch(h, st, s, c);
    forall l | l in t.links
      ensures LinkHolds(h, t, l)
    {
      if l in st.links && t.links[l] == st.links[l] {
        var e :| e in st.files && e.dir == st.links[l] && h.Sha1Sum(st.files[e]) == l;
        assert e in t.files && t.files[e] == st.files[e];
      } else {
        assert Entry(h.Sha256Sum(c), s.file) in t.files;
      }
    }
  }

  lemma FetchKeeps(h: Hashes, st: Store, s: SimpleSource, c: Bytes)
    requires h.Sized() && Indexed(h, st) && (s.legacy ==> h.Sha1Sum(c) !in st.links)
    ensures Indexed(h, AfterFetch(h, st, s, c)) && Grows(st, AfterFetch(h, st, s, c))
    ensures h.Injective() && Linked(h, st) ==> Linked(h, AfterFetch(h, st, s, c))
  {
    FetchKeepsIndex(h, st, s, c);
    if h.Injective() && Linked(h, st) { FetchKeepsLinks(h, st, s, c); }
  }

  lemma MkdirKeeps(h: Hashes, st: Store, name: string)
    requires Indexed(h, st) && |name| == 64
    ensures Indexed(h, WithDir(st, name)) && Grows(st, WithDir(st, name))
    ensures Linked(h, st) ==> Linked(h, WithDir(st, name))
  {}

  /** Both views depend on the stored part only. */
  lemma StoredPartDecides(h: Hashes, a: Store, b: Store)
    requires SameStored(a, b)
    ensures Indexed(h, a) <==> Indexed(h, b)
    ensures Linked(h, a) <==> Linked(h, b)
  {}

  /** The index is kept, nothing goes away and, if no two contents share a sha256, links still lead to their files. */
  ghost predicate Improves(h: Hashes, a: Store, b: Store) {
    Indexed(h, b) && Grows(a, b) && (h.Injective() && Linked(h, a) ==> Linked(h, b))
  }

  /** Only the stored part and the existence of the staging area matter for that. */
  lemma Improved(h: Hashes, a: Store, b: Store, like: Store)
    requires Indexed(h, like) && Grows(a, like) && (h.Injective() && Linked(h, a) ==> Linked(h, like))
    requires SameStored(b, like) && (a.staging.Some? ==> b.staging.Some?)
    ensures Improves(h, a, b)
  {
    hide Linked, Hashes.Injective;
    StoredPartDecides(h, b, like);
  }

  lemma SameImproves(h: Hashes, a: Store, b: Store)
    requires Indexed(h, a) && SameStored(b, a) && (a.staging.Some? ==> b.staging.Some?)
    ensures Improves(h, a, b)
  {
    hide Linked, Hashes.Injective;
    Improved(h, a, b, a);
  }

  lemma MkdirImproves(h: Hashes, a: Store, b: Store, c: Bytes)
    requires h.Sized() && Indexed(h, a) && SameStored(b, WithDir(a, h.Sha256Sum(c)))
    requires a.staging.Some? ==> b.staging.Some?
    ensures Improves(h, a, b)
  {
    hide Linked, Hashes.Injective;
    MkdirKeeps(h, a, h.Sha256Sum(c));
    Improved(h, a, b, WithDir(a, h.Sha256Sum(c)));
  }

  lemma FetchImproves(h: Hashes, a: Store, b: Store, s: SimpleSource, c: Bytes)
    requires h.Sized() && Indexed(h, a) && (s.legacy ==> h.Sha1Sum(c) !in a.links)
    requires SameStored(b, AfterFetch(h, a, s, c)) && (a.staging.Some? ==> b.staging.Some?)
    ensures Improves(h, a, b)
  {
    hide Linked, Hashes.Injective;
    FetchKeeps(h, a, s, c);
    Improved(h, a, b, AfterFetch(h, a, s, c));
  }

  /** A sha1 is too short to be the name of a directory. */
  lemma NoSuchDirectory(h: Hashes, st: Store, c: Bytes)
    requires h.Sized() && Indexed(h, st)
    ensures h.Sha1Sum(c) !in st.dirs
  {}

  /** A transfer that ended without an error: only a sha256-checked one says anything about the content. */
  predicate Delivers(h: Hashes, s: SimpleSource, c: Bytes) {
    s.http && !s.legacy ==> HexDecode(s.validator).Some? && HexDecode(s.validator) == HexDecode(h.Sha256Sum(c))
  }

  /**
   After a successful fetch, the source counts as fetched exactly when its validator is the lower-case
   sha256 of what arrived, its sha1 if the source is legacy, or an older link to the same directory; without
   a validator, exactly when its own file name is such a sum or that of the staging area.
   */
  lemma FetchedExactlyWhen(h: Hashes, st: Store, s: SimpleSource, c: Bytes)
    requires h.Sized() && Indexed(h, st) && !IsFetched(st, s)
    ensures IsFetched(AfterFetch(h, st, s, c), s) <==>
            if s.validator == "" then
              s.file == STAGING || s.file == h.Sha256Sum(c) || (s.legacy && s.file == h.Sha1Sum(c))
            else
              || s.validator == h.Sha256Sum(c)
              || (s.legacy && s.validator == h.Sha1Sum(c))
              || (s.validator in st.links && st.links[s.validator] == h.Sha256Sum(c)
                  && (s.legacy ==> s.validator != h.Sha1Sum(c)))
  {}

  /** For a checked transfer that boils down to the validator's case. */
  lemma CheckedFetchNeedsLowerCase(h: Hashes, st: Store, s: SimpleSource, c: Bytes)
    requires h.InHex() && h.Sized() && Indexed(h, st) && !IsFetched(st, s) && s.http && !s.legacy && Delivers(h, s, c)
    ensures IsFetched(AfterFetch(h, st, s, c), s) <==> LowerHex(s.validator)
  {
    DecodeAlike(s.validator, h.Sha256Sum(c));
    FetchedExactlyWhen(h, st, s, c);
  }

  /** The content at the source's bind path exists and hashes to its validator. */
  predicate Bound(h: Hashes, st: Store, s: SimpleSource) {
    match Lookup(st, s.validator, s.file)
    case None => false
    case Some(c) => h.Sha256Sum(c) == s.validator
  }

  /** A sha256 validator as package files spell it. */
  predicate IsSha256(v: string) { |v| == 64 && LowerHex(v) }

  /** A source whose transfer is checked against a sha256. */
  predicate Checked(s: SimpleSource) { s.http && !s.legacy && IsSha256(s.validator) }

  lemma BoundStays(h: Hashes, a: Store, b: Store, s: SimpleSource)
    requires Indexed(h, a) && Indexed(h, b) && Grows(a, b) && |s.validator| == 64 && IsFetched(a, s)
    ensures Bound(h, b, s)
  {}

  /**
   Why the length matters: a package.yml source whose validator is a sha1 that some legacy package linked
   counts as fetched, so it is skipped, although the content's sha256 is not its validator.
   */
  lemma Sha1ValidatorIsSkipped(h: Hashes, st: Store, legacy: SimpleSource, c: Bytes)
    requires h.InHex() && h.Sized() && Indexed(h, st) && legacy.legacy && h.Sha1Sum(c) !in st.links
    ensures var s := SimpleSource(legacy.file, false, h.Sha1Sum(c), true);
            var t := AfterFetch(h, st, legacy, c);
            IsFetched(t, s) && !Bound(h, t, s) && LowerHex(s.validator)
  {}

  /**
   A second legacy source with the same content but another name is not fetched yet and cannot be fetched
   without an error, because its link exists; yet the failed attempt leaves it fetched for the next run.
   */
  lemma SecondLegacyName(h: Hashes, st: Store, s: SimpleSource, c: Bytes, other: string)
    requires h.Sized() && Indexed(h, st) && s.legacy && s.validator == h.Sha1Sum(c) && h.Sha1Sum(c) !in st.links
    requires other != s.file && Entry(h.Sha256Sum(c), other) !in st.files
    ensures var t, second := AfterFetch(h, st, s, c), s.(file := other);
            IsFetched(t, s) && !IsFetched(t, second) && h.Sha1Sum(c) in t.links
            && IsFetched(Deposit(h, t, other, c), second)
  {}

  // ---------------------------------------------------------------- the code

  class SourceStore {
    const hashes: Hashes
    /** Whether every file-system call succeeds and every transfer arrives. */
    const faultless: bool
    var st: Store

    ghost predicate Valid()
      reads this
    {
      hashes.Sized() && hashes.InHex() && Indexed(hashes, st)
    }

    constructor (h: Hashes, faultless: bool)
      requires h.Sized() && h.InHex()
      ensures hashes == h && this.faultless == faultless && Valid() && Linked(h, st)
      ensures st == Store(None, {}, map[], map[])
    {
      hashes, this.faultless, st := h, faultless, Store(None, {}, map[], map[]);
    }

    /** Makes the staging area and transfers into it; a failed transfer may leave anything, or nothing, there. */
    method Download(s: SimpleSource) returns (ok: bool, ghost c: Bytes)
      modifies this
      ensures SameStored(st, old(st)) && (ok || old(st).staging.Some? ==> st.staging.Some?)
      ensures ok ==> s.file in st.staging.value && st.staging.value[s.file] == c && Delivers(hashes, s, c)
      ensures faultless ==> (ok <==> Delivers(hashes, s, c))
    {
      // Check staging is available
      var staged: bool := *;
      staged := staged || faultless;
      var content: Bytes := *;
      c := content;
      if st.staging.None? && !staged {
        return false, c;
      }
      st := Staged(st);
      ok := *;
      var arrived: bool := *;
      ok, arrived := ok || faultless, arrived || faultless;
      if !s.http {
        ok := ok && arrived;
      } else if !s.legacy {
        var sum := HexDecode(s.validator);
        arrived := arrived && sum.Some?;
        ok := ok && arrived && sum == HexDecode(hashes.Sha256Sum(content));
      } else {
        ok := ok && arrived;
      }
      if arrived {
        st := st.(staging := Some(st.staging.value[s.file := content]));
      }
    }

    /** `c` is what arrived, when everything went well. */
    method Fetch(s: SimpleSource) returns (ok: bool, ghost c: Bytes)
      requires Valid()
      modifies this
      ensures Valid() && Improves(hashes, old(st), st)
      ensures ok ==> Delivers(hashes, s, c) && SameStored(st, AfterFetch(hashes, old(st), s, c))
      ensures ok ==> st.staging.Some?
      ensures ok && s.legacy ==> hashes.Sha1Sum(c) !in old(st).links
      ensures faultless ==>
                (ok <==> Delivers(hashes, s, c) && (s.legacy ==> hashes.Sha1Sum(c) !in old(st).links))
    {
      hide Indexed, Linked, Delivers, Grows, Hashes.Sized, Hashes.InHex, Hashes.Injective, LowerHex;
      ghost var stored := st;
      ok, c := Download(s);
      SameImproves(hashes, stored, st);
      if !ok { return; }
      var content := st.staging.value[s.file];
      var hash := hashes.Sha256Sum(content);
      // Make the target directory
      var made: bool := *;
      if hash !in st.dirs && !made && !faultless { return false, c; }
      st := WithDir(st, hash);
      MkdirImproves(hashes, stored, st, c);
      // Move from staging into hash based directory
      var moved: bool := *;
      if !moved && !faultless { return false, c; }
      st := st.(files := st.files[Entry(hash, s.file) := content], staging := Some(st.staging.value - {s.file}));
      FetchImproves(hashes, stored, st, s.(legacy := false), c);
      if s.legacy {
        var sha := hashes.Sha1Sum(content);
        var linked: bool := *;
        NoSuchDirectory(hashes, st, c);
        if (!linked && !faultless) || sha in st.links || sha in st.dirs { return false, c; }
        st := st.(links := st.links[sha := hash]);
        FetchImproves(hashes, stored, st, s, c);
      }
    }

    method FetchIfNeeded(s: SimpleSource) returns (ok: bool, ghost c: Bytes)
      requires Valid()
      modifies this
      ensures Valid() && Grows(old(st), st)
      ensures ok ==> Provided(hashes, old(st), st, s, c)
      ensures IsFetched(old(st), s) ==> ok && st == old(st)
      ensures faultless ==> (ok <==> !Unfetchable(hashes, old(st), s, c))
      ensures hashes.Injective() && old(Linked(hashes, st)) ==> Linked(hashes, st)
      ensures ok && Checked(s) ==> Bound(hashes, st, s)
    {
      ok, c := true, [];
      if !IsFetched(st, s) {
        ghost var before := st;
        ok, c := Fetch(s);
        if ok && Checked(s) {
          CheckedFetchNeedsLowerCase(hashes, before, s, c);
        }
      }
      if ok && Checked(s) {
        BoundStays(hashes, st, st, s);
      }
    }

    /**
     `Package.FetchSources`: when it succeeds, every source in its turn was there already or has been fetched; every
     checked source is bound to content that hashes to its validator, whichever of the two, and the rest of the loop
     has not disturbed it. Sources that are all there cost nothing and cannot fail.
     */
    method FetchSources(sources: seq<SimpleSource>)
      returns (ok: bool, ghost stores: seq<Store>, ghost contents: seq<Bytes>)
      requires Valid()
      modifies this
      ensures Valid() && Grows(old(st), st)
      ensures hashes.Injective() && old(Linked(hashes, st)) ==> Linked(hashes, st)
      ensures hashes.Injective() ==> Keeps(old(st), st)
      ensures ok ==> AllBound(hashes, st, sources) && BoundByLength(hashes, st, sources)
      ensures ok ==> |stores| == |sources| + 1 && |contents| == |sources|
      ensures ok ==> AllProvided(hashes, stores, sources, contents) && stores[0] == old(st) && stores[|sources|] == st
      ensures ok ==> forall i :: 0 <= i < |sources| ==> Obtained(hashes, stores, sources[i], i, contents[i])
      ensures (forall s :: s in sources ==> IsFetched(old(st), s)) ==> ok && st == old(st)
      ensures !ok && faultless ==>
                && 0 < |contents| == |stores| <= |sources|
                && Unfetchable(hashes, stores[|stores| - 1], sources[|stores| - 1], contents[|stores| - 1])
    {
      hide IsFetched, Unfetchable, Provided, Growing, Obtained, AllBound, BoundByLength, Bound, Checked, AllProvided;
      ghost var before := st;
      stores, contents := [st], [];
      StartGrowing(hashes, st);
      assert sources[..0] == [];
      NoneBound(hashes, st);
      for i := 0 to |sources|
        invariant Valid() && Grows(old(st), st)
        invariant |stores| == i + 1 && |contents| == i && stores[0] == old(st) && stores[i] == st
        invariant AllProvided(hashes, stores, sources[..i], contents)
        invariant Growing(hashes, stores)
        invariant (forall s :: s in sources ==> IsFetched(old(st), s)) ==> st == old(st)
        invariant hashes.Injective() && old(Linked(hashes, st)) ==> Linked(hashes, st)
        invariant AllBound(hashes, st, sources[..i])
      {
        ghost var now := st;
        ghost var c;
        ok, c := FetchIfNeeded(sources[i]);
        if !ok {
          if hashes.Injective() { ContentsStay(hashes, before, st); }
          contents := contents + [c];
          return;
        }
        OneMoreProvided(hashes, stores, sources, contents, i, st, c);
        GrowOn(hashes, stores, st);
        stores, contents := stores + [st], contents + [c];
        AllBoundStay(hashes, now, st, sources[..i]);
        OneMoreBound(hashes, st, sources, i);
      }
      assert sources[..|sources|] == sources;
      ByLength(hashes, st, sources);
      if hashes.Injective() { ContentsStay(hashes, before, st); }
      AllObtained(hashes, stores, sources, contents);
      return true, stores, contents;
    }
  }

  /** A source in its turn: there already, and then nothing happens; or fetched with content `c`, and stored. */
  ghost predicate Provided(h: Hashes, before: Store, after: Store, s: SimpleSource, c: Bytes) {
    if IsFetched(before, s) then after == before
    else
      && Delivers(h, s, c) && SameStored(after, AfterFetch(h, before, s, c))
      && (s.legacy ==> h.Sha1Sum(c) !in before.links)
  }

  /** It has to be fetched, and the content is not what was asked for or is already known under its sha1. */
  ghost predicate Unfetchable(h: Hashes, st: Store, s: SimpleSource, c: Bytes) {
    !IsFetched(st, s) && (!Delivers(h, s, c) || (s.legacy && h.Sha1Sum(c) in st.links))
  }

  /** The stores between the sources of a list, from the first to the last. */
  ghost predicate AllProvided(h: Hashes, stores: seq<Store>, sources: seq<SimpleSource>, contents: seq<Bytes>) {
    && |stores| == |sources| + 1 && |contents| == |sources|
    && forall i :: 0 <= i < |sources| ==> Provided(h, stores[i], stores[i + 1], sources[i], contents[i])
  }

  /** The content is stored in its own directory under the source's name, and linked for a legacy package. */
  ghost predicate Stored(h: Hashes, st: Store, s: SimpleSource, c: Bytes) {
    var entry := Entry(h.Sha256Sum(c), s.file);
    && entry in st.files && h.Sha256Sum(st.files[entry]) == h.Sha256Sum(c)
    && (s.legacy ==> h.Sha1Sum(c) in st.links && st.links[h.Sha1Sum(c)] == h.Sha256Sum(c))
  }

  /** In the end the `i`th source has been there from the start, is stored, or came with an earlier one. */
  ghost predicate Obtained(h: Hashes, stores: seq<Store>, s: SimpleSource, i: nat, c: Bytes)
    requires i < |stores|
  {
    || IsFetched(stores[0], s)
    || (Delivers(h, s, c) && Stored(h, stores[|stores| - 1], s, c))
    || exists k :: 0 <= k < i && !IsFetched(stores[k], s) && IsFetched(stores[k + 1], s)
  }

  /** Each of the stores is in order, and has only grown since. */
  ghost predicate Growing(h: Hashes, stores: seq<Store>) {
    stores != [] && forall k :: 0 <= k < |stores| ==> Indexed(h, stores[k]) && Grows(stores[k], stores[|stores| - 1])
  }

  lemma StartGrowing(h: Hashes, st: Store)
    requires Indexed(h, st)
    ensures Growing(h, [st]) && AllProvided(h, [st], [], [])
  {}

  lemma GrowOn(h: Hashes, stores: seq<Store>, after: Store)
    requires Growing(h, stores) && Indexed(h, after) && Grows(stores[|stores| - 1], after)
    ensures Growing(h, stores + [after])
  {
    var more := stores + [after];
    forall k | 0 <= k < |more|
      ensures Indexed(h, more[k]) && Grows(more[k], after)
    {
      if k < |stores| { GrowsOnwards(stores[k], stores[|stores| - 1], after); }
    }
  }

  lemma GrowsOnwards(a: Store, b: Store, c: Store)
    requires Grows(a, b) && Grows(b, c)
    ensures Grows(a, c)
  {}

  lemma OneMoreProvided(h: Hashes, stores: seq<Store>, sources: seq<SimpleSource>, contents: seq<Bytes>, i: nat,
                        after: Store, c: Bytes)
    requires i < |sources| && AllProvided(h, stores, sources[..i], contents)
    requires Provided(h, stores[i], after, sources[i], c)
    ensures AllProvided(h, stores + [after], sources[..i + 1], contents + [c])
  {
    hide Provided;
  }

  lemma AllObtained(h: Hashes, stores: seq<Store>, sources: seq<SimpleSource>, contents: seq<Bytes>)
    requires Growing(h, stores) && AllProvided(h, stores, sources, contents)
    ensures forall i :: 0 <= i < |sources| ==> Obtained(h, stores, sources[i], i, contents[i])
  {
    hide Indexed, Grows, IsFetched, Delivers, Stored;
    forall i | 0 <= i < |sources|
      ensures Obtained(h, stores, sources[i], i, contents[i])
    {
      if IsFetched(stores[i], sources[i]) {
        FirstFetched(stores, sources[i], i);
      } else {
        FetchedIsStored(h, stores[i], stores[i + 1], sources[i], contents[i]);
        StoredStays(h, stores[i + 1], stores[|stores| - 1], sources[i], contents[i]);
      }
    }
  }

  lemma FetchedIsStored(h: Hashes, a: Store, b: Store, s: SimpleSource, c: Bytes)
    requires SameStored(b, AfterFetch(h, a, s, c))
    ensures Stored(h, b, s, c)
  {}

  lemma StoredStays(h: Hashes, a: Store, b: Store, s: SimpleSource, c: Bytes)
    requires Indexed(h, a) && Indexed(h, b) && Grows(a, b) && Stored(h, a, s, c)
    ensures Stored(h, b, s, c)
  {}

  /** What is there later was there at first or came at some step. */
  lemma {:induction false} FirstFetched(stores: seq<Store>, s: SimpleSource, i: nat)
    requires i < |stores| && IsFetched(stores[i], s)
    ensures IsFetched(stores[0], s) || exists k :: 0 <= k < i && !IsFetched(stores[k], s) && IsFetched(stores[k + 1], s)
  {
    if i > 0 && IsFetched(stores[i - 1], s) { FirstFetched(stores, s, i - 1); }
  }

  ghost predicate AllBound(h: Hashes, st: Store, sources: seq<SimpleSource>) {
    forall s :: s in sources && Checked(s) ==> Bound(h, st, s)
  }

  /**
   Of the HTTP sources that are not legacy and have a lower-case hex validator, exactly those whose validator is
   as long as a sha256 are bound to content that hashes to it.
   */
  ghost predicate BoundByLength(h: Hashes, st: Store, sources: seq<SimpleSource>) {
    forall s :: s in sources && s.http && !s.legacy && LowerHex(s.validator) ==>
      (Bound(h, st, s) <==> |s.validator| == 64)
  }

  lemma NoneBound(h: Hashes, st: Store)
    ensures AllBound(h, st, [])
  {}

  lemma OneMoreBound(h: Hashes, st: Store, sources: seq<SimpleSource>, i: nat)
    requires i < |sources| && AllBound(h, st, sources[..i]) && (Checked(sources[i]) ==> Bound(h, st, sources[i]))
    ensures AllBound(h, st, sources[..i + 1])
  {
    assert sources[..i + 1] == sources[..i] + [sources[i]];
  }

  lemma ByLength(h: Hashes, st: Store, sources: seq<SimpleSource>)
    requires h.Sized() && h.InHex() && Indexed(h, st) && AllBound(h, st, sources)
    ensures BoundByLength(h, st, sources)
  {}

  lemma AllBoundStay(h: Hashes, a: Store, b: Store, sources: seq<SimpleSource>)
    requires Indexed(h, a) && Indexed(h, b) && Grows(a, b) && AllBound(h, a, sources)
    ensures AllBound(h, b, sources)
  {}
}
