/**
 The package history: the commits of a package directory, deduplicated by release, newest release first,
 cut to ten; and the reproducible-build timestamp read off it. The update map is visited in any order.
 */
module PackageHistories {
  import opened Wrappers

  const MAX_CHANGELOG_ENTRIES := 10

  datatype Package = Package(release: int, version: string)

  /** A commit; `pkg` is absent when its package file is missing or malformed. Times are instants. */
  datatype Update = Update(objectID: string, time: int, pkg: Option<Package>)

  predicate Usable(u: Update) { u.pkg.Some? }

  /** Only read for usable commits. */
  function Release(u: Update): int { if u.pkg.Some? then u.pkg.value.release else -1 }

  function Version(u: Update): string { if u.pkg.Some? then u.pkg.value.version else "" }

  // ---------------------------------------------------------------- what a history is

  /** No commit of the same release is earlier. */
  ghost predicate Earliest(u: Update, us: set<Update>) {
    u in us && Usable(u) && forall v :: v in us && Usable(v) && Release(v) == Release(u) ==> u.time <= v.time
  }

  predicate AllUsable(l: seq<Update>) { forall i :: 0 <= i < |l| ==> Usable(l[i]) }

  predicate Decreasing(l: seq<Update>) {
    forall i, j :: 0 <= i < j < |l| ==> Release(l[i]) > Release(l[j])
  }

  predicate Lists(l: seq<Update>, release: int) {
    exists i :: 0 <= i < |l| && Release(l[i]) == release
  }

  /** The earliest commits of the (at most ten) highest releases, highest first. */
  ghost predicate IsHistory(l: seq<Update>, us: set<Update>) {
    && |l| <= MAX_CHANGELOG_ENTRIES
    && (forall i :: 0 <= i < |l| ==> Earliest(l[i], us))
    && Decreasing(l)
    && (forall u {:trigger Covered(l, u)} :: u in us && Usable(u) ==> Covered(l, u))
  }

  /** The commit's release is listed, or lies below a full list. */
  predicate Covered(l: seq<Update>, u: Update) {
    Lists(l, Release(u)) || (|l| == MAX_CHANGELOG_ENTRIES && Release(u) < Release(l[MAX_CHANGELOG_ENTRIES - 1]))
  }

  /** Author times within a release are distinct. */
  ghost predicate DistinctTimes(us: set<Update>) {
    forall u, v :: u in us && v in us && Usable(u) && Usable(v) ==>
      Release(u) == Release(v) && u.time == v.time ==> u == v
  }

  /** A listed release reappears in any other history of the same commits, unless that one ends above it. */
  lemma ListedElsewhere(l: seq<Update>, m: seq<Update>, us: set<Update>, i: nat) returns (j: nat)
    requires IsHistory(l, us) && IsHistory(m, us) && i < |l|
    ensures j < |m| ==> Release(m[j]) == Release(l[i])
    ensures j >= |m| ==> |m| == MAX_CHANGELOG_ENTRIES && Release(l[i]) < Release(m[MAX_CHANGELOG_ENTRIES - 1])
  {
    assert Earliest(l[i], us) && Covered(m, l[i]);
    if Lists(m, Release(l[i])) {
      j :| 0 <= j < |m| && Release(m[j]) == Release(l[i]);
    } else {
      j := |m|;
    }
  }

  lemma {:induction false} SameReleases(l: seq<Update>, m: seq<Update>, us: set<Update>, n: nat)
    requires IsHistory(l, us) && IsHistory(m, us) && n <= |l| && n <= |m|
    ensures forall i :: 0 <= i < n ==> Release(l[i]) == Release(m[i])
    decreases n
  {
    if n > 0 {
      SameReleases(l, m, us, n - 1);
      var j := ListedElsewhere(l, m, us, n - 1);
      var k := ListedElsewhere(m, l, us, n - 1);
    }
  }

  lemma NotShorter(l: seq<Update>, m: seq<Update>, us: set<Update>)
    requires IsHistory(l, us) && IsHistory(m, us)
    ensures |m| <= |l|
  {
    if |l| < |m| {
      SameReleases(l, m, us, |l|);
      var j := ListedElsewhere(m, l, us, |l|);
    }
  }

  /**
   The commits determine their history: always its releases and times, and the whole list when author
   times within a release are distinct. So the order in which the map is visited cannot matter.
   */
  lemma HistoryIsDetermined(l: seq<Update>, m: seq<Update>, us: set<Update>)
    requires IsHistory(l, us) && IsHistory(m, us)
    ensures |l| == |m|
    ensures forall i :: 0 <= i < |l| ==> Release(l[i]) == Release(m[i]) && l[i].time == m[i].time
    ensures DistinctTimes(us) ==> l == m
  {
    NotShorter(l, m, us);
    NotShorter(m, l, us);
    SameReleases(l, m, us, |l|);
    assert forall i :: 0 <= i < |l| ==> Earliest(l[i], us) && Earliest(m[i], us);
  }

  function Releases(us: set<Update>): set<int> { set u | u in us && Usable(u) :: Release(u) }

  /** It has as many entries as there are releases, up to ten. */
  lemma HistoryLength(l: seq<Update>, us: set<Update>)
    requires IsHistory(l, us)
    ensures |l| == if |Releases(us)| <= MAX_CHANGELOG_ENTRIES then |Releases(us)| else MAX_CHANGELOG_ENTRIES
  {
    var listed := set i | 0 <= i < |l| :: Release(l[i]);
    ListedCount(l, |l|);
    assert forall i :: 0 <= i < |l| ==> Earliest(l[i], us);
    assert listed <= Releases(us);
    SubsetSize(listed, Releases(us));
    if |l| < MAX_CHANGELOG_ENTRIES {
      forall r | r in Releases(us)
        ensures r in listed
      {
        var u :| u in us && Usable(u) && Release(u) == r;
        assert Covered(l, u);
      }
      assert Releases(us) == listed;
    }
  }

  lemma {:induction false} ListedCount(l: seq<Update>, n: nat)
    requires Decreasing(l) && n <= |l|
    ensures |(set i | 0 <= i < n :: Release(l[i]))| == n
    decreases n
  {
    if n > 0 {
      ListedCount(l, n - 1);
      assert (set i | 0 <= i < n :: Release(l[i])) ==
             (set i | 0 <= i < n - 1 :: Release(l[i])) + {Release(l[n - 1])};
    }
  }

  lemma {:induction false} SubsetSize<T>(a: set<T>, b: set<T>)
    requires a <= b
    ensures |a| <= |b|
    decreases |a|
  {
    if a != {} {
      var x :| x in a;
      SubsetSize(a - {x}, b - {x});
    }
  }

  // ---------------------------------------------------------------- the timestamp

  /** How many leading entries share the newest version, given that the first `k` do. */
  function RunFrom(l: seq<Update>, k: nat): (n: nat)
    requires 1 <= k <= |l| && forall i :: 0 <= i < k ==> Version(l[i]) == Version(l[0])
    ensures k <= n <= |l|
    ensures forall i :: 0 <= i < n ==> Version(l[i]) == Version(l[0])
    ensures n < |l| ==> Version(l[n]) != Version(l[0])
    decreases |l| - k
  {
    if k < |l| && Version(l[k]) == Version(l[0]) then RunFrom(l, k + 1) else k
  }

  function LeadingRun(l: seq<Update>): (k: nat)
    requires |l| >= 1
    ensures 1 <= k <= |l|
  {
    RunFrom(l, 1)
  }

  lemma LeadingRunIs(l: seq<Update>, k: nat)
    requires 1 <= k <= |l|
    requires forall i :: 0 <= i < k ==> Version(l[i]) == Version(l[0])
    requires k < |l| ==> Version(l[k]) != Version(l[0])
    ensures LeadingRun(l) == k
  {}

  /** The time of the oldest listed commit with the newest version. */
  function Timestamp(l: seq<Update>): int
    requires |l| >= 1
  {
    l[LeadingRun(l) - 1].time
  }

  // ---------------------------------------------------------------- stability

  /** A later commit of a release that is already there changes nothing, even among ties. */
  lemma LateCommitIsIgnored(l: seq<Update>, us: set<Update>, e: Update, c: Update)
    requires e in us && Usable(e) && Usable(c) && Release(e) == Release(c) && e.time < c.time
    ensures IsHistory(l, us) <==> IsHistory(l, us + {c})
  {
    if IsHistory(l, us) {
      assert forall i :: 0 <= i < |l| && Release(l[i]) == Release(c) ==> l[i].time <= e.time;
      assert Covered(l, e) && Covered(l, c);
      assert forall i :: 0 <= i < |l| ==> Earliest(l[i], us + {c});
    }
    if IsHistory(l, us + {c}) {
      forall i | 0 <= i < |l|
        ensures Earliest(l[i], us)
      {
        assert Earliest(l[i], us + {c}) && e in us + {c};
        assert forall v :: v in us ==> v in us + {c};
      }
      forall u | u in us && Usable(u)
        ensures Covered(l, u)
      {
        assert u in us + {c};
      }
    }
  }

  function Reverse(b: seq<Update>): seq<Update> {
    seq(|b|, i requires 0 <= i < |b| => b[|b| - 1 - i])
  }

  function Cut(l: seq<Update>): seq<Update> {
    if |l| <= MAX_CHANGELOG_ENTRIES then l else l[..MAX_CHANGELOG_ENTRIES]
  }

  function Elements(b: seq<Update>): set<Update> { set i | 0 <= i < |b| :: b[i] }

  /** New commits, each of a release above everything before it. */
  ghost predicate Above(b: seq<Update>, us: set<Update>) {
    AllUsable(b)
    && (forall i, j :: 0 <= i < j < |b| ==> Release(b[i]) < Release(b[j]))
    && (forall i, u :: 0 <= i < |b| && u in us && Usable(u) ==> Release(u) < Release(b[i]))
  }

  lemma GrownIsHistory(l: seq<Update>, us: set<Update>, b: seq<Update>)
    requires IsHistory(l, us) && Above(b, us)
    ensures IsHistory(Cut(Reverse(b) + l), us + Elements(b))
  {
    GrownEarliest(l, us, b);
    forall u | u in us + Elements(b) && Usable(u)
      ensures Covered(Cut(Reverse(b) + l), u)
    {
      GrownCovered(l, us, b, u);
    }
  }

  lemma GrownEarliest(l: seq<Update>, us: set<Update>, b: seq<Update>)
    requires IsHistory(l, us) && Above(b, us)
    ensures forall i :: 0 <= i < |b| + |l| ==> Earliest((Reverse(b) + l)[i], us + Elements(b))
    ensures Decreasing(Reverse(b) + l)
  {}

  lemma GrownCovered(l: seq<Update>, us: set<Update>, b: seq<Update>, u: Update)
    requires IsHistory(l, us) && Above(b, us) && u in us + Elements(b) && Usable(u)
    ensures Covered(Cut(Reverse(b) + l), u)
  {
    GrownEarliest(l, us, b);
    var m := Reverse(b) + l;
    var at := GrownPlace(l, us, b, u);
    if at < |m| {
      if at < MAX_CHANGELOG_ENTRIES {
        assert Cut(m)[at] == m[at];
      } else {
        assert Release(m[MAX_CHANGELOG_ENTRIES - 1]) > Release(m[at]);
      }
    } else {
      assert m[|b| + MAX_CHANGELOG_ENTRIES - 1] == l[MAX_CHANGELOG_ENTRIES - 1];
      assert |b| > 0 ==> Release(m[MAX_CHANGELOG_ENTRIES - 1]) > Release(m[|b| + MAX_CHANGELOG_ENTRIES - 1]);
    }
  }

  /** Where a commit's release stands in the uncut list, or past its end when `l` had already cut it off. */
  lemma GrownPlace(l: seq<Update>, us: set<Update>, b: seq<Update>, u: Update) returns (at: nat)
    requires IsHistory(l, us) && Above(b, us) && u in us + Elements(b) && Usable(u)
    ensures at < |b| + |l| ==> Usable((Reverse(b) + l)[at]) && Release((Reverse(b) + l)[at]) == Release(u)
    ensures at >= |b| + |l| ==> |l| == MAX_CHANGELOG_ENTRIES && Release(u) < Release(l[MAX_CHANGELOG_ENTRIES - 1])
  {
    if u in us {
      assert Covered(l, u);
      if Lists(l, Release(u)) {
        var i :| 0 <= i < |l| && Release(l[i]) == Release(u);
        at := |b| + i;
      } else {
        at := |b| + |l|;
      }
    } else {
      var i :| 0 <= i < |b| && b[i] == u;
      at := |b| - 1 - i;
    }
  }

  /** Prepending one commit of the same version. */
  lemma PrependTimestamp(l: seq<Update>, c: Update)
    requires 1 <= |l| <= MAX_CHANGELOG_ENTRIES && Version(c) == Version(l[0])
    ensures Timestamp(Cut([c] + l)) == Timestamp(l) <==>
            LeadingRun(l) < MAX_CHANGELOG_ENTRIES
            || l[MAX_CHANGELOG_ENTRIES - 2].time == l[MAX_CHANGELOG_ENTRIES - 1].time
  {
    var m, k := Cut([c] + l), LeadingRun(l);
    assert forall i :: 0 < i < |m| ==> m[i] == l[i - 1];
    LeadingRunIs(m, if k < MAX_CHANGELOG_ENTRIES then k + 1 else MAX_CHANGELOG_ENTRIES);
  }

  /** Prepending a whole series of another version. */
  lemma SeriesOnTop(l: seq<Update>, b: seq<Update>)
    requires |b| >= 1 && forall i :: 0 <= i < |b| ==> Version(b[i]) == Version(b[0])
    requires |l| >= 1 ==> Version(l[0]) != Version(b[0])
    ensures Timestamp(Cut(Reverse(b) + l)) ==
            if |b| <= MAX_CHANGELOG_ENTRIES then b[0].time else b[|b| - MAX_CHANGELOG_ENTRIES].time
  {
    var m, k := Cut(Reverse(b) + l), if |b| <= MAX_CHANGELOG_ENTRIES then |b| else MAX_CHANGELOG_ENTRIES;
    assert forall i :: 0 <= i < k ==> m[i] == b[|b| - 1 - i];
    assert k < |m| ==> m[k] == l[0];
    LeadingRunIs(m, k);
  }

  lemma GrownHistory(l: seq<Update>, us: set<Update>, b: seq<Update>, l': seq<Update>)
    requires IsHistory(l, us) && Above(b, us)
    requires IsHistory(l', us + Elements(b)) && DistinctTimes(us + Elements(b))
    ensures l' == Cut(Reverse(b) + l)
  {
    GrownIsHistory(l, us, b);
    HistoryIsDetermined(l', Cut(Reverse(b) + l), us + Elements(b));
  }

  /**
   One bump (a new release of the same version) leaves the timestamp alone exactly when the leading run
   was shorter than ten, or the entry that falls off carried the same time as the one before it.
   */
  lemma BumpKeepsTimestamp(l: seq<Update>, us: set<Update>, c: Update, l': seq<Update>)
    requires IsHistory(l, us) && |l| >= 1 && Above([c], us) && Version(c) == Version(l[0])
    requires IsHistory(l', us + {c}) && DistinctTimes(us + {c})
    ensures |l'| >= 1
    ensures Timestamp(l') == Timestamp(l) <==>
            LeadingRun(l) < MAX_CHANGELOG_ENTRIES
            || l[MAX_CHANGELOG_ENTRIES - 2].time == l[MAX_CHANGELOG_ENTRIES - 1].time
  {
    assert [c][0] in Elements([c]) && Elements([c]) == {c};
    assert Reverse([c]) == [c];
    GrownHistory(l, us, [c], l');
    PrependTimestamp(l, c);
  }

  /**
   The law over a whole series: after a new version and any number of bumps, the timestamp is the time of
   the new version's first commit for up to ten commits, and from then on drifts with the window.
   */
  lemma SeriesTimestamp(l: seq<Update>, us: set<Update>, b: seq<Update>, l': seq<Update>)
    requires IsHistory(l, us) && Above(b, us) && |b| >= 1
    requires forall i :: 0 <= i < |b| ==> Version(b[i]) == Version(b[0])
    requires |l| >= 1 ==> Version(l[0]) != Version(b[0])
    requires IsHistory(l', us + Elements(b)) && DistinctTimes(us + Elements(b))
    ensures |l'| >= 1
    ensures Timestamp(l') == if |b| <= MAX_CHANGELOG_ENTRIES then b[0].time else b[|b| - MAX_CHANGELOG_ENTRIES].time
  {
    GrownHistory(l, us, b, l');
    SeriesOnTop(l, b);
  }

  // ---------------------------------------------------------------- the code

  /** `SortUpdatesByRelease.Less`. */
  predicate Less(a: Update, b: Update) {
    if Release(a) == Release(b) then a.time < b.time else Release(a) < Release(b)
  }

  /** Nothing stands before a greater one. */
  predicate SortedDown(l: seq<Update>) {
    forall i, j :: 0 <= i < j < |l| ==> !Less(l[i], l[j])
  }

  /** `sort.Sort(sort.Reverse(..))` in place, by the insertion sort the library uses for short lists. */
  method SortReverse(a: array<Update>)
    modifies a
    ensures SortedDown(a[..])
    ensures multiset(a[..]) == multiset(old(a[..]))
  {
    for i := 0 to a.Length
      invariant forall k, m :: 0 <= k < m < i ==> !Less(a[k], a[m])
      invariant multiset(a[..]) == multiset(old(a[..]))
    {
      var j := i;
      while j > 0 && Less(a[j - 1], a[j])
        invariant 0 <= j <= i
          invariant forall k, m :: 0 <= k < m <= i && m != j ==> !Less(a[k], a[m])
        invariant forall m :: j < m <= i ==> Less(a[m], a[j])
        invariant multiset(a[..]) == multiset(old(a[..]))
      {
        a[j - 1], a[j] := a[j], a[j - 1];
        j := j - 1;
      }
    }
  }

  class PackageHistory {
    var Updates: seq<Update>

    constructor ()
      ensures Updates == []
    {
      Updates := [];
    }

    /** Both map iterations pick their next key freely. */
    method ScanUpdates(updates: map<string, Update>)
      modifies this
      ensures IsHistory(Updates, updates.Values)
    {
      var updateSet := Deduplicate(updates);
      var list := Collect(updateSet);
      var a := new Update[|list|](i requires 0 <= i < |list| => list[i]);
      assert a[..] == list;
      SortReverse(a);
      PermutationKeepsDistinct(list, a[..]);
      SortedCollection(updates.Values, updateSet, a[..]);
      Updates := if a.Length >= MAX_CHANGELOG_ENTRIES then a[..MAX_CHANGELOG_ENTRIES] else a[..];
      assert Updates == Cut(a[..]);
    }

    method GetLastVersionTimestamp() returns (t: int)
      requires |Updates| >= 1
      ensures t == Timestamp(Updates)
    {
      var lastVersion := Version(Updates[0]);
      var lastTime := Updates[0].time;
      if |Updates| < 2 {
        return lastTime;
      }
      var i := 1;
      while i < |Updates|
        invariant 1 <= i <= |Updates|
        invariant forall k :: 0 <= k < i ==> Version(Updates[k]) == Version(Updates[0])
        invariant lastVersion == Version(Updates[0]) && lastTime == Updates[i - 1].time
      {
        var newVersion := Version(Updates[i]);
        if newVersion != lastVersion {
          break;
        }
        lastVersion := newVersion;
        lastTime := Updates[i].time;
        i := i + 1;
      }
      LeadingRunIs(Updates, i);
      t := lastTime;
    }
  }

  /** For every release met so far, the earliest commit met so far. */
  ghost predicate Deduplicated(updateSet: map<int, Update>, us: set<Update>) {
    && (forall r :: r in updateSet ==> Earliest(updateSet[r], us) && Release(updateSet[r]) == r)
    && (forall u :: u in us && Usable(u) ==> Release(u) in updateSet)
  }

  function Chosen(updateSet: map<int, Update>): set<Update> { set r | r in updateSet :: updateSet[r] }

  method Deduplicate(updates: map<string, Update>) returns (updateSet: map<int, Update>)
    ensures Deduplicated(updateSet, updates.Values)
  {
    updateSet := map[];
    var todo := updates.Keys;
    ghost var met: set<Update> := {};
    while todo != {}
      invariant todo <= updates.Keys
      invariant met == set k | k in updates.Keys - todo :: updates[k]
      invariant Deduplicated(updateSet, met)
    {
      var key :| key in todo;
      var update := updates[key];
      todo := todo - {key};
      met := met + {update};
      assert met == set k | k in updates.Keys - todo :: updates[k];
      if update.pkg == None {
        continue;
      }
      var release := update.pkg.value.release;
      if release in updateSet && updateSet[release].time < update.time {
        continue;
      }
      updateSet := updateSet[release := update];
    }
    assert met == updates.Values;
  }

  predicate DistinctReleases(l: seq<Update>) {
    forall i, j :: 0 <= i < j < |l| ==> Release(l[i]) != Release(l[j])
  }

  method Collect(updateSet: map<int, Update>) returns (list: seq<Update>)
    requires forall r :: r in updateSet ==> Release(updateSet[r]) == r
    ensures DistinctReleases(list)
    ensures forall u :: u in list <==> u in Chosen(updateSet)
  {
    list := [];
    var todo := Chosen(updateSet);
    while todo != {}
      invariant todo <= Chosen(updateSet)
      invariant DistinctReleases(list)
      invariant forall u :: u in list <==> u in Chosen(updateSet) - todo
    {
      var update :| update in todo;
      assert forall u :: u in Chosen(updateSet) ==> Release(u) in updateSet && updateSet[Release(u)] == u;
      forall i | 0 <= i < |list|
        ensures Release(list[i]) != Release(update)
      {
        assert list[i] in list;
      }
      list := list + [update];
      todo := todo - {update};
    }
  }

  lemma SortedCollection(us: set<Update>, updateSet: map<int, Update>, a: seq<Update>)
    requires Deduplicated(updateSet, us) && SortedDown(a) && DistinctReleases(a)
    requires forall u :: u in a <==> u in Chosen(updateSet)
    ensures IsHistory(Cut(a), us)
  {
    forall i | 0 <= i < |a|
      ensures Earliest(a[i], us)
    {
      assert a[i] in a;
    }
    assert Decreasing(a);
    forall u | u in us && Usable(u)
      ensures Covered(Cut(a), u)
    {
      var v := updateSet[Release(u)];
      assert v in Chosen(updateSet) && v in a;
      var i :| 0 <= i < |a| && a[i] == v;
      assert i < MAX_CHANGELOG_ENTRIES ==> Cut(a)[i] == v;
    }
  }

  lemma PermutationKeepsDistinct(list: seq<Update>, a: seq<Update>)
    requires DistinctReleases(list) && multiset(a) == multiset(list)
    ensures DistinctReleases(a)
    ensures forall u :: u in a <==> u in list
  {
    assert forall u :: u in a <==> u in multiset(a);
    assert forall u :: u in list <==> u in multiset(list);
    forall i, j | 0 <= i < j < |a|
      ensures Release(a[i]) != Release(a[j])
    {
      assert a == a[..j] + a[j..] && a[i] in a[..j] && a[j] in a[j..];
      if a[i] == a[j] {
        assert multiset(a)[a[i]] >= 2;
        OnceInDistinct(list, a[i]);
      } else {
        assert a[i] in multiset(list) && a[j] in multiset(list);
      }
    }
  }

  lemma {:induction false} OnceInDistinct(list: seq<Update>, u: Update)
    requires DistinctReleases(list)
    ensures multiset(list)[u] <= 1
    decreases |list|
  {
    if list != [] {
      var rest := list[..|list| - 1];
      OnceInDistinct(rest, u);
      assert list == rest + [list[|list| - 1]];
      assert u == list[|list| - 1] ==> u !in rest;
    }
  }
}
