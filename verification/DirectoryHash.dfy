/** Hashing a directory: walk it in whatever order the file system lists it, sort by relative path,
    and feed paths and contents to the hash. */
module DirectoryHash {
  import opened Basics

  type Bytes = seq<Byte>

  const SLASH: Byte := 47

  /** What is on disk. A directory lists its names in no particular order. */
  datatype Node = File(content: Bytes) | Dir(entries: map<Bytes, Node>)

  /** Reading the file at a path. */
  function Lookup(n: Node, path: seq<Bytes>): Option<Bytes>
    decreases |path|
  {
    if path == [] then if n.File? then Some(n.content) else None
    else if n.Dir? && path[0] in n.entries then Lookup(n.entries[path[0]], path[1..])
    else None
  }

  /** The paths of all files below a node. */
  ghost function Paths(n: Node): set<seq<Bytes>>
    decreases n
  {
    match n
    case File(_) => {[]}
    case Dir(es) => set name, p | name in es && p in Paths(es[name]) :: [name] + p
  }

  lemma {:induction false} PathsAreFiles(n: Node, path: seq<Bytes>)
    ensures path in Paths(n) <==> Lookup(n, path).Some?
    decreases |path|
  {
    if n.Dir? {
      if path != [] && path[0] in n.entries {
        PathsAreFiles(n.entries[path[0]], path[1..]);
        assert path == [path[0]] + path[1..];
      }
      forall name, p | name in n.entries && p in Paths(n.entries[name]) && [name] + p == path
        ensures Lookup(n, path).Some?
      {
        assert path[0] == name && path[1..] == p;
      }
    }
  }

  /** A file name as file systems allow it. */
  predicate ValidName(name: Bytes) {
    name != [] && SLASH !in name && 0 !in name
  }

  predicate ValidPath(path: seq<Bytes>) {
    path != [] && forall i :: 0 <= i < |path| ==> ValidName(path[i])
  }

  /** A directory whose names are all valid. */
  ghost predicate ValidDir(n: Node) {
    n.Dir? && forall p :: p in Paths(n) ==> ValidPath(p)
  }

  /** The relative path of a file, its names joined by slashes. */
  function Joined(path: seq<Bytes>): Bytes {
    if path == [] then []
    else if |path| == 1 then path[0] else path[0] + [SLASH] + Joined(path[1..])
  }

  /** A relative path names one file: it can be split again at its slashes. */
  lemma {:induction false} JoinedInjective(p: seq<Bytes>, q: seq<Bytes>)
    requires ValidPath(p) && ValidPath(q) && Joined(p) == Joined(q)
    ensures p == q
  {
    SplitFirst(p);
    SplitFirst(q);
    var n, m := |p[0]|, |q[0]|;
    FirstSlash(Joined(p), p[0], q[0]);
    assert p[0] == Joined(p)[..n] == Joined(q)[..m] == q[0];
    if |p| > 1 && |q| > 1 {
      assert Joined(p)[n + 1..] == Joined(p[1..]) && Joined(q)[m + 1..] == Joined(q[1..]);
      JoinedInjective(p[1..], q[1..]);
      assert p == [p[0]] + p[1..] && q == [q[0]] + q[1..];
    }
  }

  lemma FirstSlash(s: Bytes, a: Bytes, b: Bytes)
    requires |a| <= |s| && s[..|a|] == a && SLASH !in a && (|a| < |s| ==> s[|a|] == SLASH)
    requires |b| <= |s| && s[..|b|] == b && SLASH !in b && (|b| < |s| ==> s[|b|] == SLASH)
    ensures |a| == |b|
  {
    assert forall i :: 0 <= i < |a| ==> s[i] == a[i] && a[i] != SLASH;
    assert forall i :: 0 <= i < |b| ==> s[i] == b[i] && b[i] != SLASH;
  }

  lemma SplitFirst(p: seq<Bytes>)
    requires ValidPath(p)
    ensures |p[0]| <= |Joined(p)| && Joined(p)[..|p[0]|] == p[0]
    ensures |p| > 1 <==> |p[0]| < |Joined(p)|
    ensures |p| > 1 ==> Joined(p)[|p[0]|] == SLASH
  {
  }

  // ---- byte order ----

  /** The order of Rust strings: byte by byte, a prefix before what extends it. */
  predicate Before(a: Bytes, b: Bytes) {
    if b == [] then false
    else if a == [] then true
    else a[0] < b[0] || (a[0] == b[0] && Before(a[1..], b[1..]))
  }

  lemma {:induction false} BeforeIsTotal(a: Bytes, b: Bytes)
    ensures Before(a, b) || a == b || Before(b, a)
    ensures Before(a, b) ==> a != b && !Before(b, a)
  {
    if a != [] && b != [] {
      BeforeIsTotal(a[1..], b[1..]);
      assert a == [a[0]] + a[1..] && b == [b[0]] + b[1..];
    }
  }

  lemma {:induction false} BeforeIsTransitive(a: Bytes, b: Bytes, c: Bytes)
    requires Before(a, b) && Before(b, c)
    ensures Before(a, c)
  {
    if a != [] && a[0] == b[0] == c[0] {
      BeforeIsTransitive(a[1..], b[1..], c[1..]);
    }
  }

  /** Up to `k` the texts agree; there `a` ends or has the smaller byte. */
  predicate SmallerAt(a: Bytes, b: Bytes, k: nat) {
    k <= |a| && k < |b| && a[..k] == b[..k] && (k == |a| || a[k] < b[k])
  }

  lemma SmallerTail(a: Bytes, b: Bytes, k: nat)
    requires a != [] && b != [] && a[0] == b[0]
    ensures SmallerAt(a[1..], b[1..], k) <==> SmallerAt(a, b, k + 1)
  {
    assert a == [a[0]] + a[1..] && b == [b[0]] + b[1..];
    if k < |a| && k + 1 < |b| {
      assert a[..k + 1] == [a[0]] + a[1..][..k] && b[..k + 1] == [b[0]] + b[1..][..k];
      assert a[..k + 1][1..] == a[1..][..k] && b[..k + 1][1..] == b[1..][..k];
    }
  }

  lemma SameStart(a: Bytes, b: Bytes, k: nat)
    requires SmallerAt(a, b, k)
    ensures k > 0 ==> a != [] && a[0] == b[0]
  {
    if k > 0 {
      assert a[..k][0] == b[..k][0];
    }
  }

  /** The order is that of the first byte that differs, and a proper prefix comes first. */
  lemma {:induction false} BeforeIsFirstDifference(a: Bytes, b: Bytes)
    ensures Before(a, b) <==> exists k: nat :: SmallerAt(a, b, k)
  {
    if a == [] || b == [] || a[0] != b[0] {
      assert b != [] && (a == [] || a[0] < b[0]) ==> SmallerAt(a, b, 0);
      forall k: nat | SmallerAt(a, b, k)
        ensures k == 0
      {
        SameStart(a, b, k);
      }
    } else {
      BeforeIsFirstDifference(a[1..], b[1..]);
      if Before(a, b) {
        var k: nat :| SmallerAt(a[1..], b[1..], k);
        SmallerTail(a, b, k);
        assert SmallerAt(a, b, k + 1);
      }
      forall k: nat | SmallerAt(a, b, k)
        ensures Before(a, b)
      {
        if k > 0 {
          SmallerTail(a, b, k - 1);
          assert SmallerAt(a[1..], b[1..], k - 1);
        }
      }
    }
  }

  // ---- the listing and its byte stream ----

  datatype Item = Item(path: Bytes, content: Bytes)

  predicate Ascending(l: seq<Item>) {
    forall i, k :: 0 <= i < k < |l| ==> Before(l[i].path, l[k].path)
  }

  ghost predicate IsFile(root: Node, it: Item) {
    exists p :: p != [] && Lookup(root, p) == Some(it.content) && Joined(p) == it.path
  }

  /** All files of the tree, each once, in the order of their relative paths. */
  ghost predicate IsListing(root: Node, l: seq<Item>) {
    Ascending(l) && forall it :: it in l <==> IsFile(root, it)
  }

  function Serialize(l: seq<Item>): Bytes {
    if l == [] then [] else Record(l[0]) + Serialize(l[1..])
  }

  function Record(it: Item): Bytes {
    it.path + [0] + it.content + [0]
  }

  ghost predicate SameFiles(a: Node, b: Node) {
    forall p :: p != [] ==> Lookup(a, p) == Lookup(b, p)
  }

  lemma {:induction false} AscendingUnique(l: seq<Item>, m: seq<Item>)
    requires Ascending(l) && Ascending(m) && forall it :: it in l <==> it in m
    ensures l == m
  {
    var x := if l != [] then l[0] else if m != [] then m[0] else Item([], []);
    assert x in l <==> x in m;
    if l != [] {
      assert l[0] == m[0] by {
        assert l[0] in m && m[0] in l;
        BeforeIsTotal(l[0].path, m[0].path);
      }
      forall it
        ensures it in l[1..] <==> it in m[1..]
      {
        BeforeIsTotal(l[0].path, it.path);
        assert it in l <==> it in m;
        assert it in l[1..] ==> Before(l[0].path, it.path);
        assert it in m[1..] ==> Before(m[0].path, it.path);
      }
      AscendingUnique(l[1..], m[1..]);
    }
  }

  /** The stream is canonical: trees with the same files give the same listing, however each of them
      was enumerated. */
  lemma ListingIsCanonical(a: Node, b: Node, l: seq<Item>, m: seq<Item>)
    requires IsListing(a, l) && IsListing(b, m) && SameFiles(a, b)
    ensures Serialize(l) == Serialize(m)
  {
    forall it
      ensures it in l <==> it in m
    {
      assert it in l <==> IsFile(a, it);
      assert it in m <==> IsFile(b, it);
    }
    AscendingUnique(l, m);
  }

  // ---- reading the stream back ----

  function UpToNul(s: Bytes): (n: nat)
    ensures n <= |s| && (forall i :: 0 <= i < n ==> s[i] != 0) && (n < |s| ==> s[n] == 0)
  {
    if s == [] || s[0] == 0 then 0 else 1 + UpToNul(s[1..])
  }

  datatype Field = Field(text: Bytes, rest: Bytes)

  /** What stands before the next NUL byte, and what follows it. */
  function NextField(s: Bytes): (f: Option<Field>)
    ensures f.Some? ==> 0 !in f.value.text && |f.value.rest| < |s|
  {
    var n := UpToNul(s);
    if n == |s| then None else Some(Field(s[..n], s[n + 1..]))
  }

  function Parse(s: Bytes): (r: Option<seq<Item>>)
    ensures r.Some? ==> NulFree(r.value)
    decreases |s|
  {
    if s == [] then Some([])
    else
      var path := NextField(s);
      if path.None? then None
      else
        var content := NextField(path.value.rest);
        if content.None? then None
        else
          var rest := Parse(content.value.rest);
          if rest.None? then None else Some([Item(path.value.text, content.value.text)] + rest.value)
  }

  predicate NulFree(l: seq<Item>) {
    forall i :: 0 <= i < |l| ==> 0 !in l[i].path && 0 !in l[i].content
  }

  lemma NextFieldIs(text: Bytes, rest: Bytes)
    requires 0 !in text
    ensures NextField(text + [0] + rest) == Some(Field(text, rest))
  {
    var s, n := text + [0] + rest, |text|;
    assert forall i :: 0 <= i < n ==> s[i] == text[i] && text[i] != 0;
    assert s[n] == 0;
    assert s[..n] == text && s[n + 1..] == rest;
  }

  lemma ParseRecord(it: Item, tail: Bytes)
    requires 0 !in it.path && 0 !in it.content
    ensures var rest := Parse(tail);
      Parse(Record(it) + tail) == if rest.None? then None else Some([it] + rest.value)
  {
    NextFieldIs(it.path, it.content + [0] + tail);
    NextFieldIs(it.content, tail);
    RecordSplits(it, tail);
  }

  lemma RecordSplits(it: Item, tail: Bytes)
    ensures Record(it) + tail == it.path + [0] + (it.content + [0] + tail)
  {
  }

  /** Splitting the stream at its NUL bytes recovers the listing exactly when no path and no content
      has one. */
  lemma {:induction false} ParseSerialize(l: seq<Item>)
    ensures Parse(Serialize(l)) == Some(l) <==> NulFree(l)
  {
    if l != [] && NulFree(l) {
      ParseSerialize(l[1..]);
      ParseRecord(l[0], Serialize(l[1..]));
      assert [l[0]] + l[1..] == l;
    }
  }

  /** Equal streams mean equal trees, when no file holds a NUL byte. */
  lemma EqualStreamsEqualTrees(a: Node, b: Node, l: seq<Item>, m: seq<Item>)
    requires ValidDir(a) && ValidDir(b) && IsListing(a, l) && IsListing(b, m)
    requires NulFree(l) && NulFree(m) && Serialize(l) == Serialize(m)
    ensures SameFiles(a, b)
  {
    ParseSerialize(l);
    ParseSerialize(m);
    forall p | p != []
      ensures Lookup(a, p) == Lookup(b, p)
    {
      if Lookup(a, p).Some? {
        FoundInBoth(a, b, l, p);
      } else if Lookup(b, p).Some? {
        FoundInBoth(b, a, l, p);
      }
    }
  }

  lemma FoundInBoth(a: Node, b: Node, l: seq<Item>, p: seq<Bytes>)
    requires ValidDir(a) && ValidDir(b) && IsListing(a, l) && IsListing(b, l) && p != [] && Lookup(a, p).Some?
    ensures Lookup(b, p) == Lookup(a, p)
  {
    var it := Item(Joined(p), Lookup(a, p).value);
    assert IsFile(a, it) && it in l && IsFile(b, it);
    var q :| q != [] && Lookup(b, q) == Some(it.content) && Joined(q) == it.path;
    PathsAreFiles(a, p);
    PathsAreFiles(b, q);
    JoinedInjective(p, q);
  }

  /** A directory of one file. */
  function OneFile(a: Bytes, content: Bytes): Node {
    Dir(map[a := File(content)])
  }

  function TwoFiles(a: Bytes, x: Bytes, b: Bytes, y: Bytes): Node {
    Dir(map[a := File(x), b := File(y)])
  }

  lemma FlatLookup(dir: Node, p: seq<Bytes>)
    requires dir.Dir? && (forall name :: name in dir.entries ==> dir.entries[name].File?) && p != []
    ensures Lookup(dir, p)
      == if |p| == 1 && p[0] in dir.entries then Some(dir.entries[p[0]].content) else None
  {
    if |p| == 1 && p[0] in dir.entries {
      assert p[1..] == [];
    }
  }

  lemma FlatListing(dir: Node, l: seq<Item>)
    requires dir.Dir? && (forall name :: name in dir.entries ==> dir.entries[name].File? && ValidName(name))
    requires Ascending(l)
    requires forall it :: it in l <==> it.path in dir.entries && it.content == dir.entries[it.path].content
    ensures ValidDir(dir) && IsListing(dir, l)
  {
    forall p | p in Paths(dir)
      ensures ValidPath(p)
    {
      PathsAreFiles(dir, p);
      if p != [] {
        FlatLookup(dir, p);
      }
    }
    forall it
      ensures it in l <==> IsFile(dir, it)
    {
      if it in l {
        FlatLookup(dir, [it.path]);
        assert Joined([it.path]) == it.path;
      }
      if IsFile(dir, it) {
        var p :| p != [] && Lookup(dir, p) == Some(it.content) && Joined(p) == it.path;
        FlatLookup(dir, p);
      }
    }
  }

  /** With NUL bytes in a file the streams collide: any two files can be passed off as one, so two
      different directories have the same digest. */
  lemma NulCollides(a: Bytes, x: Bytes, b: Bytes, y: Bytes)
    requires ValidName(a) && ValidName(b) && Before(a, b)
    ensures var one, two := OneFile(a, x + [0] + b + [0] + y), TwoFiles(a, x, b, y);
      var l, m := [Item(a, x + [0] + b + [0] + y)], [Item(a, x), Item(b, y)];
      && ValidDir(one) && ValidDir(two) && IsListing(one, l) && IsListing(two, m)
      && Serialize(l) == Serialize(m) && !SameFiles(one, two)
  {
    var z := x + [0] + b + [0] + y;
    BeforeIsTotal(a, b);
    FlatListing(OneFile(a, z), [Item(a, z)]);
    FlatListing(TwoFiles(a, x, b, y), [Item(a, x), Item(b, y)]);
    assert [Item(a, x), Item(b, y)][1..] == [Item(b, y)] && [Item(b, y)][1..] == [] && [Item(a, z)][1..] == [];
    assert Serialize([Item(b, y)]) == Record(Item(b, y)) + [];
    assert Serialize([Item(a, z)]) == Record(Item(a, z)) + [];
    assert Record(Item(a, z)) == Record(Item(a, x)) + Record(Item(b, y));
    FlatLookup(OneFile(a, z), [b]);
    FlatLookup(TwoFiles(a, x, b, y), [b]);
    assert Lookup(OneFile(a, z), [b]) != Lookup(TwoFiles(a, x, b, y), [b]);
  }

  // ---- the code ----

  /** What the walk pushes for each file: its relative path as text, and where to read it. */
  datatype Entry = Entry(rel: Bytes, full: seq<Bytes>)

  function EntriesOf(paths: seq<seq<Bytes>>): (r: seq<Entry>)
    ensures |r| == |paths| && forall i :: 0 <= i < |r| ==> r[i] == Entry(Joined(paths[i]), paths[i])
  {
    seq(|paths|, i requires 0 <= i < |paths| => Entry(Joined(paths[i]), paths[i]))
  }

  predicate Distinct<T(==)>(s: seq<T>) {
    forall i, k :: 0 <= i < k < |s| ==> s[i] != s[k]
  }

  /** The files below `dir` that are reached through some of its names, as paths from the root. */
  ghost function Below(dir: Node, at: seq<Bytes>, names: set<Bytes>): set<seq<Bytes>>
    requires dir.Dir? && names <= dir.entries.Keys
  {
    set name, p | name in names && p in Paths(dir.entries[name]) :: at + [name] + p
  }

  lemma BelowOneMore(dir: Node, at: seq<Bytes>, names: set<Bytes>, name: Bytes)
    requires dir.Dir? && names <= dir.entries.Keys && name in dir.entries && name !in names
    ensures Below(dir, at, names + {name}) == Below(dir, at, names) + Below(dir, at, {name})
    ensures Below(dir, at, names) !! Below(dir, at, {name})
    ensures dir.entries[name].File? ==> Below(dir, at, {name}) == {at + [name]}
    ensures dir.entries[name].Dir? ==>
      Below(dir, at, {name}) == Below(dir.entries[name], at + [name], dir.entries[name].entries.Keys)
  {
    forall x | x in Below(dir, at, names)
      ensures x !in Below(dir, at, {name})
    {
      assert x[|at|] in names;
      assert forall y :: y in Below(dir, at, {name}) ==> y[|at|] == name;
    }
    var sub := dir.entries[name];
    if sub.File? {
      assert Paths(sub) == {[]} && at + [name] + [] == at + [name];
    } else {
      forall x
        ensures x in Below(dir, at, {name}) <==> x in Below(sub, at + [name], sub.entries.Keys)
      {
        if x in Below(dir, at, {name}) {
          var p :| p in Paths(sub) && x == at + [name] + p;
          var n, q :| n in sub.entries && q in Paths(sub.entries[n]) && p == [n] + q;
          assert x == at + [name] + [n] + q;
        }
        if x in Below(sub, at + [name], sub.entries.Keys) {
          var n, q :| n in sub.entries && q in Paths(sub.entries[n]) && x == at + [name] + [n] + q;
          assert [n] + q in Paths(sub) && x == at + [name] + ([n] + q);
        }
      }
    }
  }

  lemma DistinctAppend<T>(a: seq<T>, b: seq<T>)
    requires Distinct(a) && Distinct(b) && forall x :: x in a ==> x !in b
    ensures Distinct(a + b)
  {
    forall i, k | 0 <= i < k < |a + b|
      ensures (a + b)[i] != (a + b)[k]
    {
      assert i < |a| <= k ==> a[i] in a && b[k - |a|] in b;
    }
  }

  /** `found` holds each file reached through `names` exactly once. */
  ghost predicate Walked(found: seq<seq<Bytes>>, dir: Node, at: seq<Bytes>, names: set<Bytes>) {
    && dir.Dir? && names <= dir.entries.Keys && Distinct(found)
    && (set p | p in found) == Below(dir, at, names)
  }

  lemma WalkedOneMore(found: seq<seq<Bytes>>, more: seq<seq<Bytes>>, dir: Node, at: seq<Bytes>, names: set<Bytes>,
      name: Bytes)
    requires Walked(found, dir, at, names) && name in dir.entries && name !in names
    requires if dir.entries[name].Dir?
             then Walked(more, dir.entries[name], at + [name], dir.entries[name].entries.Keys)
             else more == [at + [name]]
    ensures Walked(found + more, dir, at, names + {name})
    ensures EntriesOf(found + more) == EntriesOf(found) + EntriesOf(more)
  {
    BelowOneMore(dir, at, names, name);
    var a, b := Below(dir, at, names), Below(dir, at, {name});
    assert Distinct(more);
    assert forall p :: p in found <==> p in a by {
      assert forall p :: p in found <==> p in (set p | p in found);
    }
    assert forall p :: p in more <==> p in b by {
      assert forall p :: p in more <==> p in (set p | p in more);
    }
    DistinctAppend(found, more);
    assert (set p | p in found + more) == a + b;
  }

  /** The walk: names come in any order, directories are entered, files are pushed. Every file below
      is pushed exactly once, under its relative path. */
  method CollectFiles(dir: Node, at: seq<Bytes>, files: seq<Entry>)
    returns (result: seq<Entry>, ghost found: seq<seq<Bytes>>)
    requires dir.Dir?
    ensures result == files + EntriesOf(found) && Walked(found, dir, at, dir.entries.Keys)
    ensures files <= result && Distinct(result[|files|..])
    ensures forall e :: e in result[|files|..] <==>
      e.full in Below(dir, at, dir.entries.Keys) && e.rel == Joined(e.full)
    decreases dir
  {
    result, found := files, [];
    var rest := dir.entries.Keys;
    while rest != {}
      invariant rest <= dir.entries.Keys
      invariant result == files + EntriesOf(found) && Walked(found, dir, at, dir.entries.Keys - rest)
    {
      var name :| name in rest;
      ghost var more;
      if dir.entries[name].Dir? {
        result, more := CollectFiles(dir.entries[name], at + [name], result);
      } else {
        result, more := result + [Entry(Joined(at + [name]), at + [name])], [at + [name]];
      }
      WalkedOneMore(found, more, dir, at, dir.entries.Keys - rest, name);
      EntriesAppend(found, more);
      assert dir.entries.Keys - (rest - {name}) == (dir.entries.Keys - rest) + {name};
      found, rest := found + more, rest - {name};
    }
    assert dir.entries.Keys - rest == dir.entries.Keys;
    WalkedEntries(found, dir, at);
    assert result[|files|..] == EntriesOf(found);
  }

  lemma EntriesAppend(found: seq<seq<Bytes>>, more: seq<seq<Bytes>>)
    ensures EntriesOf(found + more) == EntriesOf(found) + EntriesOf(more)
  {
  }

  lemma WalkedEntries(found: seq<seq<Bytes>>, dir: Node, at: seq<Bytes>)
    requires dir.Dir? && Walked(found, dir, at, dir.entries.Keys)
    ensures Distinct(EntriesOf(found))
    ensures forall e :: e in EntriesOf(found) <==> e.full in Below(dir, at, dir.entries.Keys) && e.rel == Joined(e.full)
  {
    var entries := EntriesOf(found);
    forall e
      ensures e in entries <==> e.full in Below(dir, at, dir.entries.Keys) && e.rel == Joined(e.full)
    {
      assert e.full in found <==> e.full in (set p | p in found);
      if e.full in found && e.rel == Joined(e.full) {
        var i :| 0 <= i < |found| && found[i] == e.full;
        assert entries[i] == e;
      }
    }
  }

  // ---- sorting and hashing ----

  predicate Sorted(s: seq<Entry>) {
    forall i, k :: 0 <= i < k < |s| ==> Before(s[i].rel, s[k].rel)
  }

  /** The vector's own `sort`; relative paths are distinct, so they alone decide. */
  function Sort(s: seq<Entry>): (r: seq<Entry>)
    ensures multiset(r) == multiset(s)
  {
    if s == [] then []
    else
      assert s == [s[0]] + s[1..];
      Insert(s[0], Sort(s[1..]))
  }

  function Insert(e: Entry, s: seq<Entry>): (r: seq<Entry>)
    ensures multiset(r) == multiset{e} + multiset(s)
  {
    if s == [] || Before(e.rel, s[0].rel) then [e] + s
    else
      assert s == [s[0]] + s[1..];
      [s[0]] + Insert(e, s[1..])
  }

  lemma {:induction false} InsertSorted(e: Entry, s: seq<Entry>)
    requires Sorted(s) && forall x :: x in s ==> x.rel != e.rel
    ensures Sorted(Insert(e, s))
  {
    if s != [] && Before(e.rel, s[0].rel) {
      forall k | 0 < k < |s|
        ensures Before(e.rel, s[k].rel)
      {
        BeforeIsTransitive(e.rel, s[0].rel, s[k].rel);
      }
    } else if s != [] {
      BeforeIsTotal(e.rel, s[0].rel);
      var rest := Insert(e, s[1..]);
      InsertSorted(e, s[1..]);
      forall k | 0 <= k < |rest|
        ensures Before(s[0].rel, rest[k].rel)
      {
        assert rest[k] in multiset(rest) && (rest[k] == e || rest[k] in s[1..]);
      }
    }
  }

  lemma {:induction false} SortSorted(s: seq<Entry>)
    requires forall i, k :: 0 <= i < k < |s| ==> s[i].rel != s[k].rel
    ensures Sorted(Sort(s))
  {
    if s != [] {
      SortSorted(s[1..]);
      forall x | x in Sort(s[1..])
        ensures x.rel != s[0].rel
      {
        assert x in multiset(Sort(s[1..])) && x in s[1..];
      }
      InsertSorted(s[0], Sort(s[1..]));
    }
  }

  function ItemOf(root: Node, e: Entry): Item {
    var content := Lookup(root, e.full);
    Item(e.rel, if content.Some? then content.value else [])
  }

  function Listing(root: Node, s: seq<Entry>): (l: seq<Item>)
    ensures |l| == |s| && forall i :: 0 <= i < |l| ==> l[i] == ItemOf(root, s[i])
  {
    seq(|s|, i requires 0 <= i < |s| => ItemOf(root, s[i]))
  }

  lemma {:induction false} SerializeAppend(l: seq<Item>, it: Item)
    ensures Serialize(l + [it]) == Serialize(l) + Record(it)
  {
    if l == [] {
      assert Serialize([it]) == Record(it) + [];
    } else {
      SerializeAppend(l[1..], it);
      assert (l + [it])[1..] == l[1..] + [it];
    }
  }

  lemma OneRecord(l: seq<Item>, i: nat)
    requires i < |l|
    ensures Serialize(l[..i + 1]) == Serialize(l[..i]) + l[i].path + [0] + l[i].content + [0]
  {
    SerializeAppend(l[..i], l[i]);
    assert l[..i + 1] == l[..i] + [l[i]];
    assert Serialize(l[..i]) + Record(l[i]) == Serialize(l[..i]) + l[i].path + [0] + l[i].content + [0];
  }

  lemma EntriesSorted(root: Node, found: seq<seq<Bytes>>)
    requires ValidDir(root) && Walked(found, root, [], root.entries.Keys)
    ensures Sorted(Sort(EntriesOf(found)))
  {
    var entries := EntriesOf(found);
    FoundAreFiles(root, found);
    forall i, k | 0 <= i < k < |entries|
      ensures entries[i].rel != entries[k].rel
    {
      assert found[i] in found && found[k] in found;
      if entries[i].rel == entries[k].rel {
        JoinedInjective(found[i], found[k]);
      }
    }
    SortSorted(entries);
  }

  lemma SortedMembers(found: seq<seq<Bytes>>, e: Entry)
    ensures e in Sort(EntriesOf(found)) <==> e.full in found && e.rel == Joined(e.full)
  {
    var entries := EntriesOf(found);
    assert e in Sort(entries) <==> e in multiset(Sort(entries));
    assert e in entries <==> e in multiset(entries);
    if e.full in found && e.rel == Joined(e.full) {
      var i :| 0 <= i < |found| && found[i] == e.full;
      assert entries[i] == e;
    }
  }

  lemma ListingMembers(root: Node, found: seq<seq<Bytes>>, it: Item)
    requires forall p :: p in found <==> p != [] && Lookup(root, p).Some?
    ensures it in Listing(root, Sort(EntriesOf(found))) <==> IsFile(root, it)
  {
    var sorted := Sort(EntriesOf(found));
    var l := Listing(root, sorted);
    if it in l {
      var i :| 0 <= i < |sorted| && it == ItemOf(root, sorted[i]);
      SortedMembers(found, sorted[i]);
      assert Lookup(root, sorted[i].full) == Some(it.content);
    }
    if IsFile(root, it) {
      var p :| p != [] && Lookup(root, p) == Some(it.content) && Joined(p) == it.path;
      SortedMembers(found, Entry(Joined(p), p));
      var k :| 0 <= k < |sorted| && sorted[k] == Entry(Joined(p), p);
      assert l[k] == it;
    }
  }

  /** Walked and sorted, the entries are the tree's listing. */
  lemma SortedWalkIsListing(root: Node, found: seq<seq<Bytes>>)
    requires ValidDir(root) && Walked(found, root, [], root.entries.Keys)
    ensures IsListing(root, Listing(root, Sort(EntriesOf(found))))
    ensures forall e :: e in Sort(EntriesOf(found)) ==> Lookup(root, e.full).Some?
  {
    FoundAreFiles(root, found);
    EntriesSorted(root, found);
    forall it
      ensures it in Listing(root, Sort(EntriesOf(found))) <==> IsFile(root, it)
    {
      ListingMembers(root, found, it);
    }
    forall e | e in Sort(EntriesOf(found))
      ensures Lookup(root, e.full).Some?
    {
      SortedMembers(found, e);
    }
  }

  lemma FoundAreFiles(root: Node, found: seq<seq<Bytes>>)
    requires ValidDir(root) && Walked(found, root, [], root.entries.Keys)
    ensures forall p :: p in found <==> p != [] && Lookup(root, p).Some?
    ensures forall p :: p in found ==> ValidPath(p)
  {
    forall p
      ensures p in found <==> p in Paths(root)
    {
      assert p in found <==> p in Below(root, [], root.entries.Keys);
      assert forall name, q: seq<Bytes> :: [] + [name] + q == [name] + q;
    }
    forall p
      ensures p in Paths(root) <==> Lookup(root, p).Some?
    {
      PathsAreFiles(root, p);
    }
  }

  /** `hash_directory`: the digest is that of the canonical listing's byte stream, whatever order the
      walk came upon the files in. */
  method HashDirectory(root: Node, sha256: Bytes -> string) returns (digest: Option<string>, ghost listing: seq<Item>)
    requires root.Dir? ==> ValidDir(root)
    ensures digest.None? <==> root.File?
    ensures digest.Some? ==> IsListing(root, listing) && digest.value == "sha256:" + sha256(Serialize(listing))
  {
    listing := [];
    if root.File? {
      return None, listing;
    }
    var allFiles, found := CollectFiles(root, [], []);
    assert allFiles == EntriesOf(found);
    allFiles := Sort(allFiles);
    SortedWalkIsListing(root, found);
    listing := Listing(root, allFiles);
    var stream := Feed(root, allFiles);
    digest := Some("sha256:" + sha256(stream));
  }

  /** Path, NUL, content, NUL, for each file in turn. */
  method Feed(root: Node, allFiles: seq<Entry>) returns (stream: Bytes)
    requires forall e :: e in allFiles ==> Lookup(root, e.full).Some?
    ensures stream == Serialize(Listing(root, allFiles))
  {
    ghost var listing := Listing(root, allFiles);
    stream := [];
    for i := 0 to |allFiles|
      invariant stream == Serialize(listing[..i])
    {
      assert allFiles[i] in allFiles;
      OneRecord(listing, i);
      stream := stream + allFiles[i].rel;
      stream := stream + [0];
      var content := Lookup(root, allFiles[i].full).value;
      stream := stream + content;
      stream := stream + [0];
    }
    assert listing[..|allFiles|] == listing;
  }
}
