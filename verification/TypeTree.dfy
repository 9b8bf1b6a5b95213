/** The tree of type names behind the cron and on-demand pages: names are split at `::`, entries are
    inserted under their group path, and the tree is flattened into rows that carry only a depth. */
module TypeTree {
  import opened Redis

  const SEPARATOR := "::"

  // ---- names ----

  /** `split("::")`. */
  function Split(s: string): (r: seq<string>)
    ensures r != []
  {
    if |s| < 2 then [s]
    else if s[..2] == SEPARATOR then [""] + Split(s[2..])
    else
      var rest := Split(s[1..]);
      [[s[0]] + rest[0]] + rest[1..]
  }

  function Join(parts: seq<string>): string {
    if parts == [] then ""
    else if |parts| == 1 then parts[0]
    else parts[0] + SEPARATOR + Join(parts[1..])
  }

  lemma {:induction false} JoinSplit(s: string)
    ensures Join(Split(s)) == s
  {
    if |s| >= 2 {
      if s[..2] == SEPARATOR {
        JoinSplit(s[2..]);
        assert ([""] + Split(s[2..]))[1..] == Split(s[2..]);
        assert "" + SEPARATOR + s[2..] == s;
      } else {
        var rest := Split(s[1..]);
        JoinSplit(s[1..]);
        assert ([[s[0]] + rest[0]] + rest[1..])[1..] == rest[1..];
        assert [s[0]] + s[1..] == s;
        if |rest| > 1 {
          assert ([s[0]] + rest[0]) + SEPARATOR + Join(rest[1..]) == [s[0]] + (rest[0] + SEPARATOR + Join(rest[1..]));
        }
      }
    }
  }

  /** The group path and the leaf: the last two segments stay together. */
  function TypeTreeParts(name: string): (seq<string>, string) {
    var segments := Split(name);
    var split := if |segments| < 2 then 0 else |segments| - 2;
    (segments[..split], Join(segments[split..]))
  }

  lemma {:induction false} JoinLeaf(parts: seq<string>, n: nat)
    requires n < |parts|
    ensures Join(parts[..n] + [Join(parts[n..])]) == Join(parts)
  {
    var joined := parts[..n] + [Join(parts[n..])];
    if n == 0 {
      assert joined == [Join(parts)] by {
        assert parts[0..] == parts;
      }
    } else {
      assert joined[1..] == parts[1..][..n - 1] + [Join(parts[1..][n - 1..])];
      JoinLeaf(parts[1..], n - 1);
    }
  }

  /** For every name, however many separators and empty segments it has. */
  lemma PathAndLeafMakeTheName(name: string)
    ensures var (path, leaf) := TypeTreeParts(name); Join(path + [leaf]) == name
  {
    var segments := Split(name);
    JoinSplit(name);
    JoinLeaf(segments, if |segments| < 2 then 0 else |segments| - 2);
  }

  /** No separator is left inside a segment, so the split is as fine as it can be. */
  lemma {:induction false} SegmentsAreWhole(s: string, k: nat, i: nat)
    requires k < |Split(s)| && i + 1 < |Split(s)[k]|
    ensures !(Split(s)[k][i] == ':' && Split(s)[k][i + 1] == ':')
  {
    if |s| >= 2 && s[..2] == SEPARATOR {
      assert Split(s)[k] == if k == 0 then "" else Split(s[2..])[k - 1];
      SegmentsAreWhole(s[2..], k - 1, i);
    } else if |s| >= 2 {
      var rest := Split(s[1..]);
      assert Split(s)[k] == if k == 0 then [s[0]] + rest[0] else rest[k];
      if k > 0 {
        SegmentsAreWhole(s[1..], k, i);
      } else if i > 0 {
        SegmentsAreWhole(s[1..], 0, i - 1);
      } else {
        FirstSegmentStarts(s[1..]);
        assert s[..2] == [s[0], s[1]];
      }
    }
  }

  lemma {:induction false} FirstSegmentStarts(s: string)
    ensures Split(s)[0] != "" ==> s != "" && Split(s)[0][0] == s[0]
  {
  }

  /** The leaf keeps the last two segments of a name together, or the only one; the group path is the others. */
  lemma LeafHasTwoSegments(name: string)
    ensures var (path, leaf) := TypeTreeParts(name);
            if |Split(name)| == 1 then path == [] && leaf == name
            else path == Split(name)[..|Split(name)| - 2]
                 && leaf == Split(name)[|Split(name)| - 2] + "::" + Split(name)[|Split(name)| - 1]
  {
    var segments := Split(name);
    if |segments| == 1 {
      JoinSplit(name);
      assert segments[0..] == segments;
    } else {
      var last := segments[|segments| - 2..];
      assert |last| == 2 && last[1..] == [segments[|segments| - 1]];
      assert Join(last[1..]) == last[1] && Join(last) == last[0] + SEPARATOR + Join(last[1..]);
    }
  }

  // ---- order of names and paths ----

  /** Byte order of UTF-8, which is the order of code points. */
  predicate Less(a: string, b: string) {
    b != "" && (a == "" || a[0] < b[0] || (a[0] == b[0] && Less(a[1..], b[1..])))
  }

  ghost predicate ForkAt(a: string, b: string, k: nat) {
    k < |a| && k < |b| && (forall i :: 0 <= i < k ==> a[i] == b[i]) && a[k] < b[k]
  }

  /** It is the lexicographic order: at the first place where they differ the smaller character decides, and
      a proper prefix comes first. */
  lemma {:induction false} LessIsLexicographic(a: string, b: string)
    ensures Less(a, b) <==> a < b || exists k: nat :: ForkAt(a, b, k)
  {
    if a != "" && b != "" && a[0] == b[0] {
      var x, y := a[1..], b[1..];
      LessIsLexicographic(x, y);
      assert a == [a[0]] + x && b == [b[0]] + y;
      if k: nat :| ForkAt(x, y, k) {
        assert ForkAt(a, b, k + 1);
      }
      if k: nat :| ForkAt(a, b, k) {
        assert ForkAt(x, y, k - 1);
      }
    } else if a != "" && b != "" {
      assert a[0] < b[0] ==> ForkAt(a, b, 0);
    }
  }

  lemma {:induction false} LessTotal(a: string, b: string)
    ensures Less(a, b) || a == b || Less(b, a)
    ensures !(Less(a, b) && Less(b, a)) && !Less(a, a)
  {
    if a != "" && b != "" && a[0] == b[0] {
      LessTotal(a[1..], b[1..]);
      assert a == [a[0]] + a[1..] && b == [b[0]] + b[1..];
    }
    if a != "" {
      LessIrreflexive(a);
    }
  }

  lemma {:induction false} LessIrreflexive(a: string)
    ensures !Less(a, a)
  {
    if a != "" {
      LessIrreflexive(a[1..]);
    }
  }

  lemma {:induction false} LessTrans(a: string, b: string, c: string)
    requires Less(a, b) && Less(b, c)
    ensures Less(a, c)
  {
    if a != "" && a[0] == b[0] == c[0] {
      LessTrans(a[1..], b[1..], c[1..]);
    }
  }

  /** Lexicographic order of paths. */
  predicate PathLess(p: seq<string>, q: seq<string>) {
    q != [] && (p == [] || Less(p[0], q[0]) || (p[0] == q[0] && PathLess(p[1..], q[1..])))
  }

  lemma {:induction false} ForkedPaths(prefix: seq<string>, a: string, x: seq<string>, b: string, y: seq<string>)
    requires Less(a, b)
    ensures PathLess(prefix + [a] + x, prefix + [b] + y)
  {
    if prefix != [] {
      assert (prefix + [a] + x)[1..] == prefix[1..] + [a] + x;
      assert (prefix + [b] + y)[1..] == prefix[1..] + [b] + y;
      ForkedPaths(prefix[1..], a, x, b, y);
    }
  }

  lemma {:induction false} LongerPath(p: seq<string>, x: seq<string>)
    requires x != []
    ensures PathLess(p, p + x)
  {
    if p != [] {
      assert (p + x)[1..] == p[1..] + x;
      LongerPath(p[1..], x);
    }
  }

  // ---- the tree ----

  /** The rest of what a page shows for a worker or a job. */
  type Details(==,!new)

  datatype Entry = Entry(name: string, shortName: string, details: Details)

  /** The children of a node are an ordered map from names, kept as its list of entries in order. */
  datatype Tree = Node(children: seq<Child>, entries: seq<Entry>)

  datatype Child = Child(name: string, node: Tree)

  const EMPTY_TREE := Node([], [])

  /** Names of siblings strictly ascend, and no group is without entries. */
  ghost predicate Tidy(t: Tree)
    decreases t
  {
    TidyChildren(t.children)
  }

  ghost predicate TidyChildren(cs: seq<Child>)
    decreases cs
  {
    && (forall i, j :: 0 <= i < j < |cs| ==> Less(cs[i].name, cs[j].name))
    && (forall i :: 0 <= i < |cs| ==> Tidy(cs[i].node) && cs[i].node != EMPTY_TREE)
  }

  /** Walks down the path, making the nodes it misses, and appends the entry. */
  function Insert(t: Tree, path: seq<string>, e: Entry): Tree
    decreases |path|, 1, 0
  {
    if path == [] then t.(entries := t.entries + [e])
    else t.(children := InsertBelow(t.children, path, e))
  }

  function InsertBelow(cs: seq<Child>, path: seq<string>, e: Entry): seq<Child>
    requires path != []
    decreases |path|, 0, |cs|
  {
    if cs == [] || Less(path[0], cs[0].name) then [Child(path[0], Insert(EMPTY_TREE, path[1..], e))] + cs
    else if cs[0].name == path[0] then [Child(path[0], Insert(cs[0].node, path[1..], e))] + cs[1..]
    else [cs[0]] + InsertBelow(cs[1..], path, e)
  }

  // ---- rows ----

  datatype Row = GroupRow(name: string, depth: nat) | EntryRow(entry: Entry, depth: nat)

  function EntryRows(entries: seq<Entry>, depth: nat): (r: seq<Row>)
    ensures |r| == |entries| && forall i :: 0 <= i < |r| ==> r[i] == EntryRow(entries[i], depth)
  {
    seq(|entries|, i requires 0 <= i < |entries| => EntryRow(entries[i], depth))
  }

  function Rows(t: Tree, depth: nat): seq<Row>
    decreases t
  {
    RowsOfChildren(t.children, depth) + EntryRows(t.entries, depth)
  }

  function RowsOfChildren(cs: seq<Child>, depth: nat): seq<Row>
    decreases cs
  {
    if cs == [] then []
    else
      var init, last := cs[..|cs| - 1], cs[|cs| - 1];
      RowsOfChildren(init, depth) + [GroupRow(last.name, depth)] + Rows(last.node, depth + 1)
  }

  /** `flatten` as it runs: it pushes onto a list of rows. */
  method Flatten(t: Tree, depth: nat, before: seq<Row>) returns (rows: seq<Row>)
    ensures rows == before + Rows(t, depth)
    decreases t
  {
    rows := before;
    var i := 0;
    while i < |t.children|
      invariant 0 <= i <= |t.children|
      invariant rows == before + RowsOfChildren(t.children[..i], depth)
    {
      assert t.children[..i + 1][..i] == t.children[..i];
      rows := rows + [GroupRow(t.children[i].name, depth)];
      rows := Flatten(t.children[i].node, depth + 1, rows);
      i := i + 1;
    }
    assert t.children[..i] == t.children;
    var j := 0;
    while j < |t.entries|
      invariant 0 <= j <= |t.entries|
      invariant rows == before + RowsOfChildren(t.children, depth) + EntryRows(t.entries[..j], depth)
    {
      rows := rows + [EntryRow(t.entries[j], depth)];
      assert EntryRows(t.entries[..j + 1], depth) == EntryRows(t.entries[..j], depth) + [EntryRow(t.entries[j], depth)];
      j := j + 1;
    }
    assert t.entries[..j] == t.entries;
  }

  // ---- insertion ----

  /** The entries directly under a path, in their order. */
  function EntriesAt(t: Tree, path: seq<string>): seq<Entry>
    decreases |path|, 1, 0
  {
    if path == [] then t.entries else EntriesBelow(t.children, path)
  }

  function EntriesBelow(cs: seq<Child>, path: seq<string>): seq<Entry>
    requires path != []
    decreases |path|, 0, |cs|
  {
    if cs == [] then []
    else if cs[0].name == path[0] then EntriesAt(cs[0].node, path[1..])
    else EntriesBelow(cs[1..], path)
  }

  lemma NothingInEmpty(path: seq<string>)
    ensures EntriesAt(EMPTY_TREE, path) == []
  {
  }

  lemma {:induction false} NothingBelowOthers(cs: seq<Child>, path: seq<string>)
    requires path != [] && forall i :: 0 <= i < |cs| ==> cs[i].name != path[0]
    ensures EntriesBelow(cs, path) == []
  {
    if cs != [] {
      NothingBelowOthers(cs[1..], path);
    }
  }

  /** An insert appends to its own group and leaves every other group alone. */
  lemma {:induction false} InsertAddsOne(t: Tree, path: seq<string>, e: Entry, q: seq<string>)
    requires Tidy(t)
    ensures EntriesAt(Insert(t, path, e), q) == EntriesAt(t, q) + (if q == path then [e] else [])
    decreases |path|, 1, 0
  {
    if path != [] && q != [] {
      InsertBelowAddsOne(t.children, path, e, q);
    }
  }

  lemma {:induction false} InsertBelowAddsOne(cs: seq<Child>, path: seq<string>, e: Entry, q: seq<string>)
    requires path != [] && q != [] && TidyChildren(cs)
    ensures EntriesBelow(InsertBelow(cs, path, e), q) == EntriesBelow(cs, q) + (if q == path then [e] else [])
    decreases |path|, 0, |cs|
  {
    assert path == [path[0]] + path[1..] && q == [q[0]] + q[1..];
    var cs' := InsertBelow(cs, path, e);
    if cs == [] || Less(path[0], cs[0].name) {
      assert cs'[1..] == cs;
      InsertAddsOne(EMPTY_TREE, path[1..], e, q[1..]);
      NothingInEmpty(q[1..]);
      if q[0] == path[0] {
        forall i | 0 <= i < |cs| ensures cs[i].name != q[0] {
          if i > 0 {
            LessTrans(path[0], cs[0].name, cs[i].name);
          }
          LessTotal(path[0], cs[i].name);
        }
        NothingBelowOthers(cs, q);
      }
    } else if cs[0].name == path[0] {
      assert cs'[1..] == cs[1..];
      InsertAddsOne(cs[0].node, path[1..], e, q[1..]);
    } else {
      assert cs'[1..] == InsertBelow(cs[1..], path, e);
      InsertBelowAddsOne(cs[1..], path, e, q);
    }
  }

  lemma {:induction false} InsertKeepsTidy(t: Tree, path: seq<string>, e: Entry)
    requires Tidy(t)
    ensures Tidy(Insert(t, path, e)) && Insert(t, path, e) != EMPTY_TREE
    decreases |path|, 1, 0
  {
    if path != [] {
      InsertBelowKeepsTidy(t.children, path, e);
    }
  }

  ghost predicate AllAbove(cs: seq<Child>, name: string) {
    forall i :: 0 <= i < |cs| ==> Less(name, cs[i].name)
  }

  lemma TidyCons(c: Child, cs: seq<Child>)
    requires Tidy(c.node) && c.node != EMPTY_TREE && TidyChildren(cs) && AllAbove(cs, c.name)
    ensures TidyChildren([c] + cs)
  {
  }

  lemma TidyUncons(cs: seq<Child>)
    requires cs != [] && TidyChildren(cs)
    ensures Tidy(cs[0].node) && cs[0].node != EMPTY_TREE && TidyChildren(cs[1..]) && AllAbove(cs[1..], cs[0].name)
  {
  }

  lemma AboveAll(cs: seq<Child>, name: string)
    requires TidyChildren(cs) && (cs == [] || Less(name, cs[0].name))
    ensures AllAbove(cs, name)
  {
    forall i | 0 < i < |cs| ensures Less(name, cs[i].name) {
      LessTrans(name, cs[0].name, cs[i].name);
    }
  }

  lemma {:induction false} InsertBelowStaysAbove(cs: seq<Child>, path: seq<string>, e: Entry, name: string)
    requires path != [] && AllAbove(cs, name) && Less(name, path[0])
    ensures AllAbove(InsertBelow(cs, path, e), name)
    decreases |cs|
  {
    if cs != [] && !Less(path[0], cs[0].name) && cs[0].name != path[0] {
      InsertBelowStaysAbove(cs[1..], path, e, name);
    }
  }

  lemma {:induction false} InsertBelowKeepsTidy(cs: seq<Child>, path: seq<string>, e: Entry)
    requires path != [] && TidyChildren(cs)
    ensures TidyChildren(InsertBelow(cs, path, e)) && InsertBelow(cs, path, e) != []
    decreases |path|, 0, |cs|
  {
    if cs == [] || Less(path[0], cs[0].name) {
      InsertKeepsTidy(EMPTY_TREE, path[1..], e);
      AboveAll(cs, path[0]);
      TidyCons(Child(path[0], Insert(EMPTY_TREE, path[1..], e)), cs);
    } else if cs[0].name == path[0] {
      TidyUncons(cs);
      InsertKeepsTidy(cs[0].node, path[1..], e);
      TidyCons(Child(path[0], Insert(cs[0].node, path[1..], e)), cs[1..]);
    } else {
      TidyUncons(cs);
      InsertBelowKeepsTidy(cs[1..], path, e);
      LessTotal(path[0], cs[0].name);
      InsertBelowStaysAbove(cs[1..], path, e, cs[0].name);
      TidyCons(cs[0], InsertBelow(cs[1..], path, e));
    }
  }

  // ---- reading the rows back ----

  /** An entry with the group path it stands under. */
  datatype Placed = Placed(path: seq<string>, entry: Entry)

  /** A reader that knows only the rows: a stack of group names cut to the depth of each row. */
  datatype Reader = Reader(stack: seq<string>, listed: seq<Placed>, groups: seq<seq<string>>)

  function ReadRow(r: Reader, row: Row): Reader {
    match row
    case GroupRow(name, depth) =>
      var stack := Take(r.stack, depth) + [name];
      Reader(stack, r.listed, r.groups + [stack])
    case EntryRow(entry, depth) =>
      r.(listed := r.listed + [Placed(Take(r.stack, depth), entry)])
  }

  function Read(r: Reader, rows: seq<Row>): Reader {
    if rows == [] then r else ReadRow(Read(r, rows[..|rows| - 1]), rows[|rows| - 1])
  }

  lemma {:induction false} ReadAppend(r: Reader, a: seq<Row>, b: seq<Row>)
    ensures Read(r, a + b) == Read(Read(r, a), b)
  {
    if b == [] {
      assert a + b == a;
    } else {
      assert (a + b)[..|a| + |b| - 1] == a + b[..|b| - 1];
      ReadAppend(r, a, b[..|b| - 1]);
    }
  }

  function PlacedAt(entries: seq<Entry>, path: seq<string>): (r: seq<Placed>)
    ensures |r| == |entries| && forall i :: 0 <= i < |r| ==> r[i] == Placed(path, entries[i])
  {
    seq(|entries|, i requires 0 <= i < |entries| => Placed(path, entries[i]))
  }

  function Listing(t: Tree, prefix: seq<string>): seq<Placed>
    decreases t
  {
    ListingOfChildren(t.children, prefix) + PlacedAt(t.entries, prefix)
  }

  function ListingOfChildren(cs: seq<Child>, prefix: seq<string>): seq<Placed>
    decreases cs
  {
    if cs == [] then []
    else
      var last := cs[|cs| - 1];
      ListingOfChildren(cs[..|cs| - 1], prefix) + Listing(last.node, prefix + [last.name])
  }

  function GroupPaths(cs: seq<Child>, prefix: seq<string>): seq<seq<string>>
    decreases cs
  {
    if cs == [] then []
    else
      var last := cs[|cs| - 1];
      GroupPaths(cs[..|cs| - 1], prefix) + [prefix + [last.name]] + GroupPaths(last.node.children, prefix + [last.name])
  }

  ghost predicate At(r: Reader, prefix: seq<string>) {
    prefix <= r.stack
  }

  lemma {:induction false} ReadEntries(entries: seq<Entry>, prefix: seq<string>, r: Reader)
    requires At(r, prefix)
    ensures Read(r, EntryRows(entries, |prefix|)) == r.(listed := r.listed + PlacedAt(entries, prefix))
  {
    if entries != [] {
      var n := |entries| - 1;
      assert EntryRows(entries, |prefix|)[..n] == EntryRows(entries[..n], |prefix|);
      ReadEntries(entries[..n], prefix, r);
      assert PlacedAt(entries, prefix) == PlacedAt(entries[..n], prefix) + [Placed(prefix, entries[n])];
      assert Take(r.stack, |prefix|) == prefix;
    }
  }

  /** From one reader to a later one at the same prefix: what has been listed in between. */
  ghost predicate Advances(r: Reader, r': Reader, prefix: seq<string>, listed: seq<Placed>, groups: seq<seq<string>>) {
    At(r', prefix) && r'.listed == r.listed + listed && r'.groups == r.groups + groups
  }

  lemma AdvanceTwice(r: Reader, r1: Reader, r2: Reader, prefix: seq<string>,
                     l1: seq<Placed>, g1: seq<seq<string>>, l2: seq<Placed>, g2: seq<seq<string>>)
    requires Advances(r, r1, prefix, l1, g1) && Advances(r1, r2, prefix, l2, g2)
    ensures Advances(r, r2, prefix, l1 + l2, g1 + g2)
  {
    assert r.listed + l1 + l2 == r.listed + (l1 + l2);
    assert r.groups + g1 + g2 == r.groups + (g1 + g2);
  }

  lemma {:induction false} ReadTree(t: Tree, prefix: seq<string>, r: Reader)
    requires At(r, prefix)
    ensures Advances(r, Read(r, Rows(t, |prefix|)), prefix, Listing(t, prefix), GroupPaths(t.children, prefix))
    decreases t, 0
  {
    var rows, last := RowsOfChildren(t.children, |prefix|), EntryRows(t.entries, |prefix|);
    ReadChildren(t.children, prefix, r);
    ReadAppend(r, rows, last);
    ReadEntries(t.entries, prefix, Read(r, rows));
    AdvanceTwice(r, Read(r, rows), Read(r, rows + last), prefix, ListingOfChildren(t.children, prefix),
                 GroupPaths(t.children, prefix), PlacedAt(t.entries, prefix), []);
    assert GroupPaths(t.children, prefix) + [] == GroupPaths(t.children, prefix);
  }

  lemma {:induction false} ReadChildren(cs: seq<Child>, prefix: seq<string>, r: Reader)
    requires At(r, prefix)
    ensures Advances(r, Read(r, RowsOfChildren(cs, |prefix|)), prefix, ListingOfChildren(cs, prefix),
              GroupPaths(cs, prefix))
    decreases cs, 0
  {
    if cs != [] {
      var init, last := cs[..|cs| - 1], cs[|cs| - 1];
      var rows := RowsOfChildren(init, |prefix|);
      ReadChildren(init, prefix, r);
      ReadChild(last, prefix, Read(r, rows));
      ReadAppend(r, rows, RowsOfChild(last, |prefix|));
      AdvanceTwice(r, Read(r, rows), Read(r, rows + RowsOfChild(last, |prefix|)), prefix,
                   ListingOfChildren(init, prefix), GroupPaths(init, prefix),
                   Listing(last.node, prefix + [last.name]), GroupsOfChild(last, prefix));
      ChildrenAreInitAndLast(cs, prefix);
    }
  }

  function RowsOfChild(c: Child, depth: nat): seq<Row> {
    [GroupRow(c.name, depth)] + Rows(c.node, depth + 1)
  }

  function GroupsOfChild(c: Child, prefix: seq<string>): seq<seq<string>> {
    [prefix + [c.name]] + GroupPaths(c.node.children, prefix + [c.name])
  }

  lemma ChildrenAreInitAndLast(cs: seq<Child>, prefix: seq<string>)
    requires cs != []
    ensures var init, last := cs[..|cs| - 1], cs[|cs| - 1];
            && RowsOfChildren(cs, |prefix|) == RowsOfChildren(init, |prefix|) + RowsOfChild(last, |prefix|)
            && ListingOfChildren(cs, prefix)
                 == ListingOfChildren(init, prefix) + Listing(last.node, prefix + [last.name])
            && GroupPaths(cs, prefix) == GroupPaths(init, prefix) + GroupsOfChild(last, prefix)
  {
  }

  lemma ReadOne(r: Reader, row: Row)
    ensures Read(r, [row]) == ReadRow(r, row)
  {
    assert [row][..0] == [];
  }

  lemma ReadChild(c: Child, prefix: seq<string>, r: Reader)
    requires At(r, prefix)
    ensures Advances(r, Read(r, RowsOfChild(c, |prefix|)), prefix, Listing(c.node, prefix + [c.name]),
              GroupsOfChild(c, prefix))
    decreases c.node, 1
  {
    var inner, head := prefix + [c.name], GroupRow(c.name, |prefix|);
    ReadOne(r, head);
    var r1 := Read(r, [head]);
    assert r1 == Reader(inner, r.listed, r.groups + [inner]) by {
      assert Take(r.stack, |prefix|) == prefix;
    }
    ReadTree(c.node, inner, r1);
    ReadAppend(r, [head], Rows(c.node, |prefix| + 1));
    BackToParent(r, r1, Read(r1, Rows(c.node, |inner|)), prefix, c.name, Listing(c.node, inner),
      GroupPaths(c.node.children, inner));
  }

  /** Back from a child to its parent. */
  lemma BackToParent(r: Reader, r1: Reader, r2: Reader, prefix: seq<string>, name: string,
                     listed: seq<Placed>, groups: seq<seq<string>>)
    requires r1.listed == r.listed && r1.groups == r.groups + [prefix + [name]]
    requires Advances(r1, r2, prefix + [name], listed, groups)
    ensures Advances(r, r2, prefix, listed, [prefix + [name]] + groups)
  {
    assert prefix <= prefix + [name] <= r2.stack;
    assert r.groups + [prefix + [name]] + groups == r.groups + ([prefix + [name]] + groups);
  }

  // ---- what the rows say ----

  /** The entries listed under a path, in order. */
  function Select(listed: seq<Placed>, path: seq<string>): seq<Entry> {
    if listed == [] then []
    else
      var last := listed[|listed| - 1];
      Select(listed[..|listed| - 1], path) + (if last.path == path then [last.entry] else [])
  }

  lemma {:induction false} SelectAppend(a: seq<Placed>, b: seq<Placed>, path: seq<string>)
    ensures Select(a + b, path) == Select(a, path) + Select(b, path)
  {
    if b == [] {
      assert a + b == a;
    } else {
      assert (a + b)[..|a| + |b| - 1] == a + b[..|b| - 1];
      SelectAppend(a, b[..|b| - 1], path);
    }
  }

  lemma {:induction false} SelectPlacedAt(entries: seq<Entry>, at: seq<string>, path: seq<string>)
    ensures Select(PlacedAt(entries, at), path) == if at == path then entries else []
  {
    if entries != [] {
      var n := |entries| - 1;
      assert PlacedAt(entries, at)[..n] == PlacedAt(entries[..n], at);
      SelectPlacedAt(entries[..n], at, path);
      assert entries == entries[..n] + [entries[n]];
    }
  }

  lemma {:induction false} LastChildLookup(cs: seq<Child>, path: seq<string>)
    requires path != [] && cs != [] && TidyChildren(cs)
    ensures EntriesBelow(cs, path) ==
              if cs[|cs| - 1].name == path[0] then EntriesAt(cs[|cs| - 1].node, path[1..])
              else EntriesBelow(cs[..|cs| - 1], path)
  {
    var n := |cs| - 1;
    if n > 0 {
      assert cs[..n][1..] == cs[1..][..n - 1];
      LastChildLookup(cs[1..], path);
      LessTotal(cs[0].name, cs[n].name);
    }
  }

  lemma {:induction false} ListingSelects(t: Tree, prefix: seq<string>, path: seq<string>)
    requires Tidy(t)
    ensures Select(Listing(t, prefix), path) == if prefix <= path then EntriesAt(t, path[|prefix|..]) else []
    decreases t, 0
  {
    SelectAppend(ListingOfChildren(t.children, prefix), PlacedAt(t.entries, prefix), path);
    SelectPlacedAt(t.entries, prefix, path);
    ChildrenSelect(t.children, prefix, path);
    var below, own := Select(ListingOfChildren(t.children, prefix), path), Select(PlacedAt(t.entries, prefix), path);
    if prefix == path {
      NothingAround(own);
      assert path[|prefix|..] == [];
    } else {
      NothingAround(below);
      assert prefix <= path ==> prefix < path && path[|prefix|..] != [];
    }
  }

  lemma NothingAround(entries: seq<Entry>)
    ensures [] + entries == entries && entries + [] == entries
  {
  }

  lemma ChildSelects(c: Child, prefix: seq<string>, path: seq<string>)
    requires Tidy(c.node)
    ensures Select(Listing(c.node, prefix + [c.name]), path)
         == if prefix < path && path[|prefix|] == c.name then EntriesAt(c.node, path[|prefix|..][1..]) else []
    decreases c.node, 1
  {
    var inner := prefix + [c.name];
    ListingSelects(c.node, inner, path);
    OneStepDown(prefix, c.name, path);
    if inner <= path {
      assert path[|inner|..] == path[|prefix|..][1..];
    }
  }

  lemma OneStepDown(prefix: seq<string>, name: string, path: seq<string>)
    ensures prefix + [name] <= path <==> prefix < path && path[|prefix|] == name
  {
    if prefix < path && path[|prefix|] == name {
      assert path == prefix + [name] + path[|prefix| + 1..];
    }
  }

  lemma {:induction false} ChildrenSelect(cs: seq<Child>, prefix: seq<string>, path: seq<string>)
    requires TidyChildren(cs)
    ensures Select(ListingOfChildren(cs, prefix), path)
         == if prefix < path then EntriesBelow(cs, path[|prefix|..]) else []
    decreases cs, 0
  {
    if cs != [] {
      var init, last := cs[..|cs| - 1], cs[|cs| - 1];
      ChildrenSelect(init, prefix, path);
      ChildSelects(last, prefix, path);
      SelectAppend(ListingOfChildren(init, prefix), Listing(last.node, prefix + [last.name]), path);
      if prefix < path {
        LastChildLookup(cs, path[|prefix|..]);
        NotYet(init, last.name, path[|prefix|..]);
      }
    }
  }

  lemma NotYet(init: seq<Child>, name: string, below: seq<string>)
    requires below != [] && TidyChildren(init) && forall i :: 0 <= i < |init| ==> Less(init[i].name, name)
    ensures below[0] == name ==> EntriesBelow(init, below) == []
  {
    if below[0] == name {
      LessIrreflexive(name);
      NothingBelowOthers(init, below);
    }
  }

  // ---- groups ascend ----

  ghost predicate Ascending(paths: seq<seq<string>>) {
    forall i, j :: 0 <= i < j < |paths| ==> PathLess(paths[i], paths[j])
  }

  /** Every group of a child lies at or below the child's path. */
  lemma {:induction false} GroupsExtend(cs: seq<Child>, prefix: seq<string>)
    ensures forall i :: 0 <= i < |GroupPaths(cs, prefix)| ==>
              |GroupPaths(cs, prefix)[i]| > |prefix| && prefix <= GroupPaths(cs, prefix)[i]
              && exists k :: 0 <= k < |cs| && cs[k].name == GroupPaths(cs, prefix)[i][|prefix|]
    decreases cs
  {
    if cs != [] {
      var init, last := cs[..|cs| - 1], cs[|cs| - 1];
      var inner := prefix + [last.name];
      var a, b := GroupPaths(init, prefix), GroupPaths(last.node.children, inner);
      GroupsExtend(init, prefix);
      GroupsExtend(last.node.children, inner);
      var all := GroupPaths(cs, prefix);
      assert all == a + [inner] + b;
      forall i | 0 <= i < |all|
        ensures |all[i]| > |prefix| && prefix <= all[i] && exists k :: 0 <= k < |cs| && cs[k].name == all[i][|prefix|]
      {
        if i < |a| {
          assert all[i] == a[i];
          var k :| 0 <= k < |init| && init[k].name == a[i][|prefix|];
          assert cs[k].name == all[i][|prefix|];
        } else {
          assert all[i] == if i == |a| then inner else b[i - |a| - 1];
          assert inner <= all[i] && all[i][|prefix|] == inner[|prefix|];
          assert cs[|cs| - 1].name == all[i][|prefix|];
        }
      }
    }
  }

  lemma AscendingJoin(a: seq<seq<string>>, b: seq<seq<string>>)
    requires Ascending(a) && Ascending(b)
    requires forall i, j :: 0 <= i < |a| && 0 <= j < |b| ==> PathLess(a[i], b[j])
    ensures Ascending(a + b)
  {
  }

  lemma {:induction false} GroupsAscend(cs: seq<Child>, prefix: seq<string>)
    requires TidyChildren(cs)
    ensures Ascending(GroupPaths(cs, prefix))
    decreases cs, 0
  {
    if cs != [] {
      var init, last := cs[..|cs| - 1], cs[|cs| - 1];
      GroupsAscend(init, prefix);
      ChildGroupsAscend(last, prefix);
      var a, b := GroupPaths(init, prefix), GroupsOfChild(last, prefix);
      forall i, j | 0 <= i < |a| && 0 <= j < |b| ensures PathLess(a[i], b[j]) {
        GroupsExtend(init, prefix);
        var k :| 0 <= k < |init| && init[k].name == a[i][|prefix|];
        assert Less(cs[k].name, last.name);
        BeforeLast(a[i], b[j], prefix, last.name);
      }
      AscendingJoin(a, b);
      ChildrenAreInitAndLast(cs, prefix);
    }
  }

  lemma ChildGroupsAscend(c: Child, prefix: seq<string>)
    requires Tidy(c.node)
    ensures Ascending(GroupsOfChild(c, prefix))
    ensures forall j :: 0 <= j < |GroupsOfChild(c, prefix)| ==> prefix + [c.name] <= GroupsOfChild(c, prefix)[j]
    decreases c.node, 1
  {
    var inner := prefix + [c.name];
    var b := GroupPaths(c.node.children, inner);
    GroupsAscend(c.node.children, inner);
    GroupsExtend(c.node.children, inner);
    forall j | 0 <= j < |b| ensures PathLess(inner, b[j]) {
      assert b[j] == inner + b[j][|inner|..];
      LongerPath(inner, b[j][|inner|..]);
    }
    AscendingJoin([inner], b);
  }

  lemma BeforeLast(x: seq<string>, y: seq<string>, prefix: seq<string>, name: string)
    requires |x| > |prefix| && prefix <= x && Less(x[|prefix|], name) && prefix + [name] <= y
    ensures PathLess(x, y)
  {
    var n := |prefix|;
    assert x == prefix + [x[n]] + x[n + 1..] && y == prefix + [name] + y[n + 1..];
    ForkedPaths(prefix, x[n], x[n + 1..], name, y[n + 1..]);
  }

  // ---- building ----

  /** What is registered: a type name and the details. */
  datatype Info = Info(name: string, details: Details)

  function EntryFor(info: Info): Entry {
    Entry(info.name, TypeTreeParts(info.name).1, info.details)
  }

  function PlaceOf(info: Info): Placed {
    Placed(TypeTreeParts(info.name).0, EntryFor(info))
  }

  function Places(infos: seq<Info>): (r: seq<Placed>)
    ensures |r| == |infos| && forall i :: 0 <= i < |r| ==> r[i] == PlaceOf(infos[i])
  {
    seq(|infos|, i requires 0 <= i < |infos| => PlaceOf(infos[i]))
  }

  function Build(infos: seq<Info>): Tree {
    if infos == [] then EMPTY_TREE
    else
      var last := PlaceOf(infos[|infos| - 1]);
      Insert(Build(infos[..|infos| - 1]), last.path, last.entry)
  }

  method BuildRows(infos: seq<Info>) returns (rows: seq<Row>)
    ensures rows == Rows(Build(infos), 0)
  {
    var root := EMPTY_TREE;
    var i := 0;
    while i < |infos|
      invariant 0 <= i <= |infos|
      invariant root == Build(infos[..i])
    {
      assert infos[..i + 1][..i] == infos[..i];
      var (groupSegments, leafName) := TypeTreeParts(infos[i].name);
      root := Insert(root, groupSegments, Entry(infos[i].name, leafName, infos[i].details));
      i := i + 1;
    }
    assert infos[..i] == infos;
    rows := Flatten(root, 0, []);
  }

  lemma {:induction false} BuildMeans(infos: seq<Info>, path: seq<string>)
    ensures Tidy(Build(infos)) && EntriesAt(Build(infos), path) == Select(Places(infos), path)
  {
    if infos != [] {
      var n := |infos| - 1;
      BuildMeans(infos[..n], path);
      InsertKeepsTidy(Build(infos[..n]), PlaceOf(infos[n]).path, PlaceOf(infos[n]).entry);
      InsertAddsOne(Build(infos[..n]), PlaceOf(infos[n]).path, PlaceOf(infos[n]).entry, path);
      assert Places(infos)[..n] == Places(infos[..n]);
    } else {
      NothingInEmpty(path);
    }
  }

  lemma {:induction false} SelectCounts(listed: seq<Placed>, x: Placed)
    ensures multiset(listed)[x] == multiset(Select(listed, x.path))[x.entry]
  {
    if listed != [] {
      var n := |listed| - 1;
      assert listed == listed[..n] + [listed[n]];
      SelectCounts(listed[..n], x);
    }
  }

  const NEW_READER := Reader([], [], [])

  /** A reader of the rows of these registrations. */
  function ReadBack(infos: seq<Info>): Reader {
    Read(NEW_READER, Rows(Build(infos), 0))
  }

  lemma ReadBackIsTheTree(infos: seq<Info>)
    ensures ReadBack(infos).listed == Listing(Build(infos), [])
    ensures ReadBack(infos).groups == GroupPaths(Build(infos).children, [])
  {
    ReadTree(Build(infos), [], NEW_READER);
    assert NEW_READER.listed + Listing(Build(infos), []) == Listing(Build(infos), []);
  }

  /** Reading the rows back with nothing but their depths gives every group path its own entries, in the
      order of registration. */
  lemma EveryPathKeepsItsEntries(infos: seq<Info>, path: seq<string>)
    ensures Select(ReadBack(infos).listed, path) == Select(Places(infos), path)
  {
    ReadBackIsTheTree(infos);
    BuildMeans(infos, path);
    ListingSelects(Build(infos), [], path);
    assert path[0..] == path;
  }

  /** So every registered entry is found exactly as often as it was registered, and its path joined with
      its short name is its full name. */
  lemma EveryEntryOnce(infos: seq<Info>, x: Placed)
    ensures multiset(ReadBack(infos).listed)[x] == multiset(Places(infos))[x]
    ensures x in ReadBack(infos).listed ==> Join(x.path + [x.entry.shortName]) == x.entry.name
  {
    EveryPathKeepsItsEntries(infos, x.path);
    SelectCounts(ReadBack(infos).listed, x);
    SelectCounts(Places(infos), x);
    if x in ReadBack(infos).listed {
      assert x in multiset(Places(infos));
      var i :| 0 <= i < |infos| && Places(infos)[i] == x;
      PathAndLeafMakeTheName(infos[i].name);
    }
  }

  /** The full paths of the group rows strictly ascend: siblings are in order and no group appears twice. */
  lemma GroupRowsAscend(infos: seq<Info>)
    ensures Ascending(ReadBack(infos).groups)
  {
    ReadBackIsTheTree(infos);
    BuildMeans(infos, []);
    GroupsAscend(Build(infos).children, []);
  }

  // ---- groups before entries ----

  /** An entry is followed by an entry, or by a group further up: below no group does a sub-group follow an entry. */
  ghost predicate EntriesComeLast(rows: seq<Row>) {
    forall i :: 0 <= i < |rows| - 1 && rows[i].EntryRow? && rows[i + 1].GroupRow? ==> rows[i + 1].depth < rows[i].depth
  }

  lemma {:induction false} RowsAreDeep(t: Tree, depth: nat)
    ensures forall i :: 0 <= i < |Rows(t, depth)| ==> Rows(t, depth)[i].depth >= depth
    decreases t, 1
  {
    ChildRowsAreDeep(t.children, depth);
  }

  lemma {:induction false} ChildRowsAreDeep(cs: seq<Child>, depth: nat)
    ensures forall i :: 0 <= i < |RowsOfChildren(cs, depth)| ==> RowsOfChildren(cs, depth)[i].depth >= depth
    ensures cs != [] ==> RowsOfChildren(cs, depth) != [] && RowsOfChildren(cs, depth)[0] == GroupRow(cs[0].name, depth)
    ensures forall i :: 0 <= i < |RowsOfChildren(cs, depth)| && RowsOfChildren(cs, depth)[i].EntryRow? ==>
              RowsOfChildren(cs, depth)[i].depth > depth
    decreases cs, 0
  {
    if cs != [] {
      var init, last := cs[..|cs| - 1], cs[|cs| - 1];
      ChildRowsAreDeep(init, depth);
      RowsAreDeep(last.node, depth + 1);
    }
  }

  lemma {:induction false} RowsEndWithEntries(t: Tree, depth: nat)
    ensures EntriesComeLast(Rows(t, depth))
    decreases t, 1
  {
    ChildRowsEndWithEntries(t.children, depth);
  }

  lemma {:induction false} ChildRowsEndWithEntries(cs: seq<Child>, depth: nat)
    ensures EntriesComeLast(RowsOfChildren(cs, depth))
    decreases cs, 0
  {
    if cs != [] {
      var init, last := cs[..|cs| - 1], cs[|cs| - 1];
      ChildRowsEndWithEntries(init, depth);
      ChildRowsAreDeep(init, depth);
      RowsEndWithEntries(last.node, depth + 1);
    }
  }

  /** On every page the sub-groups of a group come before its entries. */
  lemma GroupsBeforeEntries(infos: seq<Info>)
    ensures EntriesComeLast(Rows(Build(infos), 0))
  {
    RowsEndWithEntries(Build(infos), 0);
  }
}
