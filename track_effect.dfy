/**
  The property table of a track effect: every writable property of every
  child element whose factory class names the "Effect" category, keyed by
  the property specification under `PspecEqual`/`PspecHash` and mapped to
  the child that owns it.  The children are the elements the recursive bin
  iteration yields, in that order, abstracted to a sequence.
 */
module TrackEffect {
  import opened Wrappers
  import opened PspecKey

  /** A child element as the table sees it: its factory class string and
      the property specifications its class lists. */
  datatype Child = Child(klass: string, properties: seq<ParamSpec>)

  /** Some element of `xs` satisfies `p`; scans from the back, as the
      table folds below add elements. */
  predicate Any<T>(xs: seq<T>, p: T -> bool)
    decreases |xs|
  {
    |xs| > 0 && (Any(xs[..|xs| - 1], p) || p(xs[|xs| - 1]))
  }

  /** The scan succeeds exactly when some element satisfies `p`. */
  lemma {:induction false} AnyIff<T>(xs: seq<T>, p: T -> bool)
    ensures Any(xs, p) <==> exists i :: 0 <= i < |xs| && p(xs[i])
    decreases |xs|
  {
    if |xs| > 0 {
      var n := |xs| - 1;
      var init := xs[..n];
      AnyIff(init, p);
      if exists i :: 0 <= i < |xs| && p(xs[i]) {
        var i :| 0 <= i < |xs| && p(xs[i]);
        if i < n {
          assert init[i] == xs[i];
        }
      }
      if exists i :: 0 <= i < n && p(init[i]) {
        var i :| 0 <= i < n && p(init[i]);
        assert xs[i] == init[i];
      }
    }
  }

  /** `s` split at every '/', empty segments kept. */
  function Split(s: string): (r: seq<string>)
    ensures |r| >= 1
    decreases |s|
  {
    if |s| == 0 then [""]
    else
      var rest := Split(s[1..]);
      if s[0] == '/' then [""] + rest
      else [[s[0]] + rest[0]] + rest[1..]
  }

  /** No segment of a split contains the separator. */
  lemma {:induction false} SplitSegments(s: string)
    ensures forall i :: 0 <= i < |Split(s)| ==> '/' !in Split(s)[i]
    decreases |s|
  {
    if |s| > 0 {
      SplitSegments(s[1..]);
      var rest := Split(s[1..]);
      if s[0] != '/' {
        var r := Split(s);
        forall i | 0 <= i < |r|
          ensures '/' !in r[i]
        {
          if i == 0 {
            assert r[0] == [s[0]] + rest[0];
          } else {
            assert r[i] == rest[i];
          }
        }
      }
    }
  }

  /** The segments joined back together with '/' between them. */
  function Join(segments: seq<string>): string
    requires |segments| >= 1
    decreases |segments|
  {
    if |segments| == 1 then segments[0] else segments[0] + "/" + Join(segments[1..])
  }

  /** Joining the split segments gives back the string. */
  lemma {:induction false} JoinSplit(s: string)
    ensures Join(Split(s)) == s
    decreases |s|
  {
    if |s| > 0 {
      var rest := Split(s[1..]);
      JoinSplit(s[1..]);
      if s[0] == '/' {
        assert ([""] + rest)[1..] == rest;
      } else {
        var r := [[s[0]] + rest[0]] + rest[1..];
        if |rest| == 1 {
          assert r == [[s[0]] + rest[0]];
        } else {
          assert r[1..] == rest[1..];
          assert Join(rest) == rest[0] + "/" + Join(rest[1..]);
        }
      }
    }
  }

  /** Splitting `a + t`, where `a` holds no separator, glues `a` onto the
      first segment of `t`. */
  lemma {:induction false} SplitPrefix(a: string, t: string)
    requires '/' !in a
    ensures Split(a + t) == [a + Split(t)[0]] + Split(t)[1..]
    decreases |a|
  {
    var st := Split(t);
    if |a| == 0 {
      assert a + t == t;
      assert a + st[0] == st[0];
      assert st == [st[0]] + st[1..];
    } else {
      assert a[0] != '/' by { assert a[0] in a; }
      assert (a + t)[1..] == a[1..] + t;
      SplitPrefix(a[1..], t);
      var rest := Split(a[1..] + t);
      assert rest[0] == a[1..] + st[0];
      assert rest[1..] == st[1..];
      assert [a[0]] + (a[1..] + st[0]) == a + st[0];
    }
  }

  /** Splitting joined separator-free segments gives back the segments. */
  lemma {:induction false} SplitJoin(segments: seq<string>)
    requires |segments| >= 1
    requires forall i :: 0 <= i < |segments| ==> '/' !in segments[i]
    ensures Split(Join(segments)) == segments
    decreases |segments|
  {
    var a := segments[0];
    if |segments| == 1 {
      SplitPrefix(a, "");
      assert a + "" == a;
    } else {
      var rest := Join(segments[1..]);
      SplitJoin(segments[1..]);
      assert a + "/" + rest == a + ("/" + rest);
      SplitPrefix(a, "/" + rest);
      assert ("/" + rest)[1..] == rest;
      assert a + "" == a;
    }
  }

  /** The categories of a factory class string, as the GLib string split on
      "/" returns them: none for the empty string, otherwise every
      '/'-separated segment. */
  function Categories(klass: string): (r: seq<string>)
    ensures klass == "" <==> r == []
  {
    if klass == "" then [] else Split(klass)
  }

  /** A non-empty class string is its categories joined with '/', and no
      category contains '/'. */
  lemma CategoriesJoin(klass: string)
    ensures forall i :: 0 <= i < |Categories(klass)| ==> '/' !in Categories(klass)[i]
    ensures klass != "" ==> Join(Categories(klass)) == klass
  {
    SplitSegments(klass);
    if klass != "" {
      JoinSplit(klass);
    }
  }

  /** A child is an effect when one of its categories is exactly "Effect". */
  predicate IsEffectClass(klass: string)
  {
    "Effect" in Categories(klass)
  }

  /** A class string made of separator-free segments, one of which is
      exactly "Effect", is an effect class wherever that segment stands. */
  lemma EffectSegment(segments: seq<string>, i: nat)
    requires i < |segments| && segments[i] == "Effect"
    requires forall j :: 0 <= j < |segments| ==> '/' !in segments[j]
    ensures IsEffectClass(Join(segments))
  {
    SplitJoin(segments);
    var klass := Join(segments);
    assert klass != "" by {
      if |segments| > 1 {
        assert |Join(segments)| >= |segments[0] + "/"|;
      }
    }
    assert Categories(klass) == segments;
  }

  /** The flag test of the source: only writable properties are listed. */
  predicate Writable(p: ParamSpec)
  {
    p.flags & ParamWritable != 0
  }

  /** A table key: one per class of specifications equal under `PspecEqual`. */
  datatype PropKey = PropKey(ownerType: nat, name: seq<byte>)

  function Key(p: ParamSpec): PropKey
  {
    PropKey(p.ownerType, CStr(p.name))
  }

  /** Two specifications share a key exactly when the table's key equality
      holds between them. */
  lemma KeyMatchesEqual(a: ParamSpec, b: ParamSpec)
    ensures Key(a) == Key(b) <==> PspecEqual(a, b)
  {
  }

  /** Equal keys hash equally, so the key equality and the hash the table
      is created with are consistent on the keys the table holds. */
  lemma KeyDeterminesHash(a: ParamSpec, b: ParamSpec)
    requires Key(a) == Key(b)
    ensures PspecHash(a) == PspecHash(b)
  {
    KeyMatchesEqual(a, b);
    HashRespectsEqual(a, b);
  }

  /** A table entry: the stored key specification and the owning child's
      position in the iteration order. */
  datatype Entry = Entry(spec: ParamSpec, child: nat)

  type Table = map<PropKey, Entry>

  /** Hash-table insertion: a key already present keeps its stored
      specification and takes the new child; a new key stores both. */
  function Insert(table: Table, p: ParamSpec, child: nat): (r: Table)
    ensures r.Keys == table.Keys + {Key(p)} && r[Key(p)].child == child
    ensures Key(p) in table ==> r[Key(p)].spec == table[Key(p)].spec
    ensures Key(p) !in table ==> r[Key(p)].spec == p
    ensures forall k :: k in table && k != Key(p) ==> r[k] == table[k]
  {
    var k := Key(p);
    table[k := Entry(if k in table then table[k].spec else p, child)]
  }

  /** The table after inserting every writable property in `properties`,
      in order, each mapped to `child`. */
  function AddWritable(table: Table, properties: seq<ParamSpec>, child: nat): (r: Table)
    ensures table.Keys <= r.Keys
    ensures forall k :: k in r ==> (k in table && r[k] == table[k]) || r[k].child == child
    decreases |properties|
  {
    if |properties| == 0 then table
    else
      var last := properties[|properties| - 1];
      var before := AddWritable(table, properties[..|properties| - 1], child);
      if Writable(last) then Insert(before, last, child) else before
  }

  /** The contribution of the child at position `index`: its writable
      properties when it is an effect, nothing otherwise. */
  function AddChild(table: Table, c: Child, index: nat): (r: Table)
    ensures table.Keys <= r.Keys
    ensures forall k :: k in r ==> (k in table && r[k] == table[k]) || r[k].child == index
  {
    if IsEffectClass(c.klass) then AddWritable(table, c.properties, index) else table
  }

  /** The table built from the children, in iteration order. */
  function PropsTable(children: seq<Child>): (r: Table)
    ensures forall k :: k in r ==> r[k].child < |children|
    decreases |children|
  {
    if |children| == 0 then map[]
    else AddChild(PropsTable(children[..|children| - 1]), children[|children| - 1], |children| - 1)
  }

  /** No table without a backing element; otherwise the table of its children. */
  function GetPropsHashtable(element: Option<seq<Child>>): (r: Option<Table>)
    ensures r.None? <==> element.None?
  {
    match element
    case None => None
    case Some(children) => Some(PropsTable(children))
  }

  /** Is `p` a writable specification with key `k`? */
  function WritableWithKey(k: PropKey): ParamSpec -> bool
  {
    p => Writable(p) && Key(p) == k
  }

  /** `properties` holds a writable specification with key `k`. */
  predicate HasWritable(properties: seq<ParamSpec>, k: PropKey)
  {
    Any(properties, WritableWithKey(k))
  }

  /** The child contributes an entry under `k`. */
  predicate Contributes(c: Child, k: PropKey)
  {
    IsEffectClass(c.klass) && HasWritable(c.properties, k)
  }

  /** What inserting the writable properties of one child does to one key:
      the key is present afterwards iff it was before or the child has a
      writable property with that key; such a key now maps to the child; a
      key that was present keeps its stored specification; a new key stores
      a writable specification of the child with that key; other keys keep
      their entries. */
  lemma {:induction false} AddWritableEntry(table: Table, properties: seq<ParamSpec>, child: nat, k: PropKey)
    ensures var r := AddWritable(table, properties, child);
      && (k in r <==> k in table || HasWritable(properties, k))
      && (HasWritable(properties, k) ==> r[k].child == child)
      && (!HasWritable(properties, k) && k in table ==> r[k] == table[k])
      && (k in table ==> r[k].spec == table[k].spec)
      && (k !in table && k in r ==> Key(r[k].spec) == k && Writable(r[k].spec) && r[k].spec in properties)
    decreases |properties|
  {
    if |properties| > 0 {
      var n := |properties| - 1;
      var init, last := properties[..n], properties[n];
      AddWritableEntry(table, init, child, k);
      assert properties == init + [last];
    }
  }

  /** Does the child contribute an entry under `k`? */
  function ContributorOf(k: PropKey): Child -> bool
  {
    c => Contributes(c, k)
  }

  /** A key is in the table exactly when the scan finds a contributor. */
  lemma {:induction false} PropsTableHasKey(children: seq<Child>, k: PropKey)
    ensures k in PropsTable(children) <==> Any(children, ContributorOf(k))
    decreases |children|
  {
    if |children| > 0 {
      var n := |children| - 1;
      var init, c := children[..n], children[n];
      PropsTableHasKey(init, k);
      if IsEffectClass(c.klass) {
        AddWritableEntry(PropsTable(init), c.properties, n, k);
      }
    }
  }

  /** A key is in the table iff some child contributes it. */
  lemma PropsTableKeys(children: seq<Child>, k: PropKey)
    ensures k in PropsTable(children) <==> exists i :: 0 <= i < |children| && Contributes(children[i], k)
  {
    PropsTableHasKey(children, k);
    AnyIff(children, ContributorOf(k));
  }

  /** Position `x` holds the last element of `xs` that satisfies `p`. */
  predicate LastWith<T>(xs: seq<T>, p: T -> bool, x: nat)
  {
    x < |xs| && p(xs[x]) && forall i :: x < i < |xs| ==> !p(xs[i])
  }

  /** Position `x` holds the first element of `xs` that satisfies `p`. */
  predicate FirstWith<T>(xs: seq<T>, p: T -> bool, x: nat)
  {
    x < |xs| && p(xs[x]) && forall i :: 0 <= i < x ==> !p(xs[i])
  }

  /** Appending an element that fails `p` keeps the last element satisfying `p`. */
  lemma LastWithExtend<T>(xs: seq<T>, p: T -> bool, x: nat)
    requires |xs| > 0 && LastWith(xs[..|xs| - 1], p, x) && !p(xs[|xs| - 1])
    ensures LastWith(xs, p, x)
  {
    var init := xs[..|xs| - 1];
    forall i | x < i < |xs|
      ensures !p(xs[i])
    {
      if i < |init| {
        assert xs[i] == init[i];
      }
    }
  }

  /** Appending keeps the first element satisfying `p`. */
  lemma FirstWithExtend<T>(xs: seq<T>, p: T -> bool, f: nat)
    requires |xs| > 0 && FirstWith(xs[..|xs| - 1], p, f)
    ensures FirstWith(xs, p, f)
  {
    var init := xs[..|xs| - 1];
    assert xs[f] == init[f];
    forall i | 0 <= i < f
      ensures !p(xs[i])
    {
      assert xs[i] == init[i];
    }
  }

  /** When no earlier element satisfies `p`, an appended one that does is the first. */
  lemma FirstWithLast<T>(xs: seq<T>, p: T -> bool)
    requires |xs| > 0 && !Any(xs[..|xs| - 1], p) && p(xs[|xs| - 1])
    ensures FirstWith(xs, p, |xs| - 1)
  {
    var init := xs[..|xs| - 1];
    AnyIff(init, p);
    forall i | 0 <= i < |xs| - 1
      ensures !p(xs[i])
    {
      assert xs[i] == init[i];
    }
  }

  /** A key maps to the last child that contributes it. */
  lemma {:induction false} PropsTableChild(children: seq<Child>, k: PropKey)
    requires k in PropsTable(children)
    ensures LastWith(children, ContributorOf(k), PropsTable(children)[k].child)
    decreases |children|
  {
    var n := |children| - 1;
    var init, c := children[..n], children[n];
    var before := PropsTable(init);
    if IsEffectClass(c.klass) {
      AddWritableEntry(before, c.properties, n, k);
    }
    if !Contributes(c, k) {
      PropsTableChild(init, k);
      LastWithExtend(children, ContributorOf(k), before[k].child);
    }
  }

  /** A key's stored specification is a writable specification with that
      key, taken from the first child that contributes the key. */
  lemma {:induction false} PropsTableSpec(children: seq<Child>, k: PropKey)
    requires k in PropsTable(children)
    ensures var e := PropsTable(children)[k];
      && Key(e.spec) == k && Writable(e.spec)
      && exists f: nat :: FirstWith(children, ContributorOf(k), f) && e.spec in children[f].properties
    decreases |children|
  {
    var n := |children| - 1;
    var init, c := children[..n], children[n];
    var before := PropsTable(init);
    if IsEffectClass(c.klass) {
      AddWritableEntry(before, c.properties, n, k);
    }
    if k in before {
      PropsTableSpec(init, k);
      var f: nat :| FirstWith(init, ContributorOf(k), f) && before[k].spec in init[f].properties;
      FirstWithExtend(children, ContributorOf(k), f);
      assert children[f] == init[f];
    } else {
      PropsTableHasKey(init, k);
      FirstWithLast(children, ContributorOf(k));
    }
  }

  /** The table-building loop: walks the children; for each, splits its
      class into categories and scans them; at the first "Effect" category
      inserts the child's writable properties and stops scanning. */
  method ComputePropsHashtable(element: Option<seq<Child>>) returns (ret: Option<Table>)
    ensures ret == GetPropsHashtable(element)
    ensures ret.None? <==> element.None?
  {
    if element.None? {
      return None;
    }
    var children := element.value;
    var table: Table := map[];
    var i := 0;
    while i < |children|
      invariant 0 <= i <= |children|
      invariant table == PropsTable(children[..i])
    {
      table := AddChildLoop(table, children[i], i);
      assert children[..i + 1][..i] == children[..i];
      i := i + 1;
    }
    assert children[..i] == children;
    ret := Some(table);
  }

  /** The property loop of one effect child: inserts each writable property,
      in order, mapped to the child's position. */
  method InsertWritable(start: Table, properties: seq<ParamSpec>, child: nat) returns (table: Table)
    ensures table == AddWritable(start, properties, child)
  {
    table := start;
    var j := 0;
    while j < |properties|
      invariant 0 <= j <= |properties|
      invariant table == AddWritable(start, properties[..j], child)
    {
      assert properties[..j + 1][..j] == properties[..j];
      if Writable(properties[j]) {
        table := Insert(table, properties[j], child);
      }
      j := j + 1;
    }
    assert properties[..j] == properties;
  }

  /** The category scan of one child: walks its categories and, at the first
      "Effect", inserts the child's writable properties and stops. */
  method AddChildLoop(start: Table, child: Child, index: nat) returns (table: Table)
    ensures table == AddChild(start, child, index)
  {
    table := start;
    var categories := Categories(child.klass);
    var category := 0;
    while category < |categories|
      invariant 0 <= category <= |categories|
      invariant forall c :: 0 <= c < category ==> categories[c] != "Effect"
      invariant table == start
    {
      if categories[category] == "Effect" {
        table := InsertWritable(start, child.properties, index);
        break;
      }
      category := category + 1;
    }
  }
}
