/**
 * The header table of a transfer: a `QMap<QString, QByteArray>` from header
 * name to raw (already encoded) value. A QMap keeps its entries sorted by key
 * and holds each key once, so it is modelled as a sequence of entries whose
 * names strictly increase.
 */
module HeaderTable {
  import opened CurlDefs

  type Byte = b: int | 0 <= b < 256
  type Bytes = seq<Byte>

  datatype Entry = Entry(name: string, value: Bytes)
  type Table = seq<Entry>

  /** The order of QString keys: character by character, a proper prefix first. */
  predicate Less(a: string, b: string)
    decreases |a|
  {
    b != [] && (a == [] || a[0] < b[0] || (a[0] == b[0] && Less(a[1..], b[1..])))
  }

  lemma {:induction false} LessIrreflexive(a: string)
    ensures !Less(a, a)
    decreases |a|
  {
    if a != [] {
      LessIrreflexive(a[1..]);
    }
  }

  lemma {:induction false} LessTransitive(a: string, b: string, c: string)
    requires Less(a, b) && Less(b, c)
    ensures Less(a, c)
    decreases |a|
  {
    if a != [] && a[0] == b[0] && b[0] == c[0] {
      LessTransitive(a[1..], b[1..], c[1..]);
    }
  }

  lemma {:induction false} LessTotal(a: string, b: string)
    requires a != b
    ensures Less(a, b) || Less(b, a)
    decreases |a|
  {
    if a != [] && b != [] && a[0] == b[0] {
      assert a == [a[0]] + a[1..] && b == [b[0]] + b[1..];
      LessTotal(a[1..], b[1..]);
    }
  }

  /** The QMap invariant: names strictly increase along the table. */
  ghost predicate Ordered(t: Table) {
    forall i, j :: 0 <= i < j < |t| ==> Less(t[i].name, t[j].name)
  }

  function Names(t: Table): set<string> {
    set e | e in t :: e.name
  }

  /** Each name appears at most once, so the table has one entry per key. */
  lemma {:induction false} OrderedNamesDistinct(t: Table)
    requires Ordered(t)
    ensures forall i, j :: 0 <= i < |t| && 0 <= j < |t| && i != j ==> t[i].name != t[j].name
    ensures |Names(t)| == |t|
    decreases |t|
  {
    forall i, j | 0 <= i < |t| && 0 <= j < |t| && i != j
      ensures t[i].name != t[j].name
    {
      if i < j {
        LessIrreflexive(t[i].name);
      } else {
        LessIrreflexive(t[j].name);
      }
    }
    if t != [] {
      FirstBelowRest(t);
      OrderedNamesDistinct(t[1..]);
      NamesCons(t[0], t[1..]);
      assert t == [t[0]] + t[1..];
      LessIrreflexive(t[0].name);
      assert t[0].name !in Names(t[1..]);
    }
  }

  lemma NamesCons(e: Entry, t: Table)
    ensures Names([e] + t) == {e.name} + Names(t)
  {
    assert forall x :: x in [e] + t <==> x == e || x in t;
  }

  /** The entry stored under `name`, if any. */
  function Find(t: Table, name: string): (r: Option<Bytes>)
    ensures r.Some? <==> name in Names(t)
    ensures r.Some? ==> Entry(name, r.value) in t
    decreases |t|
  {
    if t == [] then None
    else if t[0].name == name then Some(t[0].value)
    else
      assert t == [t[0]] + t[1..];
      Find(t[1..], name)
  }

  /** `QMap::operator[] const`: the stored value, or an empty value for an absent key. */
  function Lookup(t: Table, name: string): (r: Bytes)
    ensures name !in Names(t) ==> r == []
    ensures name in Names(t) ==> Entry(name, r) in t
  {
    match Find(t, name)
    case Some(v) => v
    case None => []
  }

  /** In an ordered table the value found is the one entry carrying the name. */
  lemma LookupUnique(t: Table, name: string, v: Bytes)
    requires Ordered(t) && Entry(name, v) in t
    ensures Lookup(t, name) == v
  {
    OrderedNamesDistinct(t);
  }

  /** `QMap::operator[]` assignment: replace the value of `name`, or insert it in key order. */
  function Insert(t: Table, name: string, value: Bytes): (r: Table)
    requires Ordered(t)
    ensures Ordered(r)
    ensures Names(r) == Names(t) + {name}
    decreases |t|
  {
    if t == [] then [Entry(name, value)]
    else if t[0].name == name then
      assert t == [t[0]] + t[1..];
      NamesCons(t[0], t[1..]);
      NamesCons(Entry(name, value), t[1..]);
      [Entry(name, value)] + t[1..]
    else if Less(name, t[0].name) then
      ForallLess(t, name);
      NamesCons(Entry(name, value), t);
      [Entry(name, value)] + t
    else
      LessTotal(name, t[0].name);
      var rest := Insert(t[1..], name, value);
      FirstBelowRest(t);
      assert t == [t[0]] + t[1..];
      PrependOrdered(t[0], rest);
      NamesCons(t[0], t[1..]);
      NamesCons(t[0], rest);
      [t[0]] + rest
  }

  /** `QMap::remove`: drop the entry of `name`, if there is one. */
  function Remove(t: Table, name: string): (r: Table)
    requires Ordered(t)
    ensures Ordered(r)
    ensures Names(r) == Names(t) - {name}
    ensures name !in Names(t) ==> r == t
    decreases |t|
  {
    if t == [] then []
    else if t[0].name == name then
      FirstBelowRest(t);
      LessIrreflexive(name);
      assert t == [t[0]] + t[1..];
      NamesCons(t[0], t[1..]);
      t[1..]
    else
      var rest := Remove(t[1..], name);
      FirstBelowRest(t);
      assert t == [t[0]] + t[1..];
      PrependOrdered(t[0], rest);
      NamesCons(t[0], t[1..]);
      NamesCons(t[0], rest);
      [t[0]] + rest
  }

  /** Reading a name after storing it gives the stored value; other names are untouched. */
  lemma {:induction false} FindInsert(t: Table, name: string, value: Bytes, other: string)
    requires Ordered(t)
    ensures Find(Insert(t, name, value), other) == if other == name then Some(value) else Find(t, other)
    decreases |t|
  {
    if t != [] && t[0].name != name && !Less(name, t[0].name) {
      FindInsert(t[1..], name, value, other);
    }
  }

  /** After removing a name it is absent; other names are untouched. */
  lemma {:induction false} FindRemove(t: Table, name: string, other: string)
    requires Ordered(t)
    ensures Find(Remove(t, name), other) == if other == name then None else Find(t, other)
    decreases |t|
  {
    if t != [] && t[0].name != name {
      FindRemove(t[1..], name, other);
    }
  }

  // Helpers for the ordering proofs.

  lemma FirstBelowRest(t: Table)
    requires Ordered(t) && t != []
    ensures Ordered(t[1..])
    ensures forall x :: x in Names(t[1..]) ==> Less(t[0].name, x)
  {
    forall x | x in Names(t[1..]) ensures Less(t[0].name, x) {
      var e :| e in t[1..] && e.name == x;
      var k :| 0 <= k < |t[1..]| && t[1..][k] == e;
      assert t[k + 1] == e;
    }
  }

  lemma ForallLess(t: Table, name: string)
    requires Ordered(t) && t != [] && Less(name, t[0].name)
    ensures forall j :: 0 <= j < |t| ==> Less(name, t[j].name)
  {
    forall j | 0 < j < |t| ensures Less(name, t[j].name) {
      LessTransitive(name, t[0].name, t[j].name);
    }
  }

  lemma PrependOrdered(e: Entry, t: Table)
    requires Ordered(t)
    requires forall x :: x in Names(t) ==> Less(e.name, x)
    ensures Ordered([e] + t)
  {
    forall j | 0 <= j < |t| ensures Less(e.name, t[j].name) {
      assert t[j] in t;
    }
  }
}
