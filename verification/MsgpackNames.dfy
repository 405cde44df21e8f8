/** Properties of the same name: each is kept once, where it came first, with the value that came last. */
module MsgpackNames {
  import opened Basics
  import opened MsgpackInts
  import opened Utf8
  import opened Values
  import opened Msgpack

  /** The pairs of a map, one after another, as properties. */
  function Folded(ps: seq<Field>): seq<Field> {
    if ps == [] then [] else Insert(Folded(ps[..|ps| - 1]), ps[|ps| - 1])
  }

  /** Where a name comes first, and where last. */
  predicate FirstAt(ps: seq<Field>, i: nat, key: Units) {
    i < |ps| && ps[i].key == key && forall j :: 0 <= j < i ==> ps[j].key != key
  }

  predicate LastAt(ps: seq<Field>, i: nat, key: Units) {
    i < |ps| && ps[i].key == key && forall j :: i < j < |ps| ==> ps[j].key != key
  }

  predicate Names(r: seq<Field>, key: Units) { exists i :: 0 <= i < |r| && r[i].key == key }

  /** `at` gives, for each property that is left, the pair that named it first: they keep that order. */
  predicate Ranked(ps: seq<Field>, r: seq<Field>, at: seq<nat>) {
    && |at| == |r|
    && (forall i :: 0 <= i < |r| ==> FirstAt(ps, at[i], r[i].key))
    && (forall i, j :: 0 <= i < j < |r| ==> at[i] < at[j])
  }

  /** Some pair, the last of its name, gave the value. */
  ghost predicate Latest(ps: seq<Field>, f: Field) {
    exists j: nat :: LastAt(ps, j, f.key) && ps[j].value == f.value
  }

  /** Each name once, where it came first, with the value that came last. */
  ghost predicate Settles(ps: seq<Field>, r: seq<Field>) {
    && (exists at: seq<nat> :: Ranked(ps, r, at))
    && (forall i :: 0 <= i < |r| ==> Latest(ps, r[i]))
    && (forall j :: 0 <= j < |ps| ==> Names(r, ps[j].key))
  }

  lemma {:induction false} InsertNew(r: seq<Field>, f: Field)
    requires !Names(r, f.key)
    ensures Insert(r, f) == r + [f]
  {
    if r != [] {
      assert r[0].key != f.key;
      assert !Names(r[1..], f.key) by { assert forall i :: 0 <= i < |r[1..]| ==> r[1..][i] == r[i + 1]; }
      InsertNew(r[1..], f);
      assert r == [r[0]] + r[1..];
    }
  }

  lemma {:induction false} InsertOver(r: seq<Field>, f: Field, i: nat)
    requires i < |r| && r[i].key == f.key && forall j :: 0 <= j < i ==> r[j].key != f.key
    ensures Insert(r, f) == r[i := f]
  {
    if i > 0 {
      assert r[0].key != f.key && r[1..][i - 1] == r[i];
      assert forall j :: 0 <= j < i - 1 ==> r[1..][j] == r[j + 1];
      InsertOver(r[1..], f, i - 1);
      assert r[i := f] == [r[0]] + r[1..][i - 1 := f];
    } else {
      assert r[i := f] == [f] + r[1..];
    }
  }

  /** Properties that are left have different names. */
  lemma RankedApart(ps: seq<Field>, r: seq<Field>, at: seq<nat>, i: nat, j: nat)
    requires Ranked(ps, r, at) && i < |r| && j < |r| && i != j
    ensures r[i].key != r[j].key
  {
    assert FirstAt(ps, at[i], r[i].key) && FirstAt(ps, at[j], r[j].key);
    assert if i < j then at[i] < at[j] else at[j] < at[i];
  }

  // ----- one more pair -----

  lemma FirstMore(ps: seq<Field>, p: Field, i: nat, key: Units)
    requires FirstAt(ps, i, key)
    ensures FirstAt(ps + [p], i, key)
  {
  }

  lemma LatestMore(ps: seq<Field>, p: Field, f: Field)
    requires Latest(ps, f) && p.key != f.key
    ensures Latest(ps + [p], f)
  {
    var j: nat :| LastAt(ps, j, f.key) && ps[j].value == f.value;
    assert LastAt(ps + [p], j, f.key) && (ps + [p])[j] == ps[j];
  }

  lemma LatestLast(ps: seq<Field>, p: Field)
    ensures Latest(ps + [p], p)
  {
    assert LastAt(ps + [p], |ps|, p.key);
  }

  lemma NamesSame(r: seq<Field>, t: seq<Field>, key: Units)
    requires |r| <= |t| && forall i :: 0 <= i < |r| ==> t[i].key == r[i].key
    ensures Names(r, key) ==> Names(t, key)
  {
    if i :| 0 <= i < |r| && r[i].key == key { assert t[i].key == key; }
  }

  lemma RankedNew(ps: seq<Field>, r: seq<Field>, at: seq<nat>, p: Field)
    requires Ranked(ps, r, at) && forall j :: 0 <= j < |ps| ==> ps[j].key != p.key
    ensures Ranked(ps + [p], r + [p], at + [|ps|])
  {
    var qs, t, bt := ps + [p], r + [p], at + [|ps|];
    assert FirstAt(qs, |ps|, p.key);
    hide FirstAt;
    forall i | 0 <= i < |t| ensures FirstAt(qs, bt[i], t[i].key) {
      if i < |r| { FirstMore(ps, p, at[i], r[i].key); }
    }
    forall i, j | 0 <= i < j < |t| ensures bt[i] < bt[j] {
      if j == |r| { FirstIn(ps, r, at, i); }
    }
  }

  lemma FirstIn(ps: seq<Field>, r: seq<Field>, at: seq<nat>, i: nat)
    requires Ranked(ps, r, at) && i < |r|
    ensures at[i] < |ps|
  {
  }

  lemma SettlesNew(ps: seq<Field>, r: seq<Field>, p: Field)
    requires Settles(ps, r) && !Names(r, p.key)
    ensures Settles(ps + [p], r + [p])
  {
    var qs, t := ps + [p], r + [p];
    var at: seq<nat> :| Ranked(ps, r, at);
    forall j | 0 <= j < |ps| ensures ps[j].key != p.key { assert Names(r, ps[j].key); }
    RankedNew(ps, r, at, p);
    forall i | 0 <= i < |r| ensures r[i].key != p.key {}
    hide Ranked, Names, Latest;
    forall i | 0 <= i < |t| ensures Latest(qs, t[i]) {
      if i < |r| { LatestMore(ps, p, r[i]); } else { LatestLast(ps, p); }
    }
    forall j | 0 <= j < |qs| ensures Names(t, qs[j].key) {
      if j < |ps| { NamesSame(r, t, ps[j].key); } else { NamesAt(t, |r|); }
    }
  }

  lemma NamesAt(t: seq<Field>, i: nat)
    requires i < |t|
    ensures Names(t, t[i].key)
  {
  }

  lemma RankedOver(ps: seq<Field>, r: seq<Field>, at: seq<nat>, p: Field, k: nat)
    requires Ranked(ps, r, at) && k < |r| && r[k].key == p.key
    ensures Ranked(ps + [p], r[k := p], at)
  {
    var t := r[k := p];
    forall i | 0 <= i < |t| ensures FirstAt(ps + [p], at[i], t[i].key) { FirstMore(ps, p, at[i], r[i].key); }
    hide FirstAt;
  }

  lemma SettlesOver(ps: seq<Field>, r: seq<Field>, p: Field, k: nat)
    requires Settles(ps, r) && k < |r| && r[k].key == p.key
    ensures Settles(ps + [p], r[k := p])
    ensures forall j :: 0 <= j < k ==> r[j].key != p.key
  {
    var qs, t := ps + [p], r[k := p];
    var at: seq<nat> :| Ranked(ps, r, at);
    hide Ranked, Names, Latest;
    forall i | 0 <= i < |r| && i != k ensures r[i].key != p.key { RankedApart(ps, r, at, i, k); }
    RankedOver(ps, r, at, p, k);
    forall i | 0 <= i < |t| ensures Latest(qs, t[i]) {
      if i == k { LatestLast(ps, p); } else { LatestMore(ps, p, r[i]); }
    }
    forall j | 0 <= j < |qs| ensures Names(t, qs[j].key) {
      if j < |ps| { NamesSame(r, t, ps[j].key); } else { NamesAt(t, k); }
    }
  }

  // ----- all of them -----

  /** Setting properties one after another leaves each name once, where it came first, with the value that came last. */
  lemma {:induction false} FoldSettles(ps: seq<Field>)
    ensures Settles(ps, Folded(ps))
    decreases |ps|
  {
    if ps == [] {
      assert Ranked(ps, [], []);
    } else {
      FoldSettles(ps[..|ps| - 1]);
      hide Settles;
      InsertSettles(ps[..|ps| - 1], Folded(ps[..|ps| - 1]), ps[|ps| - 1]);
      assert ps == ps[..|ps| - 1] + [ps[|ps| - 1]];
    }
  }

  lemma InsertSettles(ps: seq<Field>, r: seq<Field>, p: Field)
    requires Settles(ps, r)
    ensures Settles(ps + [p], Insert(r, p))
  {
    hide Settles, Insert;
    if Names(r, p.key) {
      var k :| 0 <= k < |r| && r[k].key == p.key;
      SettlesOver(ps, r, p, k);
      InsertOver(r, p, k);
    } else {
      SettlesNew(ps, r, p);
      InsertNew(r, p);
    }
  }

  /** The properties of an object that are written, in their normal form. */
  function Written(fields: seq<Field>): seq<Field> {
    if fields == [] then []
    else (if fields[0].value.Undef? then [] else [Field(Normal(fields[0].key), NormalForm(fields[0].value))]) + Written(fields[1..])
  }

  lemma FoldMore(ps: seq<Field>, p: Field)
    ensures Folded(ps + [p]) == Insert(Folded(ps), p)
  {
    assert (ps + [p])[..|ps|] == ps;
  }

  lemma {:induction false} NormalFolds(fields: seq<Field>, ps: seq<Field>)
    ensures NormalFields(fields, Folded(ps)) == Folded(ps + Written(fields))
    decreases |fields|
  {
    hide NormalForm, Normal, Insert, Folded;
    if fields == [] {
      assert ps + [] == ps;
    } else if fields[0].value.Undef? {
      NormalFolds(fields[1..], ps);
      assert [] + Written(fields[1..]) == Written(fields[1..]);
    } else {
      var p := Field(Normal(fields[0].key), NormalForm(fields[0].value));
      FoldMore(ps, p);
      NormalFolds(fields[1..], ps + [p]);
      assert (ps + [p]) + Written(fields[1..]) == ps + ([p] + Written(fields[1..]));
    }
  }

  /** What an object reads back as: of the properties written under one name, the last value, where the first was. */
  lemma NormalSettles(fields: seq<Field>)
    ensures NormalForm(Obj(fields)).Obj? && Settles(Written(fields), NormalForm(Obj(fields)).fields)
  {
    FoldSettles(Written(fields));
    hide Settles, Written;
    NormalFolded(fields);
  }

  lemma NormalFolded(fields: seq<Field>)
    ensures NormalForm(Obj(fields)) == Obj(Folded(Written(fields)))
  {
    NormalFolds(fields, []);
    assert [] + Written(fields) == Written(fields);
    assert Folded([]) == [];
    hide Written, Folded, NormalFields, Normal;
  }

  /** The pairs that are read one after another. */
  function PairsOf(h: Host, b: Bytes, pos: nat, n: nat): seq<Field>
    requires pos <= |b|
    decreases n
  {
    if n == 0 then []
    else match Read(h, b, pos)
      case Got(k, mid) =>
        (match Read(h, b, mid)
         case Got(v, next) => [Field(KeyOf(h, k), v)] + PairsOf(h, b, next, n - 1)
         case _ => [])
      case _ => []
  }

  lemma {:induction false} PairsFold(h: Host, b: Bytes, pos: nat, n: nat, ps: seq<Field>)
    requires pos <= |b|
    ensures var r := ReadPairs(h, b, pos, n, Folded(ps)); r.GotPairs? ==> r.fields == Folded(ps + PairsOf(h, b, pos, n))
    decreases n
  {
    hide Read, Folded, KeyOf, Insert;
    if n == 0 {
      assert ps + [] == ps;
    } else {
      var k := Read(h, b, pos);
      if k.Got? {
        var v := Read(h, b, k.next);
        if v.Got? {
          var p := Field(KeyOf(h, k.value), v.value);
          FoldMore(ps, p);
          PairsFold(h, b, v.next, n - 1, ps + [p]);
          assert (ps + [p]) + PairsOf(h, b, v.next, n - 1) == ps + ([p] + PairsOf(h, b, v.next, n - 1));
        }
      }
    }
  }

  /** A map that is read holds, of the pairs under one name, the last value, where the first was. */
  lemma PairsSettle(h: Host, b: Bytes, pos: nat, n: nat)
    requires pos <= |b|
    ensures var r := ReadPairs(h, b, pos, n, []); r.GotPairs? ==> Settles(PairsOf(h, b, pos, n), r.fields)
  {
    assert Folded([]) == [];
    assert [] + PairsOf(h, b, pos, n) == PairsOf(h, b, pos, n);
    FoldSettles(PairsOf(h, b, pos, n));
    hide Settles, PairsOf, ReadPairs, Folded;
    PairsFold(h, b, pos, n, []);
  }
}
