/** Filter sets and the pool filter: three sets of selected keys, where an
    empty set places no restriction on its category, and the candidate pool is
    the order-preserving subsequence of the catalog passing all three. */
module Filter {
  import opened Catalog

  /** The three selection sets (selected types, subs and specials). */
  datatype Selection = Selection(types: set<string>, subs: set<string>, specials: set<string>)
  {
    function Get(c: Category): set<string>
    {
      match c
      case Type => types
      case Sub => subs
      case Special => specials
    }

    /** Flips membership of `key` in the set of category `c` only. */
    function Toggle(c: Category, key: string): (r: Selection)
      ensures r.Get(c) == ToggleKey(Get(c), key)
      ensures forall d :: d != c ==> r.Get(d) == Get(d)
    {
      match c
      case Type => this.(types := ToggleKey(types, key))
      case Sub => this.(subs := ToggleKey(subs, key))
      case Special => this.(specials := ToggleKey(specials, key))
    }
  }

  const NoSelection := Selection({}, {}, {})

  /** A key not in the set is added; a key in it is removed; no other key
      changes. */
  function ToggleKey(s: set<string>, key: string): (r: set<string>)
    ensures key in r <==> key !in s
    ensures forall k :: k != key ==> (k in r <==> k in s)
  {
    if key in s then s - {key} else s + {key}
  }

  /** Toggling the same key twice restores the selection. */
  lemma ToggleTwice(sel: Selection, c: Category, key: string)
    ensures sel.Toggle(c, key).Toggle(c, key) == sel
  {
    var r := sel.Toggle(c, key).Toggle(c, key);
    assert r.Get(c) == sel.Get(c);
    assert r.Get(Type) == sel.Get(Type) && r.Get(Sub) == sel.Get(Sub) && r.Get(Special) == sel.Get(Special);
  }

  /** Per-category test: no selection, or the key is selected. */
  predicate Matches(s: set<string>, key: string)
  {
    s == {} || key in s
  }

  /** The conjunction of the three category tests. */
  predicate Passes(w: Weapon, sel: Selection)
    requires WellFormed(w)
  {
    Matches(sel.types, KeyOf(w, Type))
      && Matches(sel.subs, KeyOf(w, Sub))
      && Matches(sel.specials, KeyOf(w, Special))
  }

  /** `a` is obtained from `b` by deleting elements, keeping order. */
  predicate IsSubsequence<T(==)>(a: seq<T>, b: seq<T>)
    decreases |b|
  {
    a == [] || (b != [] && ((a[0] == b[0] && IsSubsequence(a[1..], b[1..])) || IsSubsequence(a, b[1..])))
  }

  /** The `filter` call over the catalog. */
  function FilterPool(ws: seq<Weapon>, sel: Selection): (r: seq<Weapon>)
    requires AllWellFormed(ws)
    ensures |r| <= |ws|
    ensures forall w :: w in r ==> w in ws && Passes(w, sel)
  {
    if ws == [] then []
    else
      var rest := FilterPool(ws[1..], sel);
      if Passes(ws[0], sel) then [ws[0]] + rest else rest
  }

  /** Each weapon occurs in the pool exactly as often as in the catalog if it
      passes the filter, and not at all otherwise. */
  lemma {:induction false} FilterCount(ws: seq<Weapon>, sel: Selection, w: Weapon)
    requires AllWellFormed(ws)
    ensures multiset(FilterPool(ws, sel))[w] == if w in ws && Passes(w, sel) then multiset(ws)[w] else 0
  {
    if ws != [] {
      FilterCount(ws[1..], sel, w);
      assert ws == [ws[0]] + ws[1..];
      if w != ws[0] && w !in ws[1..] {
        assert w !in ws;
      }
    }
  }

  /** A weapon is in the pool iff it is in the catalog and passes every category. */
  lemma FilterMembership(ws: seq<Weapon>, sel: Selection, w: Weapon)
    requires AllWellFormed(ws)
    ensures w in FilterPool(ws, sel) <==> w in ws && Passes(w, sel)
  {
    FilterCount(ws, sel, w);
  }

  lemma {:induction false} FilterIsSubsequence(ws: seq<Weapon>, sel: Selection)
    requires AllWellFormed(ws)
    ensures IsSubsequence(FilterPool(ws, sel), ws)
  {
    if ws != [] {
      FilterIsSubsequence(ws[1..], sel);
      var rest := FilterPool(ws[1..], sel);
      if Passes(ws[0], sel) {
        assert ([ws[0]] + rest)[1..] == rest;
      }
    }
  }

  /** With nothing selected the pool is the whole catalog, in order. */
  lemma {:induction false} NoFilterKeepsAll(ws: seq<Weapon>)
    requires AllWellFormed(ws)
    ensures FilterPool(ws, NoSelection) == ws
  {
    if ws != [] {
      NoFilterKeepsAll(ws[1..]);
      assert ws == [ws[0]] + ws[1..];
    }
  }

  /** A weaker filter keeps a superset of the pool, in the same order. */
  lemma {:induction false} FilterMonotone(ws: seq<Weapon>, a: Selection, b: Selection)
    requires AllWellFormed(ws)
    requires forall w :: w in ws && Passes(w, a) ==> Passes(w, b)
    ensures IsSubsequence(FilterPool(ws, a), FilterPool(ws, b))
  {
    if ws != [] {
      assert forall w :: w in ws[1..] ==> w in ws;
      FilterMonotone(ws[1..], a, b);
      var ra, rb := FilterPool(ws[1..], a), FilterPool(ws[1..], b);
      if Passes(ws[0], a) {
        assert ([ws[0]] + ra)[1..] == ra && ([ws[0]] + rb)[1..] == rb;
      } else if Passes(ws[0], b) {
        assert ([ws[0]] + rb)[1..] == rb;
      }
    }
  }

  /** Selecting one more key in a category that already has a selection never
      shrinks the pool; selecting the first key in a category never grows it. */
  lemma AddKeyMonotone(ws: seq<Weapon>, sel: Selection, c: Category, key: string)
    requires AllWellFormed(ws)
    requires key !in sel.Get(c)
    ensures sel.Get(c) != {} ==> IsSubsequence(FilterPool(ws, sel), FilterPool(ws, sel.Toggle(c, key)))
    ensures sel.Get(c) == {} ==> IsSubsequence(FilterPool(ws, sel.Toggle(c, key)), FilterPool(ws, sel))
  {
    var t := sel.Toggle(c, key);
    if sel.Get(c) != {} {
      FilterMonotone(ws, sel, t);
    } else {
      FilterMonotone(ws, t, sel);
    }
  }

  /** Deselecting one of several keys never grows the pool; deselecting the
      only key of a category never shrinks it. */
  lemma RemoveKeyMonotone(ws: seq<Weapon>, sel: Selection, c: Category, key: string)
    requires AllWellFormed(ws)
    requires key in sel.Get(c)
    ensures sel.Get(c) != {key} ==> IsSubsequence(FilterPool(ws, sel.Toggle(c, key)), FilterPool(ws, sel))
    ensures sel.Get(c) == {key} ==> IsSubsequence(FilterPool(ws, sel), FilterPool(ws, sel.Toggle(c, key)))
  {
    var t := sel.Toggle(c, key);
    if sel.Get(c) != {key} {
      var other :| other in sel.Get(c) && other != key;
      assert other in t.Get(c);
      FilterMonotone(ws, t, sel);
    } else {
      assert t.Get(c) == {};
      FilterMonotone(ws, sel, t);
    }
  }

  /** Three weapons A = (X, P, 1), B = (X, Q, 1), C = (Y, P, 2): selecting
      type X keeps A and B in catalog order; selecting Y as well brings C
      back; additionally selecting special 3 leaves nothing. */
  lemma ThreeWeaponScenario(a: Weapon, b: Weapon, c: Weapon)
    requires a == Weapon("A", Some(Attribute("X", "x")), Some(Attribute("P", "p")), Some(Attribute("1", "one")))
    requires b == Weapon("B", Some(Attribute("X", "x")), Some(Attribute("Q", "q")), Some(Attribute("1", "one")))
    requires c == Weapon("C", Some(Attribute("Y", "y")), Some(Attribute("P", "p")), Some(Attribute("2", "two")))
    ensures FilterPool([a, b, c], Selection({"X"}, {}, {})) == [a, b]
    ensures FilterPool([a, b, c], Selection({"X", "Y"}, {}, {})) == [a, b, c]
    ensures FilterPool([a, b, c], Selection({"X", "Y"}, {}, {"3"})) == []
  {
    assert [a, b, c][1..] == [b, c] && [b, c][1..] == [c] && [c][1..] == [];
    assert "Y" != "X" && "Y" in {"X", "Y"} && "1" != "3" && "2" != "3";
    assert !Passes(c, Selection({"X"}, {}, {}));
    assert Passes(c, Selection({"X", "Y"}, {}, {}));
    assert !Passes(a, Selection({"X", "Y"}, {}, {"3"}));
    assert !Passes(b, Selection({"X", "Y"}, {}, {"3"}));
    assert !Passes(c, Selection({"X", "Y"}, {}, {"3"}));
    forall sel | sel in [Selection({"X"}, {}, {}), Selection({"X", "Y"}, {}, {}), Selection({"X", "Y"}, {}, {"3"})]
      ensures FilterPool([a, b, c], sel) == (if Passes(a, sel) then [a] else []) + FilterPool([b, c], sel)
      ensures FilterPool([b, c], sel) == (if Passes(b, sel) then [b] else []) + FilterPool([c], sel)
      ensures FilterPool([c], sel) == if Passes(c, sel) then [c] else []
    {
    }
  }
}
