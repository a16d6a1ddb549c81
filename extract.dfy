/** Attribute extraction: per category, a map from attribute key to display
    name, built in catalog order so that a repeated key keeps the name of the
    last weapon that carries it; weapons lacking the attribute are skipped. */
module Extraction {
  import opened Catalog

  /** The map the extraction loop holds after visiting `ws` in order. */
  function Names(ws: seq<Weapon>, c: Category): map<string, string>
  {
    if ws == [] then map[]
    else
      var m := Names(ws[..|ws| - 1], c);
      match AttrOf(ws[|ws| - 1], c)
      case None => m
      case Some(a) => m[a.key := a.name]
  }

  /** A key is extracted exactly when some weapon carries it. */
  lemma {:induction false} NamesKeys(ws: seq<Weapon>, c: Category, k: string)
    ensures k in Names(ws, c) <==> exists i :: 0 <= i < |ws| && HasKey(ws[i], c, k)
  {
    if ws != [] {
      var p := ws[..|ws| - 1];
      NamesKeys(p, c, k);
      if k in Names(ws, c) && !HasKey(ws[|ws| - 1], c, k) {
        var i :| 0 <= i < |p| && HasKey(p[i], c, k);
        assert ws[i] == p[i];
      }
      if exists i :: 0 <= i < |ws| && HasKey(ws[i], c, k) {
        var i :| 0 <= i < |ws| && HasKey(ws[i], c, k);
        if i < |p| {
          assert p[i] == ws[i];
        }
      }
    }
  }

  /** The name stored for a key is that of the last weapon carrying the key. */
  lemma {:induction false} NamesLastWins(ws: seq<Weapon>, c: Category, i: nat)
    requires i < |ws| && AttrOf(ws[i], c).Some?
    requires forall j :: i < j < |ws| ==> !HasKey(ws[j], c, AttrOf(ws[i], c).value.key)
    ensures AttrOf(ws[i], c).value.key in Names(ws, c)
    ensures Names(ws, c)[AttrOf(ws[i], c).value.key] == AttrOf(ws[i], c).value.name
  {
    if i < |ws| - 1 {
      var p := ws[..|ws| - 1];
      assert p[i] == ws[i];
      forall j | i < j < |p|
        ensures !HasKey(p[j], c, AttrOf(p[i], c).value.key)
      {
        assert p[j] == ws[j];
      }
      NamesLastWins(p, c, i);
      assert !HasKey(ws[|ws| - 1], c, AttrOf(ws[i], c).value.key);
    }
  }

  /** The forEach over the catalog that fills the three maps. */
  method ExtractFilterData(weaponData: seq<Weapon>)
    returns (types: map<string, string>, subs: map<string, string>, specials: map<string, string>)
    ensures types == Names(weaponData, Type)
    ensures subs == Names(weaponData, Sub)
    ensures specials == Names(weaponData, Special)
  {
    types, subs, specials := map[], map[], map[];
    var i := 0;
    while i < |weaponData|
      invariant 0 <= i <= |weaponData|
      invariant types == Names(weaponData[..i], Type)
      invariant subs == Names(weaponData[..i], Sub)
      invariant specials == Names(weaponData[..i], Special)
    {
      var w := weaponData[i];
      assert weaponData[..i + 1][..i] == weaponData[..i];
      if w.typ.Some? {
        types := types[w.typ.value.key := w.typ.value.name];
      }
      if w.sub.Some? {
        subs := subs[w.sub.value.key := w.sub.value.name];
      }
      if w.special.Some? {
        specials := specials[w.special.value.key := w.special.value.name];
      }
      i := i + 1;
    }
    assert weaponData[..i] == weaponData;
  }
}
