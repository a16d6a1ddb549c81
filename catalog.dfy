/** The catalog of weapons the roulette draws from: each weapon has a display
    name and three categorical attributes (type, sub weapon, special weapon),
    any of which may be missing in a malformed entry. */
module Catalog {

  datatype Option<+T> = None | Some(value: T)

  /** One attribute value: a stable key and its display name. */
  datatype Attribute = Attribute(key: string, name: string)

  datatype Weapon = Weapon(
    name: string,
    typ: Option<Attribute>,
    sub: Option<Attribute>,
    special: Option<Attribute>)

  /** The three filter categories. */
  datatype Category = Type | Sub | Special

  function AttrOf(w: Weapon, c: Category): Option<Attribute>
  {
    match c
    case Type => w.typ
    case Sub => w.sub
    case Special => w.special
  }

  /** `w` carries an attribute of category `c` whose key is `k`. */
  predicate HasKey(w: Weapon, c: Category, k: string)
  {
    AttrOf(w, c).Some? && AttrOf(w, c).value.key == k
  }

  /** A weapon on which the filter can read all three keys. */
  predicate WellFormed(w: Weapon)
  {
    w.typ.Some? && w.sub.Some? && w.special.Some?
  }

  predicate AllWellFormed(ws: seq<Weapon>)
  {
    forall w :: w in ws ==> WellFormed(w)
  }

  function KeyOf(w: Weapon, c: Category): string
    requires WellFormed(w)
  {
    AttrOf(w, c).value.key
  }
}
