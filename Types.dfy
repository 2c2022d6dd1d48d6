/** Basic types shared by the whole engine (rae/core/Types.hpp). */
module Types {

  /** An entity handle. rae::Id is a plain `int`. */
  type Id = int

  /** The reserved handle that names no entity; also the background value of picking. */
  const InvalidId: Id := 0

  datatype Option<T> = None | Some(value: T)

  /** What a system's per-tick `update` reports (declared with the ISystem interface). */
  datatype UpdateStatus = Changed | NotChanged

  /** glm vectors, as their components. Only comparisons and copies are modelled, so reals suffice. */
  datatype Vec2 = Vec2(x: real, y: real)
  datatype Vec3 = Vec3(x: real, y: real, z: real)
  datatype Color = Color(r: real, g: real, b: real, a: real)

  /** `unordered_map::count`: how many entries have this key; a map holds at most one. */
  function Count<K, V>(m: map<K, V>, key: K): (n: nat)
    ensures n <= 1
    ensures n == 1 <==> key in m
  {
    if key in m then 1 else 0
  }

  /** `rae::check(map, key)`: `map.count(key) > 0`. */
  function Check<K, V>(m: map<K, V>, key: K): (r: bool)
    ensures r <==> key in m
  {
    Count(m, key) > 0
  }

  /**
   * `rae::bool_t`: a boolean in a struct. The default constructor leaves the member initialiser
   * `value = false` in force; `bool_t(bool)` stores its argument; the two conversion operators
   * read the stored value, and the `bool&` one also lets a caller write it.
   */
  datatype BoolT = BoolT(value: bool) {

    /** The `operator bool` conversions. */
    function ToBool(): bool {
      value
    }

    /** Writing `v` through the `operator bool&` reference. */
    function Assign(v: bool): (b: BoolT)
      ensures b.ToBool() == v
      ensures ToBool() != v ==> b != this
    {
      BoolT(v)
    }
  }

  /** `bool_t()`. */
  function DefaultBoolT(): (b: BoolT)
    ensures !b.ToBool()
  {
    BoolT(false)
  }

  /** `bool_t(v)`. */
  function FromBool(v: bool): (b: BoolT)
    ensures b.ToBool() == v
  {
    BoolT(v)
  }

  /** Converting a bool into a `bool_t` and back is the identity, and so is the other way round. */
  lemma BoolTRoundTrip(v: bool, b: BoolT)
    ensures FromBool(v).ToBool() == v
    ensures FromBool(b.ToBool()) == b
  {
  }
}
