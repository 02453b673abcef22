/** The serialization vocabulary shared by every configuration schema:
    the closed set of formats and the two capabilities a schema provides. */
module Serialization {
  import opened Results

  /** The format tag. The enumerators are numbered 0, 1, 2 in declaration order. */
  datatype Serializer = TOML | JSON | YAML

  /** Every format, in declaration order. */
  const AllSerializers: seq<Serializer> := [TOML, JSON, YAML]

  /** The numeric value of an enumerator. */
  function Ordinal(f: Serializer): (n: nat)
    ensures n < |AllSerializers| && AllSerializers[n] == f
  {
    match f
    case TOML => 0
    case JSON => 1
    case YAML => 2
  }

  /** The tag is a closed set of exactly three distinct values. */
  lemma SerializerIsClosed(f: Serializer)
    ensures f in AllSerializers
    ensures |AllSerializers| == 3
    ensures forall i, j :: 0 <= i < j < |AllSerializers| ==> AllSerializers[i] != AllSerializers[j]
    ensures forall g :: Ordinal(f) == Ordinal(g) ==> f == g
  {
  }

  /** The two abstract interfaces a schema type may derive from. The pure
      `serialize(Serializer) const` of `Serializable` becomes a Dafny function
      of the receiver (it reads and cannot write); the mutating
      `deserialize(string_view, Serializer)` of `Deserializable` becomes a
      method that modifies the receiver and returns an `Outcome`. */
  datatype Interface = Serializable | Deserializable

  /** `SerializableType<T>`: `T` derives from `Serializable`. */
  predicate SerializableType(bases: set<Interface>) { Serializable in bases }

  /** `DeserializableType<T>`: `T` derives from `Deserializable`. */
  predicate DeserializableType(bases: set<Interface>) { Deserializable in bases }

  /** `SerdeType<T>`: both capabilities. */
  predicate SerdeType(bases: set<Interface>) { SerializableType(bases) && DeserializableType(bases) }

  /** A type is a serde type exactly when it provides both capabilities, and
      dropping either one leaves a type that is not. */
  lemma SerdeTypeNeedsBoth(bases: set<Interface>)
    ensures SerdeType(bases) <==> bases >= {Serializable, Deserializable}
    ensures !SerdeType(bases - {Serializable}) && !SerdeType(bases - {Deserializable})
  {
  }
}
