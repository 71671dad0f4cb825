/** `GrayscaleModeEffectParameters`: the ImageSharp provider's own effect
    parameter, a grayscale conversion with an explicit luma mode. An
    immutable value whose equality, operators and hash code depend on the
    mode alone. */
module GrayscaleModeParameters {
  import opened Int32

  /** ImageSharp's `GrayscaleMode` enumeration. Its declaration is not part
      of this model; its members are taken in ImageSharp's order, so their
      underlying values are 0 and 1. */
  datatype GrayscaleMode = Bt709 | Bt601

  /** The underlying value of an enumeration member, which is also what
      `Enum.GetHashCode` returns for an `int`-based enumeration. */
  function Value(m: GrayscaleMode): int32
  {
    match m
    case Bt709 => 0
    case Bt601 => 1
  }

  /** The struct; its datatype constructor is the C# constructor, which
      stores `mode` unchanged in the read-only `Mode` property. */
  datatype GrayscaleModeEffectParameters = GrayscaleModeEffectParameters(mode: GrayscaleMode)

  /** A C# `object` as far as `Equals(object)` can tell: null, a boxed
      `GrayscaleModeEffectParameters`, or an instance of any other type. */
  datatype Object = Null | Boxed(value: GrayscaleModeEffectParameters) | OtherObject(tag: nat)

  /** `Equals(GrayscaleModeEffectParameters other)`: compares the modes,
      which makes it coincide with structural equality of the values. */
  function Equals(a: GrayscaleModeEffectParameters, b: GrayscaleModeEffectParameters): (r: bool)
    ensures r <==> a == b
  {
    a.mode == b.mode
  }

  /** `Equals(object obj)`: a type test followed by the typed `Equals`. */
  function EqualsObject(a: GrayscaleModeEffectParameters, obj: Object): (r: bool)
    ensures r <==> obj == Boxed(a)
  {
    obj.Boxed? && Equals(a, obj.value)
  }

  /** `operator ==`, defined through `Equals`. */
  function EqualityOperator(a: GrayscaleModeEffectParameters, b: GrayscaleModeEffectParameters): (r: bool)
    ensures r <==> a.mode == b.mode
  {
    Equals(a, b)
  }

  /** `operator !=`, the negation of `operator ==`. */
  function InequalityOperator(a: GrayscaleModeEffectParameters, b: GrayscaleModeEffectParameters): (r: bool)
    ensures r <==> a.mode != b.mode
  {
    !EqualityOperator(a, b)
  }

  /** `GetHashCode`: seed 1397651250, multiplied by -1521134295 and added to
      the mode's hash, each step in unchecked 32-bit arithmetic. The seed
      product wraps to 851357954 and the final addition does not wrap. */
  function GetHashCode(p: GrayscaleModeEffectParameters): (h: int32)
    ensures h as int == 851357954 + Value(p.mode) as int
  {
    var hashCode: int32 := 1397651250;
    Wrap(Wrap(hashCode as int * -1521134295) as int + Value(p.mode) as int)
  }

  /** Two values built from modes m1 and m2 are equal exactly when the
      modes are, whichever of `Equals`, `Equals(object)`, `==` or `!=` is
      asked, and the constructor keeps the mode it was given. */
  lemma ConstructedEquality(m1: GrayscaleMode, m2: GrayscaleMode)
    ensures GrayscaleModeEffectParameters(m1).mode == m1
    ensures Equals(GrayscaleModeEffectParameters(m1), GrayscaleModeEffectParameters(m2)) <==> m1 == m2
    ensures EqualsObject(GrayscaleModeEffectParameters(m1), Boxed(GrayscaleModeEffectParameters(m2))) <==> m1 == m2
    ensures EqualityOperator(GrayscaleModeEffectParameters(m1), GrayscaleModeEffectParameters(m2)) <==> m1 == m2
    ensures InequalityOperator(GrayscaleModeEffectParameters(m1), GrayscaleModeEffectParameters(m2)) <==> m1 != m2
  {
  }

  /** `Equals(object)` is false for null and for any object that is not a
      `GrayscaleModeEffectParameters`. */
  lemma EqualsObjectRejectsOtherTypes(a: GrayscaleModeEffectParameters, obj: Object)
    requires !obj.Boxed?
    ensures !EqualsObject(a, obj)
  {
  }

  /** `!=` is the negation of `==`, and `==` agrees with `Equals`. */
  lemma OperatorsAgreeWithEquals(a: GrayscaleModeEffectParameters, b: GrayscaleModeEffectParameters)
    ensures EqualityOperator(a, b) == Equals(a, b)
    ensures InequalityOperator(a, b) == !Equals(a, b)
  {
  }

  /** Equal values have equal hash codes; and since the two modes hash to
      different numbers, equal hash codes also mean equal values. */
  lemma HashCodeAgreesWithEquals(a: GrayscaleModeEffectParameters, b: GrayscaleModeEffectParameters)
    ensures Equals(a, b) <==> GetHashCode(a) == GetHashCode(b)
  {
  }
}
