/** Value types shared by both realizations of the fleet: the .NET primitives the
    source uses, narrowed to what the model needs. */
module Comuni {

  /** A .NET `Guid`: a 128-bit value compared by value. */
  newtype Guid = x: int | 0 <= x < 0x1_0000_0000_0000_0000_0000_0000_0000_0000

  /** A C# `int`: a signed 32-bit value. The modelled code does no arithmetic on it. */
  newtype Int32 = x: int | -0x8000_0000 <= x < 0x8000_0000

  /** A C# `decimal`. The modelled code only copies amounts, never computes with them,
      so an exact real number stands for it. */
  type Decimal = real

  /** A nullable value (`Guid?`, a reference that may be null). */
  datatype Option<T> = None | Some(value: T)
}
