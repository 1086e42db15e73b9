/** The C integer widths the kernel module computes in, and the optional value. */
module MachineIntegers {

  const TWO_TO_THE_8: int := 0x100
  const TWO_TO_THE_16: int := 0x1_0000
  const TWO_TO_THE_31: int := 0x8000_0000
  const TWO_TO_THE_32: int := 0x1_0000_0000

  type uint8 = x: int | 0 <= x < TWO_TO_THE_8
  type uint16 = x: int | 0 <= x < TWO_TO_THE_16
  type uint32 = x: int | 0 <= x < TWO_TO_THE_32

  /** C conversion of an integer to `uint32_t`. */
  function Wrap32(x: int): uint32 {
    x % TWO_TO_THE_32
  }

  /** C conversion of an integer to `uint8_t`. */
  function Wrap8(x: int): uint8 {
    x % TWO_TO_THE_8
  }

  datatype Option<+T> = None | Some(value: T)
}
