/** Definitions shared by the streaming and the analytics side. */
module Common {

  const MAX_U64: nat := 0xFFFF_FFFF_FFFF_FFFF

  /** An image value; the pixels play no role. */
  datatype Image = Image(isNull: bool, isRgb888: bool, width: int, height: int)

  const NULL_IMAGE := Image(true, false, 0, 0)
}
