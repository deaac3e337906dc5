/** Small vocabulary shared by every module. */
module Base {

  datatype Option<+T> = None | Some(value: T)

  /** One cell of a slot array: a null or a non-null `void *`. */
  datatype Slot<+T> = Empty | Full(item: T)

  type byte = b: int | 0 <= b < 256

  const WORD: nat := 0x1_0000_0000
}
