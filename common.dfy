/** Small shared vocabulary: optional values, and Go's integer division. */
module Common {

  /** Go's nil pointer / nil slice versus a present value. */
  datatype Option<+T> = None | Some(value: T)

  /** A reference to a named object in the orchestration store (namespace and name). */
  datatype ObjectRef = ObjectRef(namespace: string, name: string)

  /** Bytes in a mebibyte (1024 * 1024). */
  const MiB: int := 1048576

  /** Go's `a / 1024` on integers, which truncates toward zero (Dafny's `/` is Euclidean). */
  function GoDiv1024(a: int): (q: int)
    ensures a >= 0 ==> 0 <= 1024 * q <= a < 1024 * q + 1024
    ensures a < 0 ==> 1024 * q - 1024 < a <= 1024 * q <= 0
  {
    if a >= 0 then a / 1024 else -((-a) / 1024)
  }

  /** `v / 1024 / 1024` as the controller writes it: bytes to whole mebibytes. */
  function ToMiB(bytes: int): (mb: int)
    ensures bytes >= 0 ==> 0 <= mb && mb * MiB <= bytes < mb * MiB + MiB
    ensures bytes < 0 ==> mb <= 0 && mb * MiB - MiB < bytes <= mb * MiB
  {
    var kib := GoDiv1024(bytes);
    var mb := GoDiv1024(kib);
    assert bytes >= 0 ==> 1024 * kib <= bytes < 1024 * kib + 1024;
    assert bytes >= 0 ==> 1024 * mb <= kib < 1024 * mb + 1024;
    assert bytes < 0 ==> 1024 * kib - 1024 < bytes <= 1024 * kib;
    assert bytes < 0 ==> 1024 * mb - 1024 < kib <= 1024 * mb;
    mb
  }
}
