/** The smaller and the larger of two integers. */
module Numbers {

  function Min(a: int, b: int): (m: int) {
    if a < b then a else b
  }

  function Max(a: int, b: int): (m: int) {
    if a < b then b else a
  }
}
