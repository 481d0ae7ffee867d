/** Notions that several of the modelled programs share. */
module Common {

  type Byte = x: int | 0 <= x < 256

  predicate ExactlyOneOf(a: bool, b: bool, c: bool) {
    (a || b || c) && !(a && b) && !(a && c) && !(b && c)
  }
}
