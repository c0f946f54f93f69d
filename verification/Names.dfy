/** Dotted module names. */
module Names {
  /** A dotted name, by its parts. */
  type Name = s: seq<string> | |s| > 0 witness ["a"]
}
