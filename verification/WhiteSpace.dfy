/** The white space of ECMAScript: what its `\s` matches and its `trim` removes, by code. */
module WhiteSpace {
  predicate IsSpaceCode(c: int) {
    || 9 <= c <= 13 || c == 32 || c == 0xa0 || c == 0x1680 || 0x2000 <= c <= 0x200a
    || c == 0x2028 || c == 0x2029 || c == 0x202f || c == 0x205f || c == 0x3000 || c == 0xfeff
  }
}
