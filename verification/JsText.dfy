/** JavaScript's notion of white space, as `trim` uses it. */
module JsText {
  predicate White(c: char) {
    var v := c as int;
    9 <= v <= 13 || v == 32 || v == 0xA0 || v == 0x1680 || 0x2000 <= v <= 0x200A || v == 0x2028 || v == 0x2029
    || v == 0x202F || v == 0x205F || v == 0x3000 || v == 0xFEFF
  }
}
