/** The lower-case hexadecimal digits of a control character's escape. */
module HexDigits {
  function HexDigit(d: nat): char
    requires d < 16
  {
    if d < 10 then '0' + d as char else 'a' + (d - 10) as char
  }
}
