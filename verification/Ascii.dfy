/** Lower case for ASCII letters. It decides prefixes without the letters i and k,
    which are the only ASCII letters that other characters lower to. */
module Ascii {
  function Lower(c: char): char {
    if 'A' <= c <= 'Z' then (c as int + 32) as char else c
  }
}
