/** Shared value types. */
module Base {

  datatype Option<+T> = None | Some(value: T)

  /** The value stored under `key`, or `fallback`: the source's `map.get(key) ?? fallback`. */
  function GetOr<K, V>(m: map<K, V>, key: K, fallback: V): V {
    if key in m then m[key] else fallback
  }

  /** Rust's `char::is_whitespace`. */
  predicate IsWhiteSpace(c: char) {
    c == ' ' || '\t' <= c <= '\r' || c == '\U{0085}' || c == '\U{00A0}' || c == '\U{1680}'
    || '\U{2000}' <= c <= '\U{200A}' || c == '\U{2028}' || c == '\U{2029}' || c == '\U{202F}' || c == '\U{205F}'
    || c == '\U{3000}'
  }

  function LowerChar(c: char): char {
    if 'A' <= c <= 'Z' then c - 'A' + 'a' else c
  }

  /** ASCII letters in lower case. */
  function Lower(s: string): (r: string)
    ensures |r| == |s| && forall i :: 0 <= i < |s| ==> r[i] == LowerChar(s[i])
  {
    if s == "" then "" else [LowerChar(s[0])] + Lower(s[1..])
  }
}
