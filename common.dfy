// Small shared vocabulary: Python's None, the truthiness of strings, and the
// handful of built-in string operations the widget engine relies on.

module Common {

  /** Python's `None` or a value. */
  datatype Option<+T> = None | Some(value: T)

  /** Python truthiness of an optional string: `None` and `""` are falsy. */
  predicate Truthy(s: Option<string>)
  {
    s.Some? && s.value != ""
  }

  /** `str.lower()` on one character, restricted to ASCII letters. */
  function LowerChar(c: char): char
  {
    if 'A' <= c <= 'Z' then (c as int + 32) as char else c
  }

  /** `str.lower()`, restricted to ASCII letters. */
  function Lower(s: string): string
  {
    seq(|s|, i requires 0 <= i < |s| => LowerChar(s[i]))
  }

  lemma LowerIdempotent(s: string)
    ensures Lower(Lower(s)) == Lower(s)
  {
  }

  /** `s.endswith(suffix)`. */
  predicate EndsWith(s: string, suffix: string)
  {
    |suffix| <= |s| && s[|s| - |suffix|..] == suffix
  }

  /** Python's slice `s[:n]`, including a negative `n` counted from the end. */
  function PySliceTo(s: string, n: int): string
  {
    if n >= 0 then s[..if n <= |s| then n else |s|]
    else if |s| + n >= 0 then s[..|s| + n]
    else ""
  }

  /** Two strings with a common prefix are equal exactly when their tails are. */
  lemma PrefixCancel(pre: string, a: string, b: string)
    ensures pre + a == pre + b ==> a == b
  {
    if pre + a == pre + b {
      assert a == (pre + a)[|pre|..];
      assert b == (pre + b)[|pre|..];
    }
  }
}
