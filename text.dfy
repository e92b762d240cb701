/** String and sequence helpers with the meaning Python gives them. */
module Text {

  /**
   * `str.lower()` restricted to ASCII letters. Every comparison the proxy makes
   * after lower-casing is against an ASCII word ("true", "content-type", ...).
   */
  function LowerChar(c: char): char {
    if 'A' <= c <= 'Z' then (c as int + 32) as char else c
  }

  function Lower(s: string): (r: string)
    ensures |r| == |s|
    ensures forall i :: 0 <= i < |s| ==> r[i] == LowerChar(s[i])
  {
    seq(|s|, i requires 0 <= i < |s| => LowerChar(s[i]))
  }

  /** `s.startswith(prefix)`. */
  predicate StartsWith(s: string, prefix: string) {
    |prefix| <= |s| && s[..|prefix|] == prefix
  }

  /** `needle in hay` on two strings. */
  predicate Contains(hay: string, needle: string) {
    StartsWith(hay, needle) || (hay != [] && Contains(hay[1..], needle))
  }

  /** `"".join(parts)` for strings, `sum(parts, [])` for lists. */
  function Flatten<T>(parts: seq<seq<T>>): seq<T> {
    if parts == [] then [] else parts[0] + Flatten(parts[1..])
  }

  lemma {:induction false} FlattenAppend<T>(a: seq<seq<T>>, b: seq<seq<T>>)
    ensures Flatten(a + b) == Flatten(a) + Flatten(b)
  {
    if a == [] {
      assert a + b == b;
    } else {
      assert (a + b)[1..] == a[1..] + b;
      FlattenAppend(a[1..], b);
    }
  }

  function Min(a: int, b: int): int {
    if a <= b then a else b
  }
}
