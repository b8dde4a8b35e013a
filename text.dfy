/** The few pieces of Rust's `str` and `char` API that the host library and
    the key-value provider rely on, each stated by what it returns. */
module Text {
  import opened Results

  /** `str::strip_prefix`: what follows the literal prefix `p` in `s`, when
      `s` starts with `p`. */
  function StripPrefix(s: string, p: string): (r: Option<string>)
    ensures r.Some? <==> p <= s
    ensures r.Some? ==> s == p + r.value
  {
    if p <= s then Some(s[|p|..]) else None
  }

  /** Stripping a prefix undoes prepending it. */
  lemma StripPrefixOfConcat(p: string, t: string)
    ensures StripPrefix(p + t, p) == Some(t)
  {
  }

  /** `str::split_once(d)`: the text before the first `d` and the text after
      it, or nothing when `d` does not occur. */
  function SplitOnce(s: string, d: char): (r: Option<(string, string)>)
    ensures r.None? <==> d !in s
    ensures r.Some? ==> d !in r.value.0 && s == r.value.0 + [d] + r.value.1
  {
    if |s| == 0 then None
    else if s[0] == d then Some(([], s[1..]))
    else
      match SplitOnce(s[1..], d)
      case None => None
      case Some((before, after)) => Some(([s[0]] + before, after))
  }

  /** `char::to_ascii_lowercase`: 'A'..'Z' become 'a'..'z'; every other
      character, ASCII or not, is left alone. */
  function AsciiLower(c: char): (l: char)
    ensures 'A' <= c <= 'Z' ==> 'a' <= l <= 'z' && l as int == c as int + 32
    ensures !('A' <= c <= 'Z') ==> l == c
  {
    if 'A' <= c <= 'Z' then (c as int + 32) as char else c
  }

  /** `str::eq_ignore_ascii_case`: same length, and equal position by
      position once ASCII letters are folded to lower case. */
  predicate EqIgnoreAsciiCase(a: string, b: string) {
    |a| == |b| && forall i :: 0 <= i < |a| ==> AsciiLower(a[i]) == AsciiLower(b[i])
  }

  /** The only characters that fold to a lower-case ASCII letter are that
      letter and its upper-case form. */
  lemma AsciiLowerPreimage(c: char, lower: char)
    requires 'a' <= lower <= 'z'
    ensures AsciiLower(c) == lower <==> c == lower || c as int == lower as int - 32
  {
  }
}
