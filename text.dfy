/**
 * The two pieces of Go's `strings` package that gomplate.go relies on,
 * `strings.Join` and `strings.SplitN(s, "=", 2)`, and one fact about
 * sequence concatenation that the proofs of the other modules share.
 */
module Text {
  import opened Wrappers

  /** `strings.Join(parts, sep)`: the parts with `sep` between neighbours. */
  function Join(parts: seq<string>, sep: string): string
  {
    if |parts| == 0 then ""
    else if |parts| == 1 then parts[0]
    else parts[0] + sep + Join(parts[1..], sep)
  }

  /** The index of the first occurrence of `c` in `s`, if any. */
  function IndexOf(s: string, c: char): (r: Option<nat>)
    ensures r.None? <==> c !in s
    ensures r.Some? ==> r.value < |s| && s[r.value] == c && c !in s[..r.value]
  {
    if s == [] then None
    else if s[0] == c then Some(0)
    else
      match IndexOf(s[1..], c)
      case None => None
      case Some(i) =>
        assert s[1..][..i] == s[1..i + 1];
        Some(i + 1)
  }

  /**
   * `strings.SplitN(s, "=", 2)`: the whole string when it holds no `=`,
   * otherwise the part before the first `=` and the part after it.
   */
  function SplitAtEquals(s: string): (parts: seq<string>)
    ensures 1 <= |parts| <= 2
    ensures |parts| == 1 <==> '=' !in s
    ensures |parts| == 1 ==> parts[0] == s
    ensures |parts| == 2 ==> parts[0] + "=" + parts[1] == s && '=' !in parts[0]
  {
    match IndexOf(s, '=')
    case None => [s]
    case Some(i) =>
      assert s[..i] + "=" + s[i + 1..] == s;
      [s[..i], s[i + 1..]]
  }

  /** Splitting happens at the first `=` only: `a=b=c` gives `a` and `b=c`. */
  lemma SplitAtFirstEquals(a: string, b: string)
    requires '=' !in a
    ensures SplitAtEquals(a + "=" + b) == [a, b]
  {
    var s := a + "=" + b;
    assert s[|a|] == '=';
    var i := IndexOf(s, '=').value;
    assert s[..|a|] == a;
    assert s[..i] == a;
    assert s[i + 1..] == b;
  }

  /** Concatenation regroups: stated once so that proofs can regroup a long string or trace cheaply. */
  lemma AppendAssociative<T>(a: seq<T>, b: seq<T>, c: seq<T>)
    ensures a + b + c == a + (b + c)
  {
  }
}
