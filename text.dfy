/**
 * The two string primitives the chapter parser relies on: `starts_with`
 * and the first item of `str::lines`.
 */
module Text {
  import opened Models

  predicate StartsWith(s: string, prefix: string) {
    |prefix| <= |s| && s[..|prefix|] == prefix
  }

  /** Position of the first occurrence of `c` in `s`, if any. */
  function IndexOf(s: string, c: char): (r: Option<nat>)
    ensures r.None? ==> c !in s
    ensures r.Some? ==> r.value < |s| && s[r.value] == c && c !in s[..r.value]
  {
    if s == [] then None
    else if s[0] == c then Some(0)
    else match IndexOf(s[1..], c)
      case None => None
      case Some(i) =>
        assert s[1..][..i] == s[1..i + 1];
        Some(i + 1)
  }

  /**
   * `t` is the first line of `s` as `str::lines` splits it: `t` holds no line
   * feed and is followed in `s` by the end of the text, by "\n" (then `t` does
   * not end in a carriage return), or by "\r\n". A carriage return that is not
   * followed by a line feed stays part of the line.
   */
  ghost predicate IsFirstLine(s: string, t: string) {
    '\n' !in t &&
    (s == t
     || (StartsWith(s, t + "\n") && !(|t| > 0 && t[|t| - 1] == '\r'))
     || StartsWith(s, t + "\r\n"))
  }

  /** `s.lines().next()`: the first line, or nothing when `s` is empty. */
  function FirstLine(s: string): (r: Option<string>)
    ensures r.Some? <==> s != []
    ensures r.Some? ==> IsFirstLine(s, r.value)
  {
    if s == [] then None
    else match IndexOf(s, '\n')
      case None => Some(s)
      case Some(i) =>
        if i > 0 && s[i - 1] == '\r' then
          assert s[..i - 1] + "\r\n" == s[..i + 1];
          Some(s[..i - 1])
        else
          assert s[..i] + "\n" == s[..i + 1];
          Some(s[..i])
  }

  /** The first line is determined: any `t` that fits the description is the one `FirstLine` returns. */
  lemma FirstLineUnique(s: string, t: string)
    requires s != [] && IsFirstLine(s, t)
    ensures FirstLine(s) == Some(t)
  {
    var u := FirstLine(s).value;
    if StartsWith(s, t + "\n") {
      assert s[|t|] == (t + "\n")[|t|] == '\n';
    } else if StartsWith(s, t + "\r\n") {
      assert s[|t| + 1] == (t + "\r\n")[|t| + 1] == '\n';
    }
    match IndexOf(s, '\n')
    case None =>
      assert s == t;
    case Some(i) =>
      assert s != t by { assert s[i] == '\n'; }
      assert s[..|t|] == t;
      if StartsWith(s, t + "\n") && !(|t| > 0 && t[|t| - 1] == '\r') {
        assert s[|t|] == '\n';
        assert i == |t|;
      } else {
        assert StartsWith(s, t + "\r\n");
        assert s[|t|] == '\r' by { assert (t + "\r\n")[|t|] == '\r'; }
        assert i == |t| + 1;
        assert s[..i - 1] == t;
      }
  }
}
