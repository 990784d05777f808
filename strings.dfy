/**
 * The two pieces of Python string handling the formatter relies on:
 * `sep.join(parts)` and, as a reference for reading its output back,
 * splitting a text into its lines (`s.split("\n")`).
 */
module Strings {

  predicate IsPrefix(p: string, s: string) {
    |p| <= |s| && s[..|p|] == p
  }

  /** The text holds no line break. */
  predicate SingleLine(s: string) {
    '\n' !in s
  }

  /** `sep.join(parts)`: the parts in order, with `sep` between neighbours. */
  function Join(sep: string, parts: seq<string>): (r: string)
    ensures |parts| > 0 ==> IsPrefix(parts[0], r)
  {
    if |parts| == 0 then ""
    else if |parts| == 1 then parts[0]
    else parts[0] + sep + Join(sep, parts[1..])
  }

  /**
   * The lines of `s`, cut at every line break; the breaks themselves are
   * dropped, so a text with k breaks has k + 1 lines.
   */
  function Lines(s: string): (ls: seq<string>)
    ensures |ls| >= 1
    ensures forall k :: 0 <= k < |ls| ==> SingleLine(ls[k])
  {
    if |s| == 0 then [""]
    else
      var rest := Lines(s[1..]);
      if s[0] == '\n' then [""] + rest
      else [[s[0]] + rest[0]] + rest[1..]
  }

  /** Joining two non-empty lists is joining their joins. */
  lemma {:induction false} JoinConcat(sep: string, xs: seq<string>, ys: seq<string>)
    requires |xs| > 0 && |ys| > 0
    ensures Join(sep, xs + ys) == Join(sep, xs) + sep + Join(sep, ys)
  {
    if |xs| == 1 {
      assert (xs + ys)[1..] == ys;
    } else {
      assert (xs + ys)[1..] == xs[1..] + ys;
      JoinConcat(sep, xs[1..], ys);
    }
  }

  /** A text without line breaks is one line. */
  lemma {:induction false} LinesOfSingleLine(s: string)
    requires SingleLine(s)
    ensures Lines(s) == [s]
  {
    if |s| > 0 {
      assert SingleLine(s[1..]) by { assert forall k :: 0 <= k < |s[1..]| ==> s[1..][k] == s[k + 1]; }
      LinesOfSingleLine(s[1..]);
      assert [s[0]] + s[1..] == s;
    }
  }

  /** A line break splits the lines of the text around it. */
  lemma {:induction false} LinesOfBreak(a: string, b: string)
    ensures Lines(a + "\n" + b) == Lines(a) + Lines(b)
  {
    if |a| == 0 {
      assert a + "\n" + b == "\n" + b;
      assert ("\n" + b)[1..] == b;
    } else {
      assert (a + "\n" + b)[1..] == a[1..] + "\n" + b;
      LinesOfBreak(a[1..], b);
    }
  }

  /** Splitting lines undoes joining single lines with line breaks. */
  lemma {:induction false} LinesOfJoin(ls: seq<string>)
    requires |ls| > 0
    requires forall k :: 0 <= k < |ls| ==> SingleLine(ls[k])
    ensures Lines(Join("\n", ls)) == ls
  {
    LinesOfSingleLine(ls[0]);
    if |ls| > 1 {
      LinesOfJoin(ls[1..]);
      LinesOfBreak(ls[0], Join("\n", ls[1..]));
      assert [ls[0]] + ls[1..] == ls;
    }
  }

  /** Joining a part in front of a non-empty list puts one separator after it. */
  lemma JoinCons(sep: string, x: string, ys: seq<string>)
    requires |ys| > 0
    ensures Join(sep, [x] + ys) == x + sep + Join(sep, ys)
  {
    assert ([x] + ys)[1..] == ys;
  }

  /** Joining the lines of a text with line breaks gives the text back. */
  lemma {:induction false} JoinOfLines(s: string)
    ensures Join("\n", Lines(s)) == s
  {
    if |s| > 0 {
      var c, t := s[0], s[1..];
      var rest := Lines(t);
      JoinOfLines(t);
      assert s == [c] + t;
      if c == '\n' {
        JoinCons("\n", "", rest);
      } else if |rest| == 1 {
        assert Lines(s) == [[c] + rest[0]];
      } else {
        assert Lines(s) == [[c] + rest[0]] + rest[1..];
        assert rest == [rest[0]] + rest[1..];
        JoinCons("\n", [c] + rest[0], rest[1..]);
        JoinCons("\n", rest[0], rest[1..]);
      }
    }
  }
}
