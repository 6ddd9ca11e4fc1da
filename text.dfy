/** Multi-line text: joining lines with line breaks and cutting text back into lines.
    The previews are built by appending pieces that end in a line break; this module
    gives the line-by-line reading of such text that the layout lemmas are stated in. */
module Text {

  /** True when `s` holds no line break, so it is displayed as one line. */
  predicate SingleLine(s: string) {
    '\n' !in s
  }

  /** `prefix` is the beginning of `s`. */
  predicate StartsWith(s: string, prefix: string) {
    |prefix| <= |s| && s[..|prefix|] == prefix
  }

  /** `suffix` is the end of `s`. */
  predicate EndsWith(s: string, suffix: string) {
    |suffix| <= |s| && s[|s| - |suffix|..] == suffix
  }

  /** The lines, with one line break between consecutive lines and none after the last. */
  function Join(lines: seq<string>): string {
    if |lines| == 0 then ""
    else if |lines| == 1 then lines[0]
    else lines[0] + "\n" + Join(lines[1..])
  }

  /** The text cut at every line break; joining the pieces gives the text back. */
  function Lines(s: string): (ls: seq<string>)
    ensures |ls| >= 1
    ensures forall i :: 0 <= i < |ls| ==> SingleLine(ls[i])
    ensures Join(ls) == s
  {
    if s == [] then [""]
    else if s[0] == '\n' then
      assert s == "\n" + s[1..];
      [""] + Lines(s[1..])
    else
      assert s == [s[0]] + s[1..];
      var t := Lines(s[1..]);
      assert Join([[s[0]] + t[0]] + t[1..]) == [s[0]] + Join(t) by {
        if |t| > 1 { assert t == [t[0]] + t[1..]; }
      }
      [[s[0]] + t[0]] + t[1..]
  }

  /** Joining two non-empty runs of lines puts one line break between them. */
  lemma {:induction false} JoinAppend(a: seq<string>, b: seq<string>)
    requires a != [] && b != []
    ensures Join(a + b) == Join(a) + "\n" + Join(b)
    decreases |a|
  {
    if |a| == 1 {
      assert (a + b)[1..] == b;
    } else {
      assert (a + b)[1..] == a[1..] + b;
      JoinAppend(a[1..], b);
    }
  }

  /** The lines, each followed by a line break. */
  function Terminated(lines: seq<string>): string {
    if lines == [] then "" else Join(lines) + "\n"
  }

  /** Terminated lines, then more lines. */
  lemma JoinAfter(a: seq<string>, b: seq<string>)
    requires b != []
    ensures Join(a + b) == Terminated(a) + Join(b)
  {
    if a == [] {
      assert a + b == b;
    } else {
      JoinAppend(a, b);
    }
  }

  lemma TerminatedAppend(a: seq<string>, b: seq<string>)
    ensures Terminated(a + b) == Terminated(a) + Terminated(b)
  {
    if a == [] {
      assert a + b == b;
    } else if b == [] {
      assert a + b == a;
    } else {
      JoinAppend(a, b);
    }
  }

  /** Regrouping a concatenation, as a fact to apply to large terms. */
  lemma AppendAssoc(a: string, b: string, c: string)
    ensures a + (b + c) == a + b + c
  {
  }

  /** Text inserted between `x` and `y`: cutting `x + y` after `x` gives `x` and `y` back. */
  lemma SpliceAt(x: string, ins: string, y: string)
    ensures var w := x + y;
      |x| <= |w| && w[..|x|] == x && w[|x|..] == y && x + ins + y == w[..|x|] + ins + w[|x|..]
  {
    var w := x + y;
    assert w[..|x|] == x;
    assert w[|x|..] == y;
  }

  /** Regroupings of a concatenation around an inserted piece `c` or `d`; the second
      lemma of each pair is the same concatenation with that piece empty. */
  lemma RegroupSecond(a: string, b: string, c: string, d: string, e: string, f: string)
    ensures a + (b + c + d) + e + f == (a + b) + c + (d + e + f)
    ensures a + (b + "" + d) + e + f == (a + b) + (d + e + f)
  {
  }

  lemma RegroupThird(a: string, b: string, c: string, d: string, e: string, f: string)
    ensures a + (b + c + d) + e + f == (a + b + c) + d + (e + f)
    ensures a + (b + c + "") + e + f == (a + b + c) + (e + f)
  {
  }

  lemma RegroupLast(a: string, b: string, c: string, d: string, e: string)
    ensures a + b + (c + d) + e == (a + b + c) + d + e
    ensures a + b + (c + "") + e == (a + b + c) + e
  {
  }

  /** A concatenation starts with its first part and ends with its last part. */
  lemma ConcatEnds(a: string, b: string)
    ensures StartsWith(a + b, a) && EndsWith(a + b, b)
  {
    assert (a + b)[..|a|] == a;
    assert (a + b)[|a + b| - |b|..] == b;
  }

  /** A line followed by a blank line starts with that line and its line break. */
  lemma BlankLineStarts(line: string)
    ensures StartsWith(line + "\n\n", line + "\n")
  {
    assert line + "\n\n" == (line + "\n") + "\n";
    ConcatEnds(line + "\n", "\n");
  }

  /** A prefix stays a prefix when text is appended. */
  lemma StartsWithAppend(s: string, prefix: string, t: string)
    requires StartsWith(s, prefix)
    ensures StartsWith(s + t, prefix)
  {
    assert (s + t)[..|prefix|] == s[..|prefix|];
  }

  /** A suffix stays a suffix when text is prepended. */
  lemma EndsWithPrepend(t: string, s: string, suffix: string)
    requires EndsWith(s, suffix)
    ensures EndsWith(t + s, suffix)
  {
    assert (t + s)[|t + s| - |suffix|..] == s[|s| - |suffix|..];
  }

  /** Terminating one more line of a list extends the text by that line. */
  lemma TerminatedStep(lines: seq<string>, k: nat)
    requires k < |lines|
    ensures Terminated(lines[..k + 1]) == Terminated(lines[..k]) + (lines[k] + "\n")
  {
    assert lines[..k + 1] == lines[..k] + [lines[k]];
    TerminatedAppend(lines[..k], [lines[k]]);
  }

  /** Terminating a line and the blank line after it extends the text by the line and two breaks. */
  lemma TerminatedStepBlank(lines: seq<string>, k: nat)
    requires k + 1 < |lines| && lines[k + 1] == ""
    ensures Terminated(lines[..k + 2]) == Terminated(lines[..k]) + (lines[k] + "\n\n")
  {
    TerminatedStep(lines, k);
    TerminatedStep(lines, k + 1);
  }

  /** A line and a blank line, terminated, end in two line breaks. */
  lemma TerminatedBlank(line: string)
    ensures Terminated([line, ""]) == line + "\n\n"
  {
    assert [line, ""][1..] == [""];
    assert Join([line, ""]) == line + "\n" + "";
  }

  /** Terminated text of a few common shapes of lines ("" is a blank line). */
  lemma TerminatedLines3(x: string, y: string, z: string)
    ensures Terminated([x, y, z]) == (x + "\n") + (y + "\n") + (z + "\n")
  {
    var ls := [x, y, z];
    assert ls[..0] == [] && ls[..3] == ls;
    TerminatedStep(ls, 0);
    TerminatedStep(ls, 1);
    TerminatedStep(ls, 2);
  }

  lemma TerminatedLinePara(x: string, y: string)
    ensures Terminated([x, y, ""]) == (x + "\n") + (y + "\n\n")
  {
    var ls := [x, y, ""];
    assert ls[..0] == [] && ls[..3] == ls;
    TerminatedStep(ls, 0);
    TerminatedStepBlank(ls, 1);
  }

  lemma TerminatedLines3Para(w: string, x: string, y: string, z: string)
    ensures Terminated([w, x, y, z, ""]) == (w + "\n") + (x + "\n") + (y + "\n") + (z + "\n\n")
  {
    var ls := [w, x, y, z, ""];
    assert ls[..0] == [] && ls[..5] == ls;
    assert Terminated(ls[..3]) == (w + "\n") + (x + "\n") + (y + "\n") by {
      TerminatedLines3(w, x, y);
      assert ls[..3] == [w, x, y];
    }
    TerminatedStepBlank(ls, 3);
  }

  lemma TerminatedParaLinePara(x: string, y: string, z: string)
    ensures Terminated([x, "", y, z, ""]) == (x + "\n\n") + (y + "\n") + (z + "\n\n")
  {
    var ls := [x, "", y, z, ""];
    assert Terminated(ls[..2]) == x + "\n\n" by {
      assert ls[..2] == [x, ""];
      TerminatedBlank(x);
    }
    assert Terminated(ls[..3]) == (x + "\n\n") + (y + "\n") by {
      TerminatedStep(ls, 2);
    }
    assert Terminated(ls[..5]) == (x + "\n\n") + (y + "\n") + (z + "\n\n") by {
      TerminatedStepBlank(ls, 3);
    }
    assert ls[..5] == ls;
  }

  /** The joined lines are the terminated lines but the last, then the last line. */
  lemma JoinLast(lines: seq<string>)
    requires lines != []
    ensures Join(lines) == Terminated(lines[..|lines| - 1]) + lines[|lines| - 1]
  {
    var n := |lines| - 1;
    assert lines == lines[..n] + [lines[n]];
    JoinAfter(lines[..n], [lines[n]]);
  }

  /** Cutting a single line followed by a line break gives that line first. */
  lemma {:induction false} LinesAfterLine(line: string, rest: string)
    requires SingleLine(line)
    ensures Lines(line + "\n" + rest) == [line] + Lines(rest)
    decreases |line|
  {
    var s := line + "\n" + rest;
    if line == [] {
      assert s[0] == '\n' && s[1..] == rest;
    } else {
      assert s[0] == line[0] && s[0] != '\n';
      assert s[1..] == line[1..] + "\n" + rest;
      LinesAfterLine(line[1..], rest);
      assert [s[0]] + line[1..] == line;
    }
  }

  /** A text without line breaks is one line. */
  lemma {:induction false} LinesOfLine(line: string)
    requires SingleLine(line)
    ensures Lines(line) == [line]
    decreases |line|
  {
    if line != [] {
      LinesOfLine(line[1..]);
      assert [line[0]] + line[1..] == line;
    }
  }

  /** Join and Lines are inverse: single lines joined are cut back into the same lines. */
  lemma {:induction false} LinesOfJoin(lines: seq<string>)
    requires lines != []
    requires forall i :: 0 <= i < |lines| ==> SingleLine(lines[i])
    ensures Lines(Join(lines)) == lines
    decreases |lines|
  {
    if |lines| == 1 {
      LinesOfLine(lines[0]);
    } else {
      LinesOfJoin(lines[1..]);
      LinesAfterLine(lines[0], Join(lines[1..]));
    }
  }
}
