/**
 * The pure part of the generator's `addCommand`: a command is a string of
 * newline-terminated instructions; it is split on newlines the way Java's
 * `String.split` does, re-joined with a newline and two tabs, and the whole
 * command is then indented by one tab if it starts with `Label_`, by nothing
 * if it starts with `.`, and by two tabs otherwise, and closed by a newline.
 */
module Indentation {

  const Sep := "\n\t\t"

  predicate StartsWith(s: string, p: string)
  {
    |p| <= |s| && s[..|p|] == p
  }

  /** All newline-separated pieces of `s`, including empty ones: one more than its newlines. */
  function Pieces(s: string): (ps: seq<string>)
    ensures |ps| > 0
  {
    if |s| == 0 then [""]
    else if s[0] == '\n' then [""] + Pieces(s[1..])
    else
      var p := Pieces(s[1..]);
      [[s[0]] + p[0]] + p[1..]
  }

  function DropTrailingEmpty(ps: seq<string>): seq<string>
  {
    if |ps| > 0 && ps[|ps| - 1] == "" then DropTrailingEmpty(ps[..|ps| - 1]) else ps
  }

  /**
   * Java's `s.split("\n")`: a string without a newline is its own single piece;
   * otherwise the pieces, with trailing empty pieces removed.
   */
  function JavaSplit(s: string): seq<string>
  {
    if '\n' !in s then [s] else DropTrailingEmpty(Pieces(s))
  }

  function Join(ps: seq<string>, sep: string): string
  {
    if |ps| == 0 then ""
    else if |ps| == 1 then ps[0]
    else ps[0] + sep + Join(ps[1..], sep)
  }

  /** The text `addCommand` writes for one command. */
  function AddCommandText(command: string): string
  {
    var joined := Join(JavaSplit(command), Sep);
    if StartsWith(joined, "Label_") then "\t" + joined + "\n"
    else if StartsWith(joined, ".") then joined + "\n"
    else "\t\t" + joined + "\n"
  }

  /** The command string the generator builds from its instructions: each one followed by a newline. */
  function Unlines(lines: seq<string>): string
  {
    if |lines| == 0 then "" else lines[0] + "\n" + Unlines(lines[1..])
  }

  /** What is written for a command given as its instruction lines. */
  function Render(lines: seq<string>): string
  {
    AddCommandText(Unlines(lines))
  }

  predicate WellFormedLine(l: string) { |l| > 0 && '\n' !in l }

  /** The indentation chosen for a command whose first line is `l`. */
  function Indent(l: string): string
  {
    if StartsWith(l, "Label_") then "\t" else if StartsWith(l, ".") then "" else "\t\t"
  }

  /** Every line after the first, each on its own output line behind two tabs. */
  function Continuation(ls: seq<string>): string
  {
    if |ls| == 0 then "" else Sep + ls[0] + Continuation(ls[1..])
  }

  // ---- the split/join round trip ----

  lemma {:induction false} PiecesOfLine(l: string, rest: string)
    requires '\n' !in l
    ensures Pieces(l + "\n" + rest) == [l] + Pieces(rest)
  {
    var s := l + "\n" + rest;
    if |l| == 0 {
      assert s[0] == '\n' && s[1..] == rest;
    } else {
      assert s[0] == l[0] && s[1..] == l[1..] + "\n" + rest;
      PiecesOfLine(l[1..], rest);
      assert [l[0]] + l[1..] == l;
    }
  }

  lemma {:induction false} PiecesOfUnlines(lines: seq<string>)
    requires forall i | 0 <= i < |lines| :: '\n' !in lines[i]
    ensures Pieces(Unlines(lines)) == lines + [""]
  {
    if |lines| > 0 {
      PiecesOfLine(lines[0], Unlines(lines[1..]));
      PiecesOfUnlines(lines[1..]);
      assert [lines[0]] + (lines[1..] + [""]) == lines + [""];
    }
  }

  lemma UnlinesHasNewline(lines: seq<string>)
    requires |lines| > 0
    ensures '\n' in Unlines(lines)
  {
    var s := Unlines(lines);
    assert s[|lines[0]|] == '\n';
  }

  lemma {:induction false} JoinIsContinuation(ps: seq<string>)
    requires |ps| > 0
    ensures Join(ps, Sep) == ps[0] + Continuation(ps[1..])
  {
    if |ps| > 1 {
      JoinIsContinuation(ps[1..]);
      assert ps[1..][1..] == ps[2..];
    }
  }

  lemma PrefixThroughNewline(a: string, t: string, p: string)
    requires '\n' !in p
    requires t == "" || t[0] == '\n'
    ensures StartsWith(a + t, p) == StartsWith(a, p)
  {
    if |p| <= |a| {
      assert (a + t)[..|p|] == a[..|p|];
    } else if t != "" && |p| <= |a + t| {
      assert (a + t)[|a|] == '\n';
      assert (a + t)[..|p|][|a|] == '\n';
    }
  }

  /** `String.split` recovers exactly the lines a command was built from. */
  lemma SplitUnlines(lines: seq<string>)
    requires |lines| > 0
    requires forall i | 0 <= i < |lines| :: WellFormedLine(lines[i])
    ensures JavaSplit(Unlines(lines)) == lines
  {
    var u := Unlines(lines);
    UnlinesHasNewline(lines);
    PiecesOfUnlines(lines);
    DropLastEmpty(lines);
    assert JavaSplit(u) == DropTrailingEmpty(Pieces(u));
  }

  lemma DropLastEmpty(lines: seq<string>)
    requires |lines| > 0 && lines[|lines| - 1] != ""
    ensures DropTrailingEmpty(lines + [""]) == lines
  {
    var ps := lines + [""];
    assert ps[..|ps| - 1] == lines;
  }

  /**
   * For a command whose lines are non-empty and newline-free, `addCommand`
   * writes its first line behind the indentation chosen from that line and
   * every other line behind two tabs.
   */
  lemma RenderLines(lines: seq<string>)
    requires |lines| > 0
    requires forall i | 0 <= i < |lines| :: WellFormedLine(lines[i])
    ensures Render(lines) == Indent(lines[0]) + lines[0] + Continuation(lines[1..]) + "\n"
  {
    SplitUnlines(lines);
    JoinIsContinuation(lines);
    var t := Continuation(lines[1..]);
    assert t == "" || t[0] == '\n';
    PrefixThroughNewline(lines[0], t, "Label_");
    PrefixThroughNewline(lines[0], t, ".");
  }
}
