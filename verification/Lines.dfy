/** Splitting file content into lines and joining lines back into content. */
module Lines {

  /** The behaviour of `s.split('\n')`: one piece more than there are newlines. */
  function Split(s: string): (pieces: seq<string>)
    ensures |pieces| >= 1
  {
    if s == "" then [""]
    else
      var rest := Split(s[1..]);
      if s[0] == '\n' then [""] + rest else [[s[0]] + rest[0]] + rest[1..]
  }

  /** The behaviour of `pieces.join('\n')`. */
  function Join(pieces: seq<string>): string {
    if pieces == [] then ""
    else if |pieces| == 1 then pieces[0]
    else pieces[0] + "\n" + Join(pieces[1..])
  }

  predicate EndsWithNewline(s: string) {
    s != "" && s[|s| - 1] == '\n'
  }

  /** The lines of a file: no trailing empty element when the file ends in a newline. */
  function SplitLines(s: string): seq<string> {
    if s == "" then []
    else
      var pieces := Split(s);
      if pieces[|pieces| - 1] == "" then pieces[..|pieces| - 1] else pieces
  }

  /** How `reconstruct` turns its output lines into content. */
  function Unlines(ls: seq<string>, trailing: bool): string {
    if |ls| > 0 then Join(ls) + (if trailing then "\n" else "") else ""
  }

  ghost predicate NoNewlines(ls: seq<string>) {
    forall l :: l in ls ==> '\n' !in l
  }

  lemma {:induction false} JoinSplit(s: string)
    ensures Join(Split(s)) == s
  {
    if s != "" {
      JoinSplit(s[1..]);
      var rest := Split(s[1..]);
      assert s == [s[0]] + s[1..];
      if s[0] == '\n' {
        assert Split(s)[1..] == rest;
      } else if |rest| > 1 {
        assert Split(s)[1..] == rest[1..];
      }
    }
  }

  lemma {:induction false} SplitPieces(s: string)
    ensures NoNewlines(Split(s))
    ensures Split(s)[|Split(s)| - 1] == "" <==> (s == "" || EndsWithNewline(s))
  {
    if s != "" {
      SplitPieces(s[1..]);
      assert Split(s[1..])[0] in Split(s[1..]);
    }
  }

  lemma {:induction false} SplitPlain(l: string)
    requires '\n' !in l
    ensures Split(l) == [l]
  {
    if l != "" {
      SplitPlain(l[1..]);
      assert l == [l[0]] + l[1..];
    }
  }

  lemma {:induction false} SplitPrepend(l: string, s: string)
    requires '\n' !in l
    ensures Split(l + ("\n" + s)) == [l] + Split(s)
  {
    var t := l + ("\n" + s);
    if l == "" {
      assert t == "\n" + s;
      assert t[1..] == s;
    } else {
      assert t[1..] == l[1..] + ("\n" + s);
      SplitPrepend(l[1..], s);
      assert l == [l[0]] + l[1..];
    }
  }

  lemma {:induction false} SplitJoin(ls: seq<string>)
    requires ls != [] && NoNewlines(ls)
    ensures Split(Join(ls)) == ls
  {
    if |ls| == 1 {
      SplitPlain(ls[0]);
    } else {
      SplitJoin(ls[1..]);
      SplitPrepend(ls[0], Join(ls[1..]));
      assert ls[0] + "\n" + Join(ls[1..]) == ls[0] + ("\n" + Join(ls[1..]));
    }
  }

  lemma {:induction false} JoinSnocEmpty(ls: seq<string>)
    requires ls != []
    ensures Join(ls + [""]) == Join(ls) + "\n"
  {
    var all := ls + [""];
    if |ls| == 1 {
      assert all[1..] == [""];
    } else {
      assert all[1..] == ls[1..] + [""];
      JoinSnocEmpty(ls[1..]);
    }
  }

  /** Splitting and rejoining with the file's own trailing newline loses nothing. */
  lemma UnlinesSplitLines(s: string)
    ensures Unlines(SplitLines(s), EndsWithNewline(s)) == s
    ensures NoNewlines(SplitLines(s))
    ensures SplitLines(s) == [] <==> s == ""
    ensures SplitLines(s) != [] && !EndsWithNewline(s) ==> SplitLines(s)[|SplitLines(s)| - 1] != ""
  {
    JoinSplit(s);
    SplitPieces(s);
    if EndsWithNewline(s) {
      var pieces := Split(s);
      var ls := pieces[..|pieces| - 1];
      assert pieces == ls + [""];
      if ls == [] {
        assert false;
      } else {
        JoinSnocEmpty(ls);
      }
    }
  }

  /** The lines a rejoined file has: the last line is lost exactly when it is empty
      and no trailing newline is added. */
  lemma SplitLinesUnlines(ls: seq<string>, trailing: bool)
    requires NoNewlines(ls)
    ensures SplitLines(Unlines(ls, trailing)) ==
            if ls == [] || trailing || ls[|ls| - 1] != "" then ls else ls[..|ls| - 1]
  {
    if ls != [] {
      var s := Unlines(ls, trailing);
      assert Split("") == [""];
      if trailing {
        JoinSnocEmpty(ls);
        SplitJoin(ls + [""]);
        assert (ls + [""])[..|ls|] == ls;
      } else {
        assert s == Join(ls);
        SplitJoin(ls);
      }
    }
  }
}
