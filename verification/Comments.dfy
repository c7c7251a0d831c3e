/** Proto comments pasted into Go source: no line may read as a directive. */
module Comments {

  // ----- Lines

  /** strings.Split(s, "\n"). */
  function Split(s: string): (lines: seq<string>)
    ensures |lines| > 0
  {
    if s == "" then [""]
    else
      var rest := Split(s[1..]);
      if s[0] == '\n' then [""] + rest else [[s[0]] + rest[0]] + rest[1..]
  }

  /** strings.Join(lines, "\n"). */
  function Join(lines: seq<string>): string
    requires |lines| > 0
  {
    if |lines| == 1 then lines[0] else lines[0] + "\n" + Join(lines[1..])
  }

  lemma {:induction false} JoinSplit(s: string)
    ensures Join(Split(s)) == s
  {
    if s != "" {
      var rest := Split(s[1..]);
      JoinSplit(s[1..]);
      if s[0] == '\n' {
        assert Split(s)[1..] == rest;
        assert "" + "\n" + s[1..] == s;
      } else {
        JoinHead(rest, [s[0]]);
        assert [s[0]] + s[1..] == s;
      }
    }
  }

  lemma {:induction false} JoinHead(lines: seq<string>, p: string)
    requires |lines| > 0
    ensures Join([p + lines[0]] + lines[1..]) == p + Join(lines)
  {
    var all := [p + lines[0]] + lines[1..];
    assert all[0] == p + lines[0] && all[1..] == lines[1..];
    if |lines| > 1 {
      var rest := Join(lines[1..]);
      assert (p + lines[0]) + "\n" + rest == p + (lines[0] + "\n" + rest);
    }
  }

  predicate OneLine(l: string)
  {
    '\n' !in l
  }

  lemma {:induction false} SplitLine(l: string, rest: string)
    requires OneLine(l)
    ensures Split(l) == [l] && Split(l + "\n" + rest) == [l] + Split(rest)
  {
    if l == "" {
      assert (l + "\n" + rest)[1..] == rest;
    } else {
      SplitLine(l[1..], rest);
      assert (l + "\n" + rest)[1..] == l[1..] + "\n" + rest;
      assert [l[0]] + l[1..] == l;
    }
  }

  lemma {:induction false} SplitJoin(lines: seq<string>)
    requires |lines| > 0 && forall i :: 0 <= i < |lines| ==> OneLine(lines[i])
    ensures Split(Join(lines)) == lines
  {
    if |lines| == 1 {
      SplitLine(lines[0], "");
    } else {
      SplitLine(lines[0], Join(lines[1..]));
      SplitJoin(lines[1..]);
    }
  }

  lemma {:induction false} SplitIsLines(s: string)
    ensures forall i :: 0 <= i < |Split(s)| ==> OneLine(Split(s)[i])
  {
    if s != "" {
      SplitIsLines(s[1..]);
    }
  }

  // ----- One line

  predicate Blank(c: char)
  {
    c == ' ' || c == '\t'
  }

  /** How many blanks a line begins with. */
  function Indent(l: string): (n: nat)
    ensures n <= |l| && (forall i :: 0 <= i < n ==> Blank(l[i])) && (n < |l| ==> !Blank(l[n]))
  {
    if l == "" || !Blank(l[0]) then 0 else 1 + Indent(l[1..])
  }

  /** A comment line that Go tools read as a directive: no blank after the slashes. */
  predicate Directive(l: string)
  {
    var t := l[Indent(l)..];
    |t| >= 3 && t[0] == '/' && t[1] == '/' && !Blank(t[2])
  }

  /** One space after the slashes makes it prose again. */
  function DefuseLine(l: string): string
  {
    if Directive(l) then l[..Indent(l)] + "// " + l[Indent(l) + 2..] else l
  }

  lemma IndentIs(l: string, n: nat)
    requires n < |l| && (forall i :: 0 <= i < n ==> Blank(l[i])) && !Blank(l[n])
    ensures Indent(l) == n
  {
  }

  lemma SpaceInserted(l: string)
    requires Directive(l)
    ensures var n, r := Indent(l), DefuseLine(l);
      |r| == |l| + 1 && r[..n + 2] == l[..n + 2] && r[n + 2] == ' ' && r[n + 3..] == l[n + 2..]
  {
    var n, r := Indent(l), DefuseLine(l);
    var t := l[n..];
    assert l[n] == t[0] && l[n + 1] == t[1];
    assert r == l[..n] + "// " + l[n + 2..];
    assert "// " == ['/', '/', ' '];
  }

  lemma NoLongerDirective(l: string)
    requires Directive(l)
    ensures !Directive(DefuseLine(l))
  {
    var n, r := Indent(l), DefuseLine(l);
    SpaceInserted(l);
    assert forall i :: 0 <= i < n + 2 ==> r[i] == r[..n + 2][i] == l[i];
    assert l[n] == l[n..][0];
    IndentIs(r, n);
    assert r[n..][2] == ' ';
  }

  lemma StillOneLine(l: string)
    requires Directive(l) && OneLine(l)
    ensures OneLine(DefuseLine(l))
  {
    var n, r := Indent(l), DefuseLine(l);
    SpaceInserted(l);
    assert r == r[..n + 2] + [r[n + 2]] + r[n + 3..];
  }

  /** The author's text survives: taking the space out gives it back. */
  lemma {:induction false} TextSurvives(l: string)
    requires Directive(l)
    ensures var n, r := Indent(l), DefuseLine(l); n + 3 <= |r| && r[..n + 2] + r[n + 3..] == l
  {
    SpaceInserted(l);
    Whole(l, Indent(l) + 2);
  }

  lemma Whole(l: string, n: nat)
    requires n <= |l|
    ensures l[..n] + l[n..] == l
  {
  }

  /** A defused line is no directive and needs no second pass. */
  lemma DefusedLine(l: string)
    ensures !Directive(DefuseLine(l)) && DefuseLine(DefuseLine(l)) == DefuseLine(l)
    ensures DefuseLine(l) == l <==> !Directive(l)
    ensures OneLine(l) ==> OneLine(DefuseLine(l))
  {
    if Directive(l) {
      SpaceInserted(l);
      NoLongerDirective(l);
      if OneLine(l) {
        StillOneLine(l);
      }
    }
  }

  // ----- The whole comment

  function DefuseAll(lines: seq<string>): seq<string>
  {
    seq(|lines|, i requires 0 <= i < |lines| => DefuseLine(lines[i]))
  }

  function Defused(s: string): string
  {
    Join(DefuseAll(Split(s)))
  }

  lemma SplitDefused(s: string)
    ensures Split(Defused(s)) == DefuseAll(Split(s))
  {
    SplitIsLines(s);
    forall i | 0 <= i < |Split(s)| ensures OneLine(DefuseAll(Split(s))[i]) {
      DefusedLine(Split(s)[i]);
    }
    SplitJoin(DefuseAll(Split(s)));
  }

  ghost predicate HasDirective(s: string)
  {
    exists i :: 0 <= i < |Split(s)| && Directive(Split(s)[i])
  }

  /** No directive is left, no line is added or removed, a second pass changes
      nothing, and text without directives passes unchanged. */
  lemma DefusedIsSafe(s: string)
    ensures !HasDirective(Defused(s)) && |Split(Defused(s))| == |Split(s)|
    ensures Defused(Defused(s)) == Defused(s)
    ensures Defused(s) == s <==> !HasDirective(s)
  {
    var lines := Split(s);
    SplitDefused(s);
    forall i | 0 <= i < |lines| ensures !Directive(DefuseLine(lines[i])) && DefuseLine(DefuseLine(lines[i])) == DefuseLine(lines[i]) {
      DefusedLine(lines[i]);
    }
    assert DefuseAll(DefuseAll(lines)) == DefuseAll(lines);
    if !HasDirective(s) {
      assert DefuseAll(lines) == lines;
      JoinSplit(s);
    }
  }

  /** The body of the loop: a line that is no directive stays as it is. */
  method DefuseInPlace(l: string) returns (r: string)
    ensures r == DefuseLine(l)
  {
    var trimmed := l[Indent(l)..];
    if |trimmed| < 3 || trimmed[0] != '/' || trimmed[1] != '/' {
      return l;
    }
    if Blank(trimmed[2]) {
      return l;
    }
    assert |l| - |trimmed| == Indent(l) && trimmed[2..] == l[Indent(l) + 2..];
    return l[..|l| - |trimmed|] + "// " + trimmed[2..];
  }

  /** The loop: every line is rewritten in place. */
  method DefuseLines(lines: array<string>)
    modifies lines
    ensures lines[..] == DefuseAll(old(lines[..]))
  {
    for i := 0 to lines.Length
      invariant forall j :: 0 <= j < lines.Length ==> lines[j] == if j < i then DefuseLine(old(lines[j])) else old(lines[j])
    {
      lines[i] := DefuseInPlace(lines[i]);
    }
  }

  lemma NothingToDefuse()
    ensures Defused("") == ""
  {
    assert DefuseAll([""]) == [""];
  }

  /** defuseDirectives: the split lines are rewritten in place and joined again. */
  method DefuseDirectives(s: string) returns (r: string)
    ensures r == Defused(s)
  {
    if s == "" {
      NothingToDefuse();
      return s;
    }
    var split := Split(s);
    var lines := new string[|split|](i requires 0 <= i < |split| => split[i]);
    assert lines[..] == split;
    DefuseLines(lines);
    r := Join(lines[..]);
  }
}
