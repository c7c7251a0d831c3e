/** The verdict of a run: it is right about what was emitted, and it does not
depend on the order of the files. */
module GenVerdict {
  import opened Errors
  import opened GenNames
  import opened GenEmit
  import opened GenRun
  import opened Collecting

  // ----- The state after some files

  function Logs(cfg: Config, env: Env, files: seq<File>): map<string, seq<Event>>
  {
    if files == [] then map[]
    else
      var rest, f := Logs(cfg, env, files[..|files| - 1]), files[|files| - 1];
      if Selected(f) then LogsAfter(rest, OutDir(env, cfg, f), FileLog(cfg, env, f.services)) else rest
  }

  function Outs(cfg: Config, env: Env, files: seq<File>): seq<Output>
  {
    if files == [] then []
    else
      var rest, f := Outs(cfg, env, files[..|files| - 1]), files[|files| - 1];
      if Selected(f) then rest + [Output(OutDir(env, cfg, f), FileDecls(cfg, env, f.services))] else rest
  }

  lemma {:induction false} LogsAreDirLogs(cfg: Config, env: Env, files: seq<File>, d: string)
    ensures DirLog(cfg, env, files, d) == if d in Logs(cfg, env, files) then Logs(cfg, env, files)[d] else []
  {
    if files != [] {
      LogsAreDirLogs(cfg, env, files[..|files| - 1], d);
    }
  }

  lemma {:induction false} OutsAreDirDecls(cfg: Config, env: Env, files: seq<File>, d: string)
    ensures PackageDecls(Outs(cfg, env, files), d) == DirDecls(cfg, env, files, d)
  {
    if files != [] {
      var rest, f := files[..|files| - 1], files[|files| - 1];
      OutsAreDirDecls(cfg, env, rest, d);
      if Selected(f) {
        var o := Output(OutDir(env, cfg, f), FileDecls(cfg, env, f.services));
        assert (Outs(cfg, env, rest) + [o])[..|Outs(cfg, env, rest)|] == Outs(cfg, env, rest);
      }
    }
  }

  lemma RunStep(cfg: Config, env: Env, files: seq<File>, i: nat)
    requires i < |files|
    ensures files[..i + 1][..i] == files[..i]
    ensures FilesCheck(cfg, files[..i + 1]) <==> FilesCheck(cfg, files[..i]) && (Selected(files[i]) ==> ServicesCheck(cfg, files[i].services))
    ensures FilesCheck(cfg, files) && Selected(files[i]) ==> ServicesCheck(cfg, files[i].services)
  {
    assert forall j :: 0 <= j < i ==> files[..i + 1][j] == files[..i][j];
    assert files[..i + 1][i] == files[i];
  }

  /** All files, until one has a service that cannot be generated. */
  method GenerateAll(g: Generator, files: seq<File>) returns (failure: Option<Result>)
    requires g.Valid() && g.logs == map[] && g.out == []
    modifies g, g.repr
    ensures g.Valid() && fresh(g.repr - old(g.repr))
    ensures failure.None? <==> FilesCheck(g.cfg, files)
    ensures failure.Some? ==> failure.value.BadService?
    ensures failure.None? ==> g.logs == Logs(g.cfg, g.env, files) && g.out == Outs(g.cfg, g.env, files)
  {
    failure := None;
    for i := 0 to |files|
      invariant g.Valid() && fresh(g.repr - old(g.repr)) && failure.None?
      invariant FilesCheck(g.cfg, files[..i])
      invariant g.logs == Logs(g.cfg, g.env, files[..i]) && g.out == Outs(g.cfg, g.env, files[..i])
    {
      RunStep(g.cfg, g.env, files, i);
      if files[i].generate && files[i].services != [] {
        failure := g.GenerateFile(files[i]);
        if failure.Some? {
          return;
        }
      }
    }
    assert files[..|files|] == files;
  }

  /** The directories whose namesets report a conflict, in order. */
  method Report(g: Generator) returns (dirs: seq<string>)
    requires g.Valid()
    ensures forall d :: d in dirs <==> d in g.logs && !(Distinct(Names(g.logs[d])) && Unlowered(g.logs[d]) == 0)
  {
    dirs := [];
    for i := 0 to |g.order|
      invariant forall d :: d in dirs <==> d in g.order[..i] && !(Distinct(Names(g.logs[d])) && Unlowered(g.logs[d]) == 0)
    {
      var d := g.order[i];
      assert g.order[..i + 1] == g.order[..i] + [d];
      var failed := g.sets[d].Err();
      if failed {
        dirs := dirs + [d];
      }
    }
    assert g.order[..|g.order|] == g.order;
  }

  lemma ReportIsFailures(cfg: Config, env: Env, files: seq<File>, d: string)
    ensures var logs := Logs(cfg, env, files);
      DirFails(cfg, env, files, d) <==> d in logs && !(Distinct(Names(logs[d])) && Unlowered(logs[d]) == 0)
  {
    LogsAreDirLogs(cfg, env, files, d);
  }

  /** Run succeeds exactly when no service is broken on its own and no output
      directory declares an identifier twice; it then has written exactly the
      declarations of each directory, and otherwise it names every directory that
      is at fault. */
  method Run(cfg: Config, env: Env, files: seq<File>) returns (r: Result)
    ensures r.Generated? <==> RunOk(cfg, env, files)
    ensures r.Generated? ==> forall d :: PackageDecls(r.out, d) == DirDecls(cfg, env, files, d)
    ensures r.Collisions? ==> forall d :: d in r.dirs <==> DirFails(cfg, env, files, d)
    ensures r.BadService? ==> !FilesCheck(cfg, files)
  {
    if !ConfigOk(env, cfg) {
      return BadConfig;
    }
    var g := new Generator(cfg, env);
    var failure := GenerateAll(g, files);
    if failure.Some? {
      return failure.value;
    }
    var dirs := Report(g);
    forall d ensures d in dirs <==> DirFails(cfg, env, files, d) {
      ReportIsFailures(cfg, env, files, d);
    }
    forall d ensures PackageDecls(g.out, d) == DirDecls(cfg, env, files, d) {
      OutsAreDirDecls(cfg, env, files, d);
    }
    VerdictIff(cfg, env, files);
    if |dirs| > 0 {
      assert DirFails(cfg, env, files, dirs[0]);
      return Collisions(dirs);
    }
    assert NoDirFails(cfg, env, files);
    return Generated(g.out);
  }

  // ----- The order of the files

  /** The identifiers a list of files declares in a directory. */
  function DirNames(cfg: Config, env: Env, files: seq<File>, d: string): seq<string>
  {
    Declared(DirDecls(cfg, env, files, d))
  }

  lemma NamesSplit(cfg: Config, env: Env, a: seq<File>, b: seq<File>, d: string)
    ensures DirNames(cfg, env, a + b, d) == DirNames(cfg, env, a, d) + DirNames(cfg, env, b, d)
  {
    CollectSplits(DeclsIn(cfg, env, d), a, b);
    DeclaredSplits(DirDecls(cfg, env, a, d), DirDecls(cfg, env, b, d));
  }

  lemma {:induction false} NamesWithout(cfg: Config, env: Env, files: seq<File>, i: nat, d: string)
    requires i < |files|
    ensures multiset(DirNames(cfg, env, files, d)) ==
      multiset(DirNames(cfg, env, files[..i] + files[i + 1..], d)) + multiset(DirNames(cfg, env, [files[i]], d))
  {
    var a, f, b := files[..i], [files[i]], files[i + 1..];
    assert files == a + f + b;
    NamesSplit(cfg, env, a + f, b, d);
    NamesSplit(cfg, env, a, f, d);
    NamesSplit(cfg, env, a, b, d);
    MiddleOut(DirNames(cfg, env, a, d), DirNames(cfg, env, f, d), DirNames(cfg, env, b, d));
  }

  lemma MiddleOut(a: seq<string>, f: seq<string>, b: seq<string>)
    ensures multiset(a + f + b) == multiset(a + b) + multiset(f)
  {
  }

  lemma RemoveAt(files: seq<File>, i: nat)
    requires i < |files|
    ensures multiset(files[..i] + files[i + 1..]) == multiset(files) - multiset{files[i]}
  {
    assert files == files[..i] + [files[i]] + files[i + 1..];
  }

  lemma SameRest(files: seq<File>, other: seq<File>) returns (i: nat)
    requires files != [] && multiset(files) == multiset(other)
    ensures i < |other| && other[i] == files[0]
    ensures multiset(files[..0] + files[1..]) == multiset(other[..i] + other[i + 1..])
  {
    assert files[0] in multiset(other);
    i :| 0 <= i < |other| && other[i] == files[0];
    RemoveAt(files, 0);
    RemoveAt(other, i);
  }

  lemma {:induction false} NamesPermute(cfg: Config, env: Env, files: seq<File>, other: seq<File>, d: string)
    requires multiset(files) == multiset(other)
    ensures multiset(DirNames(cfg, env, files, d)) == multiset(DirNames(cfg, env, other, d))
    decreases |files|
  {
    if files == [] {
      assert |multiset(other)| == 0;
    } else {
      var i := SameRest(files, other);
      NamesPermute(cfg, env, files[..0] + files[1..], other[..i] + other[i + 1..], d);
      NamesWithout(cfg, env, files, 0, d);
      NamesWithout(cfg, env, other, i, d);
    }
  }

  lemma {:induction false} MultisetDistinct(names: seq<string>)
    ensures Distinct(names) <==> forall x :: multiset(names)[x] <= 1
    decreases |names|
  {
    if names != [] {
      var n := |names| - 1;
      var rest, last := names[..n], names[n];
      assert names == rest + [last];
      MultisetDistinct(rest);
      DistinctAppend(rest, last);
      assert last in rest <==> last in multiset(rest);
      if Distinct(rest) && last !in rest {
        assert forall x :: multiset(names)[x] == multiset(rest)[x] + if x == last then 1 else 0;
      } else if !Distinct(rest) {
        var x :| multiset(rest)[x] > 1;
        assert multiset(names)[x] > 1;
      } else {
        assert multiset(names)[last] == multiset(rest)[last] + 1;
      }
    }
  }

  lemma DistinctPermutes(a: seq<string>, b: seq<string>)
    requires multiset(a) == multiset(b)
    ensures Distinct(a) <==> Distinct(b)
  {
    MultisetDistinct(a);
    MultisetDistinct(b);
  }

  lemma MembersPermute(cfg: Config, env: Env, files: seq<File>, other: seq<File>)
    requires multiset(files) == multiset(other)
    ensures FilesCheck(cfg, files) ==> FilesCheck(cfg, other)
    ensures FilesLower(env, files) ==> FilesLower(env, other)
  {
    forall i | 0 <= i < |other| ensures other[i] in files {
      assert other[i] in multiset(other);
      assert other[i] in multiset(files);
    }
  }

  /** The verdict does not depend on the order of the files. */
  lemma VerdictIgnoresOrder(cfg: Config, env: Env, files: seq<File>, other: seq<File>)
    requires multiset(files) == multiset(other)
    ensures RunOk(cfg, env, files) <==> RunOk(cfg, env, other)
  {
    MembersPermute(cfg, env, files, other);
    MembersPermute(cfg, env, other, files);
    forall d ensures Distinct(Declared(DirDecls(cfg, env, files, d))) <==> Distinct(Declared(DirDecls(cfg, env, other, d))) {
      NamesPermute(cfg, env, files, other, d);
      DistinctPermutes(DirNames(cfg, env, files, d), DirNames(cfg, env, other, d));
    }
  }
}
