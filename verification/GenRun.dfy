/** A whole run of the generator: namesets keyed by output directory, filled file
by file, and the verdict at the end. */
module GenRun {
  import opened Errors
  import opened GenNames
  import opened GenEmit
  import opened GenScope
  import opened Collecting

  datatype File = File(generate: bool, prefix: string, services: seq<Service>)

  /** Unicode's lower-casing, letters and digits, and path.Join; the results hold
      for any. */
  datatype Env = Env(lower: char -> char, letter: char -> bool, digit: char -> bool, join: (string, string) -> string)

  /** One generated file: the directory it goes to and what it declares. */
  datatype Output = Output(dir: string, decls: seq<Decl>)

  datatype Result =
    | Generated(out: seq<Output>)
    | BadConfig
    | BadService(service: string, problems: seq<Problem>)
    | Collisions(dirs: seq<string>)

  // ----- Configuration

  const KEYWORDS := {"break", "case", "chan", "const", "continue", "default", "defer", "else", "fallthrough", "for", "func",
                     "go", "goto", "if", "import", "interface", "map", "package", "range", "return", "select", "struct",
                     "switch", "type", "var"}

  /** token.IsIdentifier, and not a keyword. */
  predicate ValidIdent(env: Env, s: string)
  {
    s != "" && s !in KEYWORDS &&
    forall i :: 0 <= i < |s| ==> env.letter(s[i]) || s[i] == '_' || (i > 0 && env.digit(s[i]))
  }

  predicate ConfigOk(env: Env, cfg: Config)
  {
    cfg.separatePackage && ValidIdent(env, cfg.packageSuffix) && cfg.runtimeImport != "" && cfg.defaultCodec in {"protocodec", "none"}
  }

  // ----- Where a file goes and what it contributes

  /** path.Split's directory: up to and including the last slash. */
  function DirPart(p: string): (d: string)
    ensures d <= p && (d != "" ==> d[|d| - 1] == '/') && forall i :: |d| <= i < |p| ==> p[i] != '/'
  {
    if p == "" || p[|p| - 1] == '/' then p else DirPart(p[..|p| - 1])
  }

  function OutDir(env: Env, cfg: Config, f: File): string
  {
    env.join(DirPart(f.prefix), cfg.packageSuffix)
  }

  predicate Selected(f: File)
  {
    f.generate && f.services != []
  }

  function FileDecls(cfg: Config, env: Env, ss: seq<Service>): seq<Decl>
  {
    if ss == [] then [] else FileDecls(cfg, env, ss[..|ss| - 1]) + ServiceDecls(cfg, env.lower, ss[|ss| - 1])
  }

  function FileLog(cfg: Config, env: Env, ss: seq<Service>): seq<Event>
  {
    if ss == [] then [] else FileLog(cfg, env, ss[..|ss| - 1]) + ServiceLog(cfg, env.lower, ss[|ss| - 1])
  }

  predicate GoesTo(env: Env, cfg: Config, f: File, d: string)
  {
    Selected(f) && OutDir(env, cfg, f) == d
  }

  /** What a file declares in a directory: all it declares, or nothing. */
  function DeclsIn(cfg: Config, env: Env, d: string): File -> seq<Decl>
  {
    (f: File) => if GoesTo(env, cfg, f, d) then FileDecls(cfg, env, f.services) else []
  }

  /** Everything declared in one output directory. */
  function DirDecls(cfg: Config, env: Env, files: seq<File>, d: string): seq<Decl>
  {
    Collect(DeclsIn(cfg, env, d), files)
  }

  lemma DirStep(cfg: Config, env: Env, files: seq<File>, d: string)
    requires files != []
    ensures var (rest, f) := (DirDecls(cfg, env, files[..|files| - 1], d), files[|files| - 1]);
      DirDecls(cfg, env, files, d) == if GoesTo(env, cfg, f, d) then rest + FileDecls(cfg, env, f.services) else rest
  {
  }

  function DirLog(cfg: Config, env: Env, files: seq<File>, d: string): seq<Event>
  {
    if files == [] then []
    else
      var rest, f := DirLog(cfg, env, files[..|files| - 1], d), files[|files| - 1];
      if GoesTo(env, cfg, f, d) then rest + FileLog(cfg, env, f.services) else rest
  }

  // ----- When a run should succeed

  predicate CheckOk(cfg: Config, s: Service)
  {
    Distinct(GoNames(s.methods)) && (cfg.callers ==> CONFIG !in GoNames(s.methods))
  }

  predicate LowerOk(env: Env, s: Service)
  {
    Unexport(env.lower, s.goName).Some?
  }

  predicate ServicesCheck(cfg: Config, ss: seq<Service>)
  {
    forall i :: 0 <= i < |ss| ==> CheckOk(cfg, ss[i])
  }

  predicate ServicesLower(env: Env, ss: seq<Service>)
  {
    forall i :: 0 <= i < |ss| ==> LowerOk(env, ss[i])
  }

  predicate FilesCheck(cfg: Config, files: seq<File>)
  {
    forall i :: 0 <= i < |files| && Selected(files[i]) ==> ServicesCheck(cfg, files[i].services)
  }

  predicate FilesLower(env: Env, files: seq<File>)
  {
    forall i :: 0 <= i < |files| && Selected(files[i]) ==> ServicesLower(env, files[i].services)
  }

  /** No directory declares an identifier twice. */
  ghost predicate DirsDistinct(cfg: Config, env: Env, files: seq<File>)
  {
    forall d :: Distinct(Declared(DirDecls(cfg, env, files, d)))
  }

  /** The specification of the verdict, in terms of what is emitted: no service is
      broken on its own, and no directory declares an identifier twice. */
  ghost predicate RunOk(cfg: Config, env: Env, files: seq<File>)
  {
    ConfigOk(env, cfg) && FilesCheck(cfg, files) && FilesLower(env, files) && DirsDistinct(cfg, env, files)
  }

  // ----- Logs and declarations agree

  lemma {:induction false} FileClaimed(cfg: Config, env: Env, ss: seq<Service>)
    ensures Declared(FileDecls(cfg, env, ss)) == Names(FileLog(cfg, env, ss))
    ensures Unlowered(FileLog(cfg, env, ss)) == 0 <==> ServicesLower(env, ss)
  {
    if ss != [] {
      var rest, s := ss[..|ss| - 1], ss[|ss| - 1];
      FileClaimed(cfg, env, rest);
      DeclaredIsClaimed(cfg, env.lower, s);
      LogSplits(FileLog(cfg, env, rest), ServiceLog(cfg, env.lower, s));
      DeclaredSplits(FileDecls(cfg, env, rest), ServiceDecls(cfg, env.lower, s));
      LowerSplits(env, ss);
    }
  }

  lemma LowerSplits(env: Env, ss: seq<Service>)
    requires ss != []
    ensures ServicesLower(env, ss) <==> ServicesLower(env, ss[..|ss| - 1]) && LowerOk(env, ss[|ss| - 1])
  {
    assert forall i :: 0 <= i < |ss| - 1 ==> ss[..|ss| - 1][i] == ss[i];
  }

  /** Every selected file of the directory has services that can be lowered. */
  predicate DirLower(cfg: Config, env: Env, files: seq<File>, d: string)
  {
    forall i :: 0 <= i < |files| && GoesTo(env, cfg, files[i], d) ==> ServicesLower(env, files[i].services)
  }

  lemma DirLowerSplits(cfg: Config, env: Env, files: seq<File>, d: string)
    requires files != []
    ensures var f := files[|files| - 1];
      DirLower(cfg, env, files, d) <==>
      DirLower(cfg, env, files[..|files| - 1], d) && (GoesTo(env, cfg, f, d) ==> ServicesLower(env, f.services))
  {
    assert forall i :: 0 <= i < |files| - 1 ==> files[..|files| - 1][i] == files[i];
  }

  /** In each directory, what is claimed is what is declared. */
  lemma {:induction false} DirClaimed(cfg: Config, env: Env, files: seq<File>, d: string)
    ensures Declared(DirDecls(cfg, env, files, d)) == Names(DirLog(cfg, env, files, d))
    ensures Unlowered(DirLog(cfg, env, files, d)) == 0 <==> DirLower(cfg, env, files, d)
  {
    if files != [] {
      var rest, f := files[..|files| - 1], files[|files| - 1];
      DirStep(cfg, env, files, d);
      DirClaimed(cfg, env, rest, d);
      FileClaimed(cfg, env, f.services);
      LogSplits(DirLog(cfg, env, rest, d), FileLog(cfg, env, f.services));
      DeclaredSplits(DirDecls(cfg, env, rest, d), FileDecls(cfg, env, f.services));
      DirLowerSplits(cfg, env, files, d);
    }
  }

  /** Conflicts in a directory are its declarations beyond the distinct names, if
      every service there could be lowered. */
  lemma DirConflicts(cfg: Config, env: Env, files: seq<File>, d: string)
    requires DirLower(cfg, env, files, d)
    ensures var names := Declared(DirDecls(cfg, env, files, d));
      |Conflicts(DirLog(cfg, env, files, d))| == |names| - |Elements(names)|
  {
    DirClaimed(cfg, env, files, d);
    ConflictCount(DirLog(cfg, env, files, d));
  }

  ghost predicate DirFails(cfg: Config, env: Env, files: seq<File>, d: string)
  {
    !(Distinct(Names(DirLog(cfg, env, files, d))) && Unlowered(DirLog(cfg, env, files, d)) == 0)
  }

  ghost predicate NoDirFails(cfg: Config, env: Env, files: seq<File>)
  {
    forall d :: !DirFails(cfg, env, files, d)
  }

  /** The verdict by namesets is the verdict by declarations. */
  lemma VerdictIff(cfg: Config, env: Env, files: seq<File>)
    ensures NoDirFails(cfg, env, files) <==> FilesLower(env, files) && DirsDistinct(cfg, env, files)
  {
    LowerByDir(cfg, env, files);
    if NoDirFails(cfg, env, files) {
      forall d ensures DirLower(cfg, env, files, d) && Distinct(Declared(DirDecls(cfg, env, files, d))) {
        assert !DirFails(cfg, env, files, d);
        DirClaimed(cfg, env, files, d);
      }
    } else {
      var d :| DirFails(cfg, env, files, d);
      DirClaimed(cfg, env, files, d);
    }
  }

  lemma LowerByDir(cfg: Config, env: Env, files: seq<File>)
    ensures FilesLower(env, files) <==> forall d :: DirLower(cfg, env, files, d)
  {
    if forall d :: DirLower(cfg, env, files, d) {
      forall i | 0 <= i < |files| && Selected(files[i]) ensures ServicesLower(env, files[i].services) {
        assert DirLower(cfg, env, files, OutDir(env, cfg, files[i]));
        assert GoesTo(env, cfg, files[i], OutDir(env, cfg, files[i]));
      }
    }
  }

  // ----- The run itself

  /** What the generated files declare in one directory. */
  function PackageDecls(out: seq<Output>, d: string): seq<Decl>
  {
    if out == [] then []
    else
      var rest, o := PackageDecls(out[..|out| - 1], d), out[|out| - 1];
      if o.dir == d then rest + o.decls else rest
  }

  lemma {:induction false} FileStep(cfg: Config, env: Env, ss: seq<Service>, i: nat)
    requires i < |ss|
    ensures FileDecls(cfg, env, ss[..i + 1]) == FileDecls(cfg, env, ss[..i]) + ServiceDecls(cfg, env.lower, ss[i])
    ensures FileLog(cfg, env, ss[..i + 1]) == FileLog(cfg, env, ss[..i]) + ServiceLog(cfg, env.lower, ss[i])
    ensures ServicesCheck(cfg, ss[..i + 1]) <==> ServicesCheck(cfg, ss[..i]) && CheckOk(cfg, ss[i])
    ensures ServicesCheck(cfg, ss) ==> CheckOk(cfg, ss[i])
  {
    assert ss[..i + 1][..i] == ss[..i];
    assert forall j :: 0 <= j < i ==> ss[..i + 1][j] == ss[..i][j];
  }

  /** One turn of the loop of generateFile: check, then claim and emit. */
  method EmitChecked(x: FileGen, s: Service) returns (problems: seq<Problem>)
    requires x.names.Valid()
    modifies x, x.names
    ensures x.names.Valid() && (problems == [] <==> CheckOk(x.cfg, s))
    ensures problems == [] ==> x.out == old(x.out) + ServiceDecls(x.cfg, x.lower, s)
    ensures problems == [] ==> x.names.log == old(x.names.log) + ServiceLog(x.cfg, x.lower, s)
  {
    problems := CheckService(s, x.cfg.callers);
    if problems == [] {
      x.EmitService(s);
    }
  }

  /** The loop of generateFile. */
  method EmitFile(cfg: Config, env: Env, names: NameSet, ss: seq<Service>) returns (decls: seq<Decl>, failure: Option<Result>)
    requires names.Valid()
    modifies names
    ensures names.Valid()
    ensures failure.None? <==> ServicesCheck(cfg, ss)
    ensures failure.Some? ==> failure.value.BadService?
    ensures failure.None? ==> decls == FileDecls(cfg, env, ss) && names.log == old(names.log) + FileLog(cfg, env, ss)
  {
    var x := new FileGen(cfg, env.lower, names);
    for i := 0 to |ss|
      invariant names.Valid()
      invariant x.out == FileDecls(cfg, env, ss[..i])
      invariant names.log == old(names.log) + FileLog(cfg, env, ss[..i])
      invariant ServicesCheck(cfg, ss[..i])
    {
      FileStep(cfg, env, ss, i);
      Chain(old(names.log), FileLog(cfg, env, ss[..i]), ServiceLog(cfg, env.lower, ss[i]));
      var problems := EmitChecked(x, ss[i]);
      if problems != [] {
        return [], Some(BadService(ss[i].fullName, problems));
      }
    }
    assert ss[..|ss|] == ss;
    return x.out, None;
  }

  ghost predicate Listed(keys: set<string>, order: seq<string>)
  {
    forall d :: d in keys <==> d in order
  }

  lemma ListedStep(keys: set<string>, order: seq<string>, d: string)
    requires Listed(keys, order)
    ensures Listed(keys + {d}, order + [d])
  {
  }

  /** Every directory has a nameset of its own, which has seen its log. */
  ghost predicate SetsOk(sets: map<string, NameSet>, logs: map<string, seq<Event>>, repr: set<NameSet>)
    reads repr
  {
    && sets.Keys == logs.Keys
    && (forall d :: d in sets ==> sets[d] in repr && sets[d].Valid() && sets[d].log == logs[d])
    && (forall d, e :: d in sets && e in sets && d != e ==> sets[d] != sets[e])
  }

  lemma SetsOkAdd(sets: map<string, NameSet>, logs: map<string, seq<Event>>, repr: set<NameSet>, dir: string, names: NameSet)
    requires SetsOk(sets, logs, repr) && names !in repr && names.Valid() && names.log == []
    ensures SetsOk(sets[dir := names], logs[dir := []], repr + {names})
  {
  }

  class Generator {
    const cfg: Config
    const env: Env
    var sets: map<string, NameSet>
    var order: seq<string>
    var out: seq<Output>

    /** What has been logged for each directory, and the namesets in use. */
    ghost var logs: map<string, seq<Event>>
    ghost var repr: set<NameSet>

    ghost predicate Valid()
      reads this, repr
    {
      Listed(sets.Keys, order) && SetsOk(sets, logs, repr)
    }

    constructor (cfg: Config, env: Env)
      ensures Valid() && this.cfg == cfg && this.env == env && logs == map[] && out == [] && repr == {}
    {
      this.cfg, this.env := cfg, env;
      sets, order, out, logs, repr := map[], [], [], map[], {};
    }

    /** A nameset for a directory that has none yet. */
    method NewNames(dir: string)
      requires Valid() && dir !in sets
      modifies this`sets, this`order, this`logs, this`repr
      ensures Valid() && dir in sets && repr >= old(repr) && fresh(repr - old(repr))
      ensures logs == old(logs)[dir := []]
    {
      var names := new NameSet(dir);
      ListedStep(sets.Keys, order, dir);
      SetsOkAdd(sets, logs, repr, dir, names);
      sets, order, logs, repr := sets[dir := names], order + [dir], logs[dir := []], repr + {names};
    }

    /** The nameset of an output directory, made when first needed. */
    method NamesFor(dir: string)
      requires Valid()
      modifies this`sets, this`order, this`logs, this`repr
      ensures Valid() && dir in sets && repr >= old(repr) && fresh(repr - old(repr))
      ensures logs == if dir in old(logs) then old(logs) else old(logs)[dir := []]
    {
      if dir !in sets {
        NewNames(dir);
      }
    }

    /** Everything of one file goes into the nameset of its directory. */
    method EmitInto(dir: string, ss: seq<Service>) returns (failure: Option<Result>)
      requires Valid() && dir in sets
      modifies this`logs, this`out, sets[dir]
      ensures Valid()
      ensures failure.None? <==> ServicesCheck(cfg, ss)
      ensures failure.Some? ==> failure.value.BadService?
      ensures failure.None? ==> out == old(out) + [Output(dir, FileDecls(cfg, env, ss))]
      ensures failure.None? ==> logs == LogsAfter(old(logs), dir, FileLog(cfg, env, ss))
    {
      var decls;
      decls, failure := EmitNamed(dir, ss);
      out := out + [Output(dir, decls)];
    }

    /** The nameset of one directory changes, the others do not. */
    method EmitNamed(dir: string, ss: seq<Service>) returns (decls: seq<Decl>, failure: Option<Result>)
      requires Valid() && dir in sets
      modifies this`logs, sets[dir]
      ensures Valid()
      ensures failure.None? <==> ServicesCheck(cfg, ss)
      ensures failure.Some? ==> failure.value.BadService?
      ensures failure.None? ==> decls == FileDecls(cfg, env, ss) && logs == LogsAfter(old(logs), dir, FileLog(cfg, env, ss))
    {
      var names := sets[dir];
      decls, failure := EmitFile(cfg, env, names, ss);
      logs := logs[dir := names.log];
    }

    method GenerateFile(f: File) returns (failure: Option<Result>)
      requires Valid()
      modifies this, repr
      ensures Valid() && repr >= old(repr) && fresh(repr - old(repr))
      ensures failure.None? <==> ServicesCheck(cfg, f.services)
      ensures failure.Some? ==> failure.value.BadService?
      ensures failure.None? ==> logs == LogsAfter(old(logs), OutDir(env, cfg, f), FileLog(cfg, env, f.services))
      ensures failure.None? ==> out == old(out) + [Output(OutDir(env, cfg, f), FileDecls(cfg, env, f.services))]
    {
      var dir := OutDir(env, cfg, f);
      NamesFor(dir);
      failure := EmitInto(dir, f.services);
      LogsAfterNew(old(logs), dir, FileLog(cfg, env, f.services));
    }
  }

  function LogsAfter(logs: map<string, seq<Event>>, d: string, log: seq<Event>): map<string, seq<Event>>
  {
    logs[d := (if d in logs then logs[d] else []) + log]
  }

  lemma LogsAfterNew(logs: map<string, seq<Event>>, d: string, log: seq<Event>)
    ensures LogsAfter(if d in logs then logs else logs[d := []], d, log) == LogsAfter(logs, d, log)
  {
  }
}
