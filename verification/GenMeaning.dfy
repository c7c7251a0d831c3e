/** What the generated call sites mean: with or without constants, every body
calls the same entry point with the same wire path. */
module GenMeaning {
  import opened Errors
  import opened GenNames
  import opened GenEmit
  import opened GenSelf
  import opened GenRun
  import opened Collecting

  // ----- Resolving a constant in its package

  predicate Declares(d: Decl, name: string)
  {
    !d.MethodDecl? && d.name == name
  }

  /** The constant a name denotes: it must be declared, once, as a constant. */
  ghost predicate Denotes(pkg: seq<Decl>, name: string, value: string)
  {
    exists i :: 0 <= i < |pkg| && pkg[i] == ConstDecl(name, value) && forall j :: 0 <= j < |pkg| && j != i ==> !Declares(pkg[j], name)
  }

  /** What a path reference denotes in a package. */
  ghost predicate RefDenotes(pkg: seq<Decl>, path: PathRef, value: string)
  {
    match path
    case Literal(v) => v == value
    case ConstRef(name) => Denotes(pkg, name, value)
  }

  lemma {:induction false} DeclaredHas(pkg: seq<Decl>, i: nat)
    requires i < |pkg| && !pkg[i].MethodDecl?
    ensures pkg[i].name in Declared(pkg)
    decreases |pkg|
  {
    if i < |pkg| - 1 {
      DeclaredHas(pkg[..|pkg| - 1], i);
    }
  }

  /** In a package that declares no name twice, a declared constant denotes its value. */
  lemma UniqueDenotes(pkg: seq<Decl>, i: nat)
    requires i < |pkg| && pkg[i].ConstDecl? && Distinct(Declared(pkg))
    ensures Denotes(pkg, pkg[i].name, pkg[i].value)
  {
    forall j | 0 <= j < |pkg| && j != i ensures !Declares(pkg[j], pkg[i].name) {
      if Declares(pkg[j], pkg[i].name) {
        var lo, hi := if i < j then i else j, if i < j then j else i;
        DeclaredHas(pkg[..hi], lo);
        assert pkg == pkg[..hi] + pkg[hi..];
        DeclaredSplits(pkg[..hi], pkg[hi..]);
        DeclaredHas(pkg[hi..], 0);
        TwiceIsNotDistinct(Declared(pkg[..hi]), Declared(pkg[hi..]), pkg[i].name);
      }
    }
    assert pkg[i] == ConstDecl(pkg[i].name, pkg[i].value);
  }

  lemma TwiceIsNotDistinct(a: seq<string>, b: seq<string>, x: string)
    requires x in a && x in b
    ensures !Distinct(a + b)
  {
    var i :| 0 <= i < |a| && a[i] == x;
    var j :| 0 <= j < |b| && b[j] == x;
    assert (a + b)[i] == (a + b)[|a| + j];
  }

  // ----- A service's constants are in its directory

  lemma {:induction false} ConstDeclared(s: Service, ms: seq<Method>, i: nat)
    requires i < |ms|
    ensures ConstDecl(ConstName(s, ms[i]), FullMethod(s, ms[i])) in MethodConstDecls(s, ms)
    decreases |ms|
  {
    if i < |ms| - 1 {
      ConstDeclared(s, ms[..|ms| - 1], i);
    }
  }

  lemma ConstInService(cfg: Config, lower: char -> char, s: Service, i: nat)
    requires i < |s.methods| && cfg.methodConsts && Unexport(lower, s.goName).Some?
    ensures ConstDecl(ConstName(s, s.methods[i]), FullMethod(s, s.methods[i])) in ServiceDecls(cfg, lower, s)
  {
    var d := ConstDecl(ConstName(s, s.methods[i]), FullMethod(s, s.methods[i]));
    ConstDeclared(s, s.methods, i);
    assert d in ConstDecls(cfg, s);
    InFront(d, ConstDecls(cfg, s), AliasDecls(s, s.methods), InterfaceDecls(cfg, s), FacesDecls(cfg, s, Unexport(lower, s.goName).value));
  }

  lemma InFront(d: Decl, a: seq<Decl>, b: seq<Decl>, c: seq<Decl>, e: seq<Decl>)
    requires d in a
    ensures d in a + b + c + e
  {
  }

  lemma {:induction false} ServiceInFile(cfg: Config, env: Env, ss: seq<Service>, k: nat, d: Decl)
    requires k < |ss| && d in ServiceDecls(cfg, env.lower, ss[k])
    ensures d in FileDecls(cfg, env, ss)
    decreases |ss|
  {
    if k < |ss| - 1 {
      ServiceInFile(cfg, env, ss[..|ss| - 1], k, d);
    }
  }

  lemma {:induction false} FileInDir(cfg: Config, env: Env, files: seq<File>, k: nat, d: Decl)
    requires k < |files| && Selected(files[k]) && d in FileDecls(cfg, env, files[k].services)
    ensures d in DirDecls(cfg, env, files, OutDir(env, cfg, files[k]))
    decreases |files|
  {
    if k < |files| - 1 {
      FileInDir(cfg, env, files[..|files| - 1], k, d);
    }
  }

  /** After a successful run every reference a call site of a service may use
      denotes the wire path of its method, which the descriptor names alone make up. */
  lemma RefsDenotePaths(cfg: Config, env: Env, files: seq<File>, k: nat, n: nat, i: nat, path: string)
    requires RunOk(cfg, env, files) && k < |files| && Selected(files[k]) && n < |files[k].services| && i < |files[k].services[n].methods|
    requires path == "/" + files[k].services[n].fullName + "/" + files[k].services[n].methods[i].name
    ensures var s := files[k].services[n];
      RefDenotes(DirDecls(cfg, env, files, OutDir(env, cfg, files[k])), MethodRef(cfg, s, s.methods[i]), path)
  {
    if cfg.methodConsts {
      var s := files[k].services[n];
      var d, dir := ConstDecl(ConstName(s, s.methods[i]), FullMethod(s, s.methods[i])), OutDir(env, cfg, files[k]);
      assert LowerOk(env, s);
      ConstInService(cfg, env.lower, s, i);
      ServiceInFile(cfg, env, files[k].services, n, d);
      FileInDir(cfg, env, files, k, d);
      var pkg := DirDecls(cfg, env, files, dir);
      var at :| 0 <= at < |pkg| && pkg[at] == d;
      UniqueDenotes(pkg, at);
    }
  }

  // ----- The methods of a package, with their paths resolved

  /** One generated body: the same receiver, name and entry point, and a path in
      `a` that denotes, in its package, what the literal in `b` says. */
  ghost predicate SameBody(pkg: seq<Decl>, a: Decl, b: Decl)
  {
    && a.MethodDecl? && b.MethodDecl? && a.recv == b.recv && a.rpc == b.rpc && a.call.Some? == b.call.Some?
    && (a.call.Some? ==>
          a.call.value.entry == b.call.value.entry && b.call.value.path.Literal? &&
          RefDenotes(pkg, a.call.value.path, b.call.value.path.value))
  }

  ghost predicate SameBodies(pkg: seq<Decl>, a: seq<Decl>, b: seq<Decl>)
  {
    |a| == |b| && forall i :: 0 <= i < |a| ==> SameBody(pkg, a[i], b[i])
  }

  function MethodIn(d: Decl): seq<Decl>
  {
    if d.MethodDecl? then [d] else []
  }

  /** The methods among some declarations, in order. */
  function Methods(decls: seq<Decl>): seq<Decl>
  {
    Collect(MethodIn, decls)
  }

  lemma MethodsSplit(a: seq<Decl>, b: seq<Decl>)
    ensures Methods(a + b) == Methods(a) + Methods(b)
  {
    CollectSplits(MethodIn, a, b);
  }

  lemma {:induction false} NoMethods(decls: seq<Decl>)
    requires forall i :: 0 <= i < |decls| ==> !decls[i].MethodDecl?
    ensures Methods(decls) == []
  {
    if decls != [] {
      NoMethods(decls[..|decls| - 1]);
    }
  }

  lemma {:induction false} OnlyMethods(decls: seq<Decl>)
    requires forall i :: 0 <= i < |decls| ==> decls[i].MethodDecl?
    ensures Methods(decls) == decls
  {
    if decls != [] {
      OnlyMethods(decls[..|decls| - 1]);
      assert decls == decls[..|decls| - 1] + [decls[|decls| - 1]];
    }
  }

  lemma {:induction false} FaceIsMethods(cfg: Config, s: Service, recv: string, entry: Method -> Entry, ms: seq<Method>)
    ensures var ds := FaceMethods(cfg, s, recv, entry, ms);
      |ds| == |ms| && forall i :: 0 <= i < |ms| ==>
        ds[i] == MethodDecl(recv, ms[i].goName, Some(Call(entry(ms[i]), MethodRef(cfg, s, ms[i]))))
  {
    if ms != [] {
      FaceIsMethods(cfg, s, recv, entry, ms[..|ms| - 1]);
    }
  }

  lemma {:induction false} ConstsNoMethods(s: Service, ms: seq<Method>)
    ensures Methods(MethodConstDecls(s, ms)) == [] && Methods(AliasDecls(s, ms)) == []
  {
    if ms != [] {
      var rest, m := ms[..|ms| - 1], ms[|ms| - 1];
      ConstsNoMethods(s, rest);
      MethodsSplit(MethodConstDecls(s, rest), [ConstDecl(ConstName(s, m), FullMethod(s, m))]);
      MethodsSplit(AliasDecls(s, rest), [AliasDecl(AliasName(s, m))]);
      NoMethods([ConstDecl(ConstName(s, m), FullMethod(s, m))]);
      NoMethods([AliasDecl(AliasName(s, m))]);
    }
  }

  lemma FrontNoMethods(cfg: Config, s: Service)
    ensures Methods(FrontDecls(cfg, s)) == []
  {
    ConstsNoMethods(s, s.methods);
    MethodsSplit(ConstDecls(cfg, s), AliasDecls(s, s.methods));
    MethodsSplit(ConstDecls(cfg, s) + AliasDecls(s, s.methods), InterfaceDecls(cfg, s));
    NoMethods(InterfaceDecls(cfg, s));
  }

  /** The methods of the Caller: its own Config, and one per rpc. */
  function CallerMethods(cfg: Config, s: Service): seq<Decl>
  {
    if !cfg.callers then []
    else [MethodDecl(s.goName + "Caller", CONFIG, None)] + FaceMethods(cfg, s, s.goName + "Caller", CallerEntry, s.methods)
  }

  /** The methods of the client implementation: one per rpc. */
  function ClientMethods(cfg: Config, s: Service, impl: string): seq<Decl>
  {
    FaceMethods(cfg, s, impl + "Client", ClientEntry, s.methods)
  }

  lemma CallerMethodsAre(cfg: Config, s: Service)
    ensures Methods(CallerDecls(cfg, s)) == CallerMethods(cfg, s)
  {
    if cfg.callers {
      var config, face := [MethodDecl(s.goName + "Caller", CONFIG, None)], FaceMethods(cfg, s, s.goName + "Caller", CallerEntry, s.methods);
      FaceIsMethods(cfg, s, s.goName + "Caller", CallerEntry, s.methods);
      MethodsAfter(CallerHead(cfg, s), config, face);
    }
  }

  lemma {:induction false} MethodsAfter(head: seq<Decl>, config: seq<Decl>, face: seq<Decl>)
    requires forall i :: 0 <= i < |head| ==> !head[i].MethodDecl?
    requires (forall i :: 0 <= i < |config| ==> config[i].MethodDecl?) && (forall i :: 0 <= i < |face| ==> face[i].MethodDecl?)
    ensures Methods(head + config + face) == config + face
  {
    NoMethods(head);
    OnlyMethods(config);
    OnlyMethods(face);
    MethodsSplit(head, config);
    MethodsSplit(head + config, face);
    assert [] + config == config;
  }

  lemma ClientMethodsAre(cfg: Config, s: Service, impl: string)
    ensures Methods(ImplDecls(cfg, s, impl)) == ClientMethods(cfg, s, impl)
  {
    var head, face := ImplHead(cfg, s, impl), ClientMethods(cfg, s, impl);
    FaceIsMethods(cfg, s, impl + "Client", ClientEntry, s.methods);
    OnlyMethods(face);
    NoMethods(head);
    MethodsSplit(head, face);
    assert [] + face == face;
  }

  lemma ServiceMethodsAre(cfg: Config, lower: char -> char, s: Service)
    ensures Methods(ServiceDecls(cfg, lower, s)) ==
      match Unexport(lower, s.goName)
      case None => []
      case Some(impl) => ClientMethods(cfg, s, impl) + CallerMethods(cfg, s)
  {
    var impl := Unexport(lower, s.goName);
    if impl.Some? {
      FrontNoMethods(cfg, s);
      MethodsSplit(FrontDecls(cfg, s), FacesDecls(cfg, s, impl.value));
      MethodsSplit(ImplDecls(cfg, s, impl.value), CallerDecls(cfg, s));
      ClientMethodsAre(cfg, s, impl.value);
      CallerMethodsAre(cfg, s);
    }
  }

  // ----- method_consts preserves meaning

  function NoConsts(cfg: Config): Config
  {
    cfg.(methodConsts := false)
  }

  /** In the package, every reference to a method of the service denotes its path. */
  ghost predicate Resolves(pkg: seq<Decl>, cfg: Config, s: Service)
  {
    forall i :: 0 <= i < |s.methods| ==> RefDenotes(pkg, MethodRef(cfg, s, s.methods[i]), FullMethod(s, s.methods[i]))
  }

  lemma SameConcat(pkg: seq<Decl>, a: seq<Decl>, b: seq<Decl>, c: seq<Decl>, d: seq<Decl>)
    requires SameBodies(pkg, a, b) && SameBodies(pkg, c, d)
    ensures SameBodies(pkg, a + c, b + d)
  {
  }

  lemma FaceSame(pkg: seq<Decl>, cfg: Config, s: Service, recv: string, entry: Method -> Entry)
    requires Resolves(pkg, cfg, s)
    ensures SameBodies(pkg, FaceMethods(cfg, s, recv, entry, s.methods), FaceMethods(NoConsts(cfg), s, recv, entry, s.methods))
  {
    FaceIsMethods(cfg, s, recv, entry, s.methods);
    FaceIsMethods(NoConsts(cfg), s, recv, entry, s.methods);
  }

  lemma CallerSame(pkg: seq<Decl>, cfg: Config, s: Service)
    requires Resolves(pkg, cfg, s)
    ensures SameBodies(pkg, CallerMethods(cfg, s), CallerMethods(NoConsts(cfg), s))
  {
    if cfg.callers {
      var config := [MethodDecl(s.goName + "Caller", CONFIG, None)];
      FaceSame(pkg, cfg, s, s.goName + "Caller", CallerEntry);
      SameConcat(pkg, config, config, FaceMethods(cfg, s, s.goName + "Caller", CallerEntry, s.methods),
                 FaceMethods(NoConsts(cfg), s, s.goName + "Caller", CallerEntry, s.methods));
    }
  }

  lemma ServiceSame(pkg: seq<Decl>, cfg: Config, lower: char -> char, s: Service)
    requires Resolves(pkg, cfg, s)
    ensures SameBodies(pkg, Methods(ServiceDecls(cfg, lower, s)), Methods(ServiceDecls(NoConsts(cfg), lower, s)))
  {
    ServiceMethodsAre(cfg, lower, s);
    ServiceMethodsAre(NoConsts(cfg), lower, s);
    match Unexport(lower, s.goName)
    case None =>
    case Some(impl) =>
      FaceSame(pkg, cfg, s, impl + "Client", ClientEntry);
      CallerSame(pkg, cfg, s);
      SameConcat(pkg, ClientMethods(cfg, s, impl), ClientMethods(NoConsts(cfg), s, impl), CallerMethods(cfg, s), CallerMethods(NoConsts(cfg), s));
  }

  lemma {:induction false} FileSame(pkg: seq<Decl>, cfg: Config, env: Env, ss: seq<Service>)
    requires forall i :: 0 <= i < |ss| ==> Resolves(pkg, cfg, ss[i])
    ensures SameBodies(pkg, Methods(FileDecls(cfg, env, ss)), Methods(FileDecls(NoConsts(cfg), env, ss)))
    decreases |ss|
  {
    if ss != [] {
      var rest, s, off := ss[..|ss| - 1], ss[|ss| - 1], NoConsts(cfg);
      FileSame(pkg, cfg, env, rest);
      ServiceSame(pkg, cfg, env.lower, s);
      MethodsSplit(FileDecls(cfg, env, rest), ServiceDecls(cfg, env.lower, s));
      MethodsSplit(FileDecls(off, env, rest), ServiceDecls(off, env.lower, s));
      SameConcat(pkg, Methods(FileDecls(cfg, env, rest)), Methods(FileDecls(off, env, rest)),
                 Methods(ServiceDecls(cfg, env.lower, s)), Methods(ServiceDecls(off, env.lower, s)));
    }
  }

  ghost predicate FileResolves(pkg: seq<Decl>, cfg: Config, f: File)
  {
    forall i :: 0 <= i < |f.services| ==> Resolves(pkg, cfg, f.services[i])
  }

  lemma {:induction false} DirSame(pkg: seq<Decl>, cfg: Config, env: Env, files: seq<File>, d: string)
    requires forall k :: 0 <= k < |files| && GoesTo(env, cfg, files[k], d) ==> FileResolves(pkg, cfg, files[k])
    ensures SameBodies(pkg, Methods(DirDecls(cfg, env, files, d)), Methods(DirDecls(NoConsts(cfg), env, files, d)))
    decreases |files|
  {
    if files != [] {
      var rest, f, off := files[..|files| - 1], files[|files| - 1], NoConsts(cfg);
      DirSame(pkg, cfg, env, rest, d);
      DirStep(cfg, env, files, d);
      DirStep(off, env, files, d);
      assert GoesTo(env, cfg, f, d) == GoesTo(env, off, f, d);
      if GoesTo(env, cfg, f, d) {
        FileSame(pkg, cfg, env, f.services);
        MethodsSplit(DirDecls(cfg, env, rest, d), FileDecls(cfg, env, f.services));
        MethodsSplit(DirDecls(off, env, rest, d), FileDecls(off, env, f.services));
        SameConcat(pkg, Methods(DirDecls(cfg, env, rest, d)), Methods(DirDecls(off, env, rest, d)),
                   Methods(FileDecls(cfg, env, f.services)), Methods(FileDecls(off, env, f.services)));
      }
    }
  }

  /** method_consts preserves meaning: after a successful run, in every directory,
      the generated bodies are those of a run without constants, each path
      reference denoting in its package the literal written there. */
  lemma ConstsPreserveMeaning(cfg: Config, env: Env, files: seq<File>, d: string)
    requires RunOk(cfg, env, files)
    ensures var pkg := DirDecls(cfg, env, files, d);
      SameBodies(pkg, Methods(pkg), Methods(DirDecls(NoConsts(cfg), env, files, d)))
  {
    var pkg := DirDecls(cfg, env, files, d);
    forall k | 0 <= k < |files| && GoesTo(env, cfg, files[k], d) ensures FileResolves(pkg, cfg, files[k]) {
      forall n, i | 0 <= n < |files[k].services| && 0 <= i < |files[k].services[n].methods|
        ensures RefDenotes(pkg, MethodRef(cfg, files[k].services[n], files[k].services[n].methods[i]),
                           FullMethod(files[k].services[n], files[k].services[n].methods[i]))
      {
        RefsDenotePaths(cfg, env, files, k, n, i, FullMethod(files[k].services[n], files[k].services[n].methods[i]));
      }
    }
    DirSame(pkg, cfg, env, files, d);
  }

  // ----- checkService is about the methods of the generated types

  function RpcOn(recv: string): Decl -> seq<string>
  {
    (d: Decl) => if d.MethodDecl? && d.recv == recv then [d.rpc] else []
  }

  /** The names of the methods declared on a receiver. */
  function MethodsOn(decls: seq<Decl>, recv: string): seq<string>
  {
    Collect(RpcOn(recv), decls)
  }

  lemma OnSplits(a: seq<Decl>, b: seq<Decl>, recv: string)
    ensures MethodsOn(a + b, recv) == MethodsOn(a, recv) + MethodsOn(b, recv)
  {
    CollectSplits(RpcOn(recv), a, b);
  }

  lemma {:induction false} OnMethods(decls: seq<Decl>, recv: string)
    ensures MethodsOn(decls, recv) == MethodsOn(Methods(decls), recv)
  {
    if decls != [] {
      var rest, d := decls[..|decls| - 1], decls[|decls| - 1];
      OnMethods(rest, recv);
      if d.MethodDecl? {
        OnSplits(Methods(rest), [d], recv);
        CollectOne(RpcOn(recv), d);
      } else {
        assert Methods(decls) == Methods(rest);
      }
    }
  }

  lemma {:induction false} OnFace(cfg: Config, s: Service, recv: string, entry: Method -> Entry, ms: seq<Method>, on: string)
    ensures MethodsOn(FaceMethods(cfg, s, recv, entry, ms), on) == if on == recv then GoNames(ms) else []
  {
    if ms != [] {
      var rest, m := ms[..|ms| - 1], ms[|ms| - 1];
      var d := MethodDecl(recv, m.goName, Some(Call(entry(m), MethodRef(cfg, s, m))));
      OnFace(cfg, s, recv, entry, rest, on);
      OnSplits(FaceMethods(cfg, s, recv, entry, rest), [d], on);
      CollectOne(RpcOn(on), d);
      GoNamesStep(ms);
    }
  }

  lemma GoNamesStep(ms: seq<Method>)
    requires ms != []
    ensures GoNames(ms) == GoNames(ms[..|ms| - 1]) + [ms[|ms| - 1].goName]
  {
  }

  lemma OnCaller(cfg: Config, s: Service, on: string)
    ensures MethodsOn(CallerMethods(cfg, s), on) == if cfg.callers && on == s.goName + "Caller" then [CONFIG] + GoNames(s.methods) else []
  {
    if cfg.callers {
      var config := MethodDecl(s.goName + "Caller", CONFIG, None);
      OnSplits([config], FaceMethods(cfg, s, s.goName + "Caller", CallerEntry, s.methods), on);
      OnFace(cfg, s, s.goName + "Caller", CallerEntry, s.methods, on);
      CollectOne(RpcOn(on), config);
    }
  }

  lemma OnService(cfg: Config, lower: char -> char, s: Service, on: string)
    requires Unexport(lower, s.goName).Some?
    ensures var client := Unexport(lower, s.goName).value + "Client";
      MethodsOn(ServiceDecls(cfg, lower, s), on) ==
      if on == client then GoNames(s.methods)
      else if cfg.callers && on == s.goName + "Caller" then [CONFIG] + GoNames(s.methods)
      else []
  {
    var impl := Unexport(lower, s.goName).value;
    OnMethods(ServiceDecls(cfg, lower, s), on);
    ServiceMethodsAre(cfg, lower, s);
    OnSplits(ClientMethods(cfg, s, impl), CallerMethods(cfg, s), on);
    OnFace(cfg, s, impl + "Client", ClientEntry, s.methods, on);
    OnCaller(cfg, s, on);
    Endings(s, Method("", "", false, false), impl);
  }

  ghost predicate MethodSetsOk(decls: seq<Decl>)
  {
    forall on :: Distinct(MethodsOn(decls, on))
  }

  lemma CheckedSet(cfg: Config, lower: char -> char, s: Service, on: string)
    requires Unexport(lower, s.goName).Some? && CheckOk(cfg, s)
    ensures Distinct(MethodsOn(ServiceDecls(cfg, lower, s), on))
  {
    OnService(cfg, lower, s, on);
    ConfigFirst(GoNames(s.methods));
  }

  lemma SetsChecked(cfg: Config, lower: char -> char, s: Service, decls: seq<Decl>)
    requires Unexport(lower, s.goName).Some? && decls == ServiceDecls(cfg, lower, s) && MethodSetsOk(decls)
    ensures CheckOk(cfg, s)
  {
    var impl := Unexport(lower, s.goName).value;
    OnService(cfg, lower, s, impl + "Client");
    OnService(cfg, lower, s, s.goName + "Caller");
    Endings(s, Method("", "", false, false), impl);
    ConfigFirst(GoNames(s.methods));
    assert Distinct(MethodsOn(decls, impl + "Client")) && Distinct(MethodsOn(decls, s.goName + "Caller"));
  }

  /** checkService accepts a service exactly when no generated type of it would
      have two methods of one name. */
  lemma CheckIsMethodSets(cfg: Config, lower: char -> char, s: Service)
    requires Unexport(lower, s.goName).Some?
    ensures CheckOk(cfg, s) <==> MethodSetsOk(ServiceDecls(cfg, lower, s))
  {
    if CheckOk(cfg, s) {
      forall on ensures Distinct(MethodsOn(ServiceDecls(cfg, lower, s), on)) {
        CheckedSet(cfg, lower, s, on);
      }
    }
    if MethodSetsOk(ServiceDecls(cfg, lower, s)) {
      SetsChecked(cfg, lower, s, ServiceDecls(cfg, lower, s));
    }
  }

  lemma ConfigFirst(names: seq<string>)
    ensures Distinct([CONFIG] + names) <==> Distinct(names) && CONFIG !in names
  {
    var all := [CONFIG] + names;
    if Distinct(all) {
      forall i | 0 <= i < |names| ensures names[i] != CONFIG {
        assert all[0] != all[i + 1];
      }
      forall i, j | 0 <= i < j < |names| ensures names[i] != names[j] {
        assert all[i + 1] != all[j + 1];
      }
    }
  }
}
