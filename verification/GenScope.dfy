/** Names are claimed exactly as they are declared. */
module GenScope {
  import opened Errors
  import opened GenNames
  import opened GenEmit
  import opened Collecting

  // ----- Claimed is declared

  lemma {:induction false} ConstsClaimed(s: Service, ms: seq<Method>)
    ensures Declared(MethodConstDecls(s, ms)) == Names(MethodConstLog(s, ms))
    ensures Unlowered(MethodConstLog(s, ms)) == 0
  {
    if ms != [] {
      var rest, m := ms[..|ms| - 1], ms[|ms| - 1];
      ConstsClaimed(s, rest);
      DeclaredSplits(MethodConstDecls(s, rest), [ConstDecl(ConstName(s, m), FullMethod(s, m))]);
      LogSplits(MethodConstLog(s, rest), [Claim(ConstName(s, m), Owner(FullMethodName, s.fullName, m.name))]);
      OneDeclared(ConstDecl(ConstName(s, m), FullMethod(s, m)));
      OneClaimed(ConstName(s, m), Owner(FullMethodName, s.fullName, m.name));
    }
  }

  lemma OneDeclared(d: Decl)
    ensures Declared([d]) == if d.MethodDecl? then [] else [d.name]
  {
    CollectOne(ScopeName, d);
  }

  lemma OneClaimed(name: string, owner: Owner)
    ensures Names([Claim(name, owner)]) == [name] && Unlowered([Claim(name, owner)]) == 0
  {
    CollectOne(ClaimedBy, Claim(name, owner));
    CollectOne(RefusedBy, Claim(name, owner));
  }

  lemma {:induction false} AliasesClaimed(s: Service, ms: seq<Method>)
    ensures Declared(AliasDecls(s, ms)) == Names(AliasLog(s, ms))
    ensures Unlowered(AliasLog(s, ms)) == 0
  {
    if ms != [] {
      var rest, m := ms[..|ms| - 1], ms[|ms| - 1];
      AliasesClaimed(s, rest);
      DeclaredSplits(AliasDecls(s, rest), [AliasDecl(AliasName(s, m))]);
      LogSplits(AliasLog(s, rest), [Claim(AliasName(s, m), Owner(StreamAlias, s.fullName, m.name))]);
      OneDeclared(AliasDecl(AliasName(s, m)));
      OneClaimed(AliasName(s, m), Owner(StreamAlias, s.fullName, m.name));
    }
  }

  lemma {:induction false} MethodsDeclareNothing(cfg: Config, s: Service, recv: string, entry: Method -> Entry, ms: seq<Method>)
    ensures Declared(FaceMethods(cfg, s, recv, entry, ms)) == []
  {
    if ms != [] {
      var d := MethodDecl(recv, ms[|ms| - 1].goName, Some(Call(entry(ms[|ms| - 1]), MethodRef(cfg, s, ms[|ms| - 1]))));
      MethodsDeclareNothing(cfg, s, recv, entry, ms[..|ms| - 1]);
      DeclaredSplits(FaceMethods(cfg, s, recv, entry, ms[..|ms| - 1]), [d]);
      OneDeclared(d);
    }
  }

  /** Two declarations and, optionally, a third. */
  lemma HeadDeclared(a: Decl, b: Decl, c: Decl, third: bool)
    requires !a.MethodDecl? && !b.MethodDecl? && !c.MethodDecl?
    ensures Declared([a, b] + if third then [c] else []) == [a.name, b.name] + if third then [c.name] else []
  {
    assert [a, b] == [a] + [b];
    DeclaredSplits([a], [b]);
    DeclaredSplits([a, b], if third then [c] else []);
    OneDeclared(a);
    OneDeclared(b);
    OneDeclared(c);
  }

  lemma HeadClaimed(a: Event, b: Event, c: Event, third: bool)
    requires a.Claim? && b.Claim? && c.Claim?
    ensures Names([a, b] + if third then [c] else []) == [a.name, b.name] + if third then [c.name] else []
    ensures Unlowered([a, b] + if third then [c] else []) == 0
  {
    assert [a, b] == [a] + [b];
    LogSplits([a], [b]);
    LogSplits([a, b], if third then [c] else []);
    OneClaimed(a.name, a.owner);
    OneClaimed(b.name, b.owner);
    OneClaimed(c.name, c.owner);
  }

  /** The names of the client implementation. */
  function ImplNames(cfg: Config, s: Service, impl: string): seq<string>
  {
    [impl + "Client", "New" + s.goName + "Client"] + if EmitDefaultCodec(cfg) then ["New" + s.goName + "Client" + "On"] else []
  }

  function CallerNames(cfg: Config, s: Service): seq<string>
  {
    if !cfg.callers then []
    else [s.goName + "Caller", "New" + (s.goName + "Caller")] +
         if EmitDefaultCodec(cfg) then ["New" + (s.goName + "Caller") + "On"] else []
  }

  function InterfaceNames(cfg: Config, s: Service): seq<string>
  {
    if cfg.interfaces then [s.goName + "Client"] else []
  }

  lemma ImplClaimed(cfg: Config, s: Service, impl: string)
    ensures Declared(ImplDecls(cfg, s, impl)) == ImplNames(cfg, s, impl) == Names(ImplLog(cfg, s, impl))
    ensures Unlowered(ImplLog(cfg, s, impl)) == 0
  {
    var a, b := impl + "Client", "New" + s.goName + "Client";
    HeadDeclared(StructDecl(a), FuncDecl(b), FuncDecl(b + "On"), EmitDefaultCodec(cfg));
    HeadClaimed(Claim(a, Owner(ClientImpl, s.fullName, "")), Claim(b, Owner(ClientConstructor, s.fullName, "")),
                Claim(b + "On", Owner(ClientConstructorOn, s.fullName, "")), EmitDefaultCodec(cfg));
    DeclaredSplits(ImplHead(cfg, s, impl), FaceMethods(cfg, s, a, ClientEntry, s.methods));
    MethodsDeclareNothing(cfg, s, a, ClientEntry, s.methods);
  }

  lemma CallerClaimed(cfg: Config, s: Service)
    ensures Declared(CallerDecls(cfg, s)) == CallerNames(cfg, s) == Names(CallerLog(cfg, s))
    ensures Unlowered(CallerLog(cfg, s)) == 0
  {
    var a := s.goName + "Caller";
    var b := "New" + a;
    HeadDeclared(StructDecl(a), FuncDecl(b), FuncDecl(b + "On"), EmitDefaultCodec(cfg));
    HeadClaimed(Claim(a, Owner(CallerStruct, s.fullName, "")), Claim(b, Owner(CallerConstructor, s.fullName, "")),
                Claim(b + "On", Owner(CallerConstructorOn, s.fullName, "")), EmitDefaultCodec(cfg));
    var config := MethodDecl(a, CONFIG, None);
    OneDeclared(config);
    DeclaredSplits(CallerHead(cfg, s), [config]);
    DeclaredSplits(CallerHead(cfg, s) + [config], FaceMethods(cfg, s, a, CallerEntry, s.methods));
    MethodsDeclareNothing(cfg, s, a, CallerEntry, s.methods);
  }

  lemma InterfaceClaimed(cfg: Config, s: Service)
    ensures Declared(InterfaceDecls(cfg, s)) == InterfaceNames(cfg, s) == Names(InterfaceLog(cfg, s))
    ensures Unlowered(InterfaceLog(cfg, s)) == 0
  {
    if cfg.interfaces {
      OneDeclared(InterfaceDecl(s.goName + "Client", GoNames(s.methods)));
      OneClaimed(s.goName + "Client", Owner(ClientInterface, s.fullName, ""));
    }
  }

  function ConstNames(cfg: Config, s: Service): seq<string>
  {
    Names(ConstLog(cfg, s))
  }

  function AliasNames(s: Service): seq<string>
  {
    Names(AliasLog(s, s.methods))
  }

  lemma FrontClaimed(cfg: Config, s: Service)
    ensures Declared(FrontDecls(cfg, s)) == ConstNames(cfg, s) + AliasNames(s) + InterfaceNames(cfg, s) == Names(FrontLog(cfg, s))
    ensures Unlowered(FrontLog(cfg, s)) == 0
  {
    ConstsClaimed(s, s.methods);
    AliasesClaimed(s, s.methods);
    InterfaceClaimed(cfg, s);
    LogSplits(ConstLog(cfg, s), AliasLog(s, s.methods));
    LogSplits(ConstLog(cfg, s) + AliasLog(s, s.methods), InterfaceLog(cfg, s));
    DeclaredSplits(ConstDecls(cfg, s), AliasDecls(s, s.methods));
    DeclaredSplits(ConstDecls(cfg, s) + AliasDecls(s, s.methods), InterfaceDecls(cfg, s));
  }

  lemma FacesClaimed(cfg: Config, s: Service, impl: string)
    ensures Declared(FacesDecls(cfg, s, impl)) == ImplNames(cfg, s, impl) + CallerNames(cfg, s) == Names(FacesLog(cfg, s, impl))
    ensures Unlowered(FacesLog(cfg, s, impl)) == 0
  {
    ImplClaimed(cfg, s, impl);
    CallerClaimed(cfg, s);
    LogSplits(ImplLog(cfg, s, impl), CallerLog(cfg, s));
    DeclaredSplits(ImplDecls(cfg, s, impl), CallerDecls(cfg, s));
  }

  function AllNames(cfg: Config, s: Service, impl: string): seq<string>
  {
    ConstNames(cfg, s) + AliasNames(s) + InterfaceNames(cfg, s) + (ImplNames(cfg, s, impl) + CallerNames(cfg, s))
  }

  /** Every package-scope identifier a service's code declares is claimed, once
      per declaration, and nothing else is. */
  lemma DeclaredIsClaimed(cfg: Config, lower: char -> char, s: Service)
    ensures Declared(ServiceDecls(cfg, lower, s)) == Names(ServiceLog(cfg, lower, s))
    ensures Unexport(lower, s.goName).Some? ==> Names(ServiceLog(cfg, lower, s)) == AllNames(cfg, s, Unexport(lower, s.goName).value)
    ensures Unlowered(ServiceLog(cfg, lower, s)) == if Unexport(lower, s.goName).Some? then 0 else 1
  {
    match Unexport(lower, s.goName)
    case None =>
      CollectOne(ClaimedBy, NoLowerCase(s.fullName));
      CollectOne(RefusedBy, NoLowerCase(s.fullName));
    case Some(impl) =>
      FrontClaimed(cfg, s);
      FacesClaimed(cfg, s, impl);
      LogSplits(FrontLog(cfg, s), FacesLog(cfg, s, impl));
      DeclaredSplits(FrontDecls(cfg, s), FacesDecls(cfg, s, impl));
  }
}
