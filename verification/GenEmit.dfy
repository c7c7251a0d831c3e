/** The emitters: which declarations a service becomes, and which names it claims. */
module GenEmit {
  import opened Errors
  import opened GenNames
  import opened Collecting

  datatype Config = Config(separatePackage: bool, packageSuffix: string, callers: bool, interfaces: bool,
                           methodConsts: bool, runtimeImport: string, defaultCodec: string)

  predicate EmitDefaultCodec(cfg: Config)
  {
    cfg.defaultCodec == "protocodec"
  }

  // ----- The generated code, as far as names and paths go

  datatype PathRef = ConstRef(name: string) | Literal(value: string)

  datatype Entry = UnaryOpts | NewServerStreamOpts | NewClientStreamOpts | NewBidiStreamOpts
                 | Unary | NewServerStream | NewClientStream | NewBidiStream

  /** The runtime call a generated body makes, and the wire path it passes. */
  datatype Call = Call(entry: Entry, path: PathRef)

  datatype Decl =
    | ConstDecl(name: string, value: string)
    | AliasDecl(name: string)
    | InterfaceDecl(name: string, methods: seq<string>)
    | StructDecl(name: string)
    | FuncDecl(name: string)
    | MethodDecl(recv: string, rpc: string, call: Option<Call>)

  function ScopeName(d: Decl): seq<string>
  {
    if d.MethodDecl? then [] else [d.name]
  }

  /** The identifiers declarations put into package scope; a method has none. */
  function Declared(decls: seq<Decl>): seq<string>
  {
    Collect(ScopeName, decls)
  }

  lemma DeclaredSplits(a: seq<Decl>, b: seq<Decl>)
    ensures Declared(a + b) == Declared(a) + Declared(b)
  {
    CollectSplits(ScopeName, a, b);
  }

  // ----- Methods

  datatype StreamKind = NoStream | ServerStream | ClientStream | BidiStream

  function KindOf(m: Method): StreamKind
  {
    if m.clientStreams && m.serverStreams then BidiStream
    else if m.serverStreams then ServerStream
    else if m.clientStreams then ClientStream
    else NoStream
  }

  /** The wire path, from the descriptor names. */
  function FullMethod(s: Service, m: Method): string
  {
    "/" + s.fullName + "/" + m.name
  }

  function ConstName(s: Service, m: Method): string
  {
    s.goName + "_" + m.goName + "_FullMethodName"
  }

  function AliasName(s: Service, m: Method): string
  {
    s.goName + "_" + m.goName + "Client"
  }

  /** How a generated body refers to its method's wire path. */
  function MethodRef(cfg: Config, s: Service, m: Method): PathRef
  {
    if cfg.methodConsts then ConstRef(ConstName(s, m)) else Literal(FullMethod(s, m))
  }

  function ClientEntry(m: Method): Entry
  {
    match KindOf(m)
    case NoStream => UnaryOpts
    case ServerStream => NewServerStreamOpts
    case ClientStream => NewClientStreamOpts
    case BidiStream => NewBidiStreamOpts
  }

  function CallerEntry(m: Method): Entry
  {
    match KindOf(m)
    case NoStream => Unary
    case ServerStream => NewServerStream
    case ClientStream => NewClientStream
    case BidiStream => NewBidiStream
  }

  // ----- What each emitter writes and claims

  function MethodConstDecls(s: Service, ms: seq<Method>): seq<Decl>
  {
    if ms == [] then []
    else MethodConstDecls(s, ms[..|ms| - 1]) + [ConstDecl(ConstName(s, ms[|ms| - 1]), FullMethod(s, ms[|ms| - 1]))]
  }

  function MethodConstLog(s: Service, ms: seq<Method>): seq<Event>
  {
    if ms == [] then []
    else MethodConstLog(s, ms[..|ms| - 1]) +
         [Claim(ConstName(s, ms[|ms| - 1]), Owner(FullMethodName, s.fullName, ms[|ms| - 1].name))]
  }

  function AliasDecls(s: Service, ms: seq<Method>): seq<Decl>
  {
    if ms == [] then []
    else
      var rest, m := AliasDecls(s, ms[..|ms| - 1]), ms[|ms| - 1];
      if KindOf(m) == NoStream then rest else rest + [AliasDecl(AliasName(s, m))]
  }

  function AliasLog(s: Service, ms: seq<Method>): seq<Event>
  {
    if ms == [] then []
    else
      var rest, m := AliasLog(s, ms[..|ms| - 1]), ms[|ms| - 1];
      if KindOf(m) == NoStream then rest else rest + [Claim(AliasName(s, m), Owner(StreamAlias, s.fullName, m.name))]
  }

  function ConstDecls(cfg: Config, s: Service): seq<Decl>
  {
    if cfg.methodConsts then MethodConstDecls(s, s.methods) else []
  }

  function ConstLog(cfg: Config, s: Service): seq<Event>
  {
    if cfg.methodConsts then MethodConstLog(s, s.methods) else []
  }

  function InterfaceDecls(cfg: Config, s: Service): seq<Decl>
  {
    if cfg.interfaces then [InterfaceDecl(s.goName + "Client", GoNames(s.methods))] else []
  }

  function InterfaceLog(cfg: Config, s: Service): seq<Event>
  {
    if cfg.interfaces then [Claim(s.goName + "Client", Owner(ClientInterface, s.fullName, ""))] else []
  }

  /** The methods of one face: one per rpc, each with its call. */
  function FaceMethods(cfg: Config, s: Service, recv: string, entry: Method -> Entry, ms: seq<Method>): seq<Decl>
  {
    if ms == [] then []
    else FaceMethods(cfg, s, recv, entry, ms[..|ms| - 1]) +
         [MethodDecl(recv, ms[|ms| - 1].goName, Some(Call(entry(ms[|ms| - 1]), MethodRef(cfg, s, ms[|ms| - 1]))))]
  }

  function ImplHead(cfg: Config, s: Service, impl: string): seq<Decl>
  {
    [StructDecl(impl + "Client"), FuncDecl("New" + s.goName + "Client")] +
    if EmitDefaultCodec(cfg) then [FuncDecl("New" + s.goName + "Client" + "On")] else []
  }

  function ImplLog(cfg: Config, s: Service, impl: string): seq<Event>
  {
    [Claim(impl + "Client", Owner(ClientImpl, s.fullName, "")),
     Claim("New" + s.goName + "Client", Owner(ClientConstructor, s.fullName, ""))] +
    if EmitDefaultCodec(cfg) then [Claim("New" + s.goName + "Client" + "On", Owner(ClientConstructorOn, s.fullName, ""))] else []
  }

  function ImplDecls(cfg: Config, s: Service, impl: string): seq<Decl>
  {
    ImplHead(cfg, s, impl) + FaceMethods(cfg, s, impl + "Client", ClientEntry, s.methods)
  }

  function CallerHead(cfg: Config, s: Service): seq<Decl>
  {
    [StructDecl(s.goName + "Caller"), FuncDecl("New" + (s.goName + "Caller"))] +
    if EmitDefaultCodec(cfg) then [FuncDecl("New" + (s.goName + "Caller") + "On")] else []
  }

  function CallerLog(cfg: Config, s: Service): seq<Event>
  {
    if !cfg.callers then []
    else
      [Claim(s.goName + "Caller", Owner(CallerStruct, s.fullName, "")),
       Claim("New" + (s.goName + "Caller"), Owner(CallerConstructor, s.fullName, ""))] +
      if EmitDefaultCodec(cfg) then [Claim("New" + (s.goName + "Caller") + "On", Owner(CallerConstructorOn, s.fullName, ""))] else []
  }

  function CallerDecls(cfg: Config, s: Service): seq<Decl>
  {
    if !cfg.callers then []
    else CallerHead(cfg, s) + [MethodDecl(s.goName + "Caller", CONFIG, None)] +
         FaceMethods(cfg, s, s.goName + "Caller", CallerEntry, s.methods)
  }

  function FrontDecls(cfg: Config, s: Service): seq<Decl>
  {
    ConstDecls(cfg, s) + AliasDecls(s, s.methods) + InterfaceDecls(cfg, s)
  }

  function FrontLog(cfg: Config, s: Service): seq<Event>
  {
    ConstLog(cfg, s) + AliasLog(s, s.methods) + InterfaceLog(cfg, s)
  }

  function FacesDecls(cfg: Config, s: Service, impl: string): seq<Decl>
  {
    ImplDecls(cfg, s, impl) + CallerDecls(cfg, s)
  }

  function FacesLog(cfg: Config, s: Service, impl: string): seq<Event>
  {
    ImplLog(cfg, s, impl) + CallerLog(cfg, s)
  }

  /** Everything one service becomes, and what it claims. */
  function ServiceDecls(cfg: Config, lower: char -> char, s: Service): seq<Decl>
  {
    match Unexport(lower, s.goName)
    case None => []
    case Some(impl) => FrontDecls(cfg, s) + FacesDecls(cfg, s, impl)
  }

  function ServiceLog(cfg: Config, lower: char -> char, s: Service): seq<Event>
  {
    match Unexport(lower, s.goName)
    case None => [NoLowerCase(s.fullName)]
    case Some(impl) => FrontLog(cfg, s) + FacesLog(cfg, s, impl)
  }

  lemma {:induction false} ConstStep(s: Service, ms: seq<Method>, i: nat)
    requires i < |ms|
    ensures MethodConstDecls(s, ms[..i + 1]) == MethodConstDecls(s, ms[..i]) + [ConstDecl(ConstName(s, ms[i]), FullMethod(s, ms[i]))]
    ensures MethodConstLog(s, ms[..i + 1]) ==
      MethodConstLog(s, ms[..i]) + [Claim(ConstName(s, ms[i]), Owner(FullMethodName, s.fullName, ms[i].name))]
  {
    assert ms[..i + 1][..i] == ms[..i];
  }

  lemma Chain<T>(x: seq<T>, a: seq<T>, b: seq<T>)
    ensures x + a + b == x + (a + b)
  {
  }

  // ----- The emitters themselves

  class FileGen {
    const cfg: Config
    const lower: char -> char
    const names: NameSet
    var out: seq<Decl>

    constructor (cfg: Config, lower: char -> char, names: NameSet)
      ensures this.cfg == cfg && this.lower == lower && this.names == names && out == []
    {
      this.cfg, this.lower, this.names, out := cfg, lower, names, [];
    }

    method MethodConsts(s: Service)
      requires names.Valid()
      modifies this, names
      ensures names.Valid() && out == old(out) + ConstDecls(cfg, s) && names.log == old(names.log) + ConstLog(cfg, s)
    {
      if !cfg.methodConsts || |s.methods| == 0 {
        return;
      }
      for i := 0 to |s.methods|
        invariant names.Valid()
        invariant out == old(out) + MethodConstDecls(s, s.methods[..i])
        invariant names.log == old(names.log) + MethodConstLog(s, s.methods[..i])
      {
        var m := s.methods[i];
        ConstStep(s, s.methods, i);
        Chain(old(out), MethodConstDecls(s, s.methods[..i]), [ConstDecl(ConstName(s, m), FullMethod(s, m))]);
        Chain(old(names.log), MethodConstLog(s, s.methods[..i]), [Claim(ConstName(s, m), Owner(FullMethodName, s.fullName, m.name))]);
        var name := names.Claim(ConstName(s, m), Owner(FullMethodName, s.fullName, m.name));
        out := out + [ConstDecl(name, FullMethod(s, m))];
      }
      assert s.methods[..|s.methods|] == s.methods;
    }

    method StreamAliases(s: Service)
      requires names.Valid()
      modifies this, names
      ensures names.Valid() && out == old(out) + AliasDecls(s, s.methods) && names.log == old(names.log) + AliasLog(s, s.methods)
    {
      for i := 0 to |s.methods|
        invariant names.Valid()
        invariant out == old(out) + AliasDecls(s, s.methods[..i])
        invariant names.log == old(names.log) + AliasLog(s, s.methods[..i])
      {
        var m := s.methods[i];
        assert s.methods[..i + 1][..i] == s.methods[..i];
        if KindOf(m) != NoStream {
          var name := names.Claim(AliasName(s, m), Owner(StreamAlias, s.fullName, m.name));
          out := out + [AliasDecl(name)];
        }
      }
      assert s.methods[..|s.methods|] == s.methods;
    }

    method ClientInterface(s: Service)
      requires names.Valid()
      modifies this, names
      ensures names.Valid() && out == old(out) + InterfaceDecls(cfg, s) && names.log == old(names.log) + InterfaceLog(cfg, s)
    {
      if !cfg.interfaces {
        return;
      }
      var name := names.Claim(s.goName + "Client", Owner(Kind.ClientInterface, s.fullName, ""));
      out := out + [InterfaceDecl(name, GoNames(s.methods))];
    }

    /** The methods of one face, one per rpc. */
    method Face(s: Service, recv: string, entry: Method -> Entry)
      modifies this
      ensures out == old(out) + FaceMethods(cfg, s, recv, entry, s.methods)
    {
      for i := 0 to |s.methods|
        invariant out == old(out) + FaceMethods(cfg, s, recv, entry, s.methods[..i])
      {
        var m := s.methods[i];
        assert s.methods[..i + 1][..i] == s.methods[..i];
        out := out + [MethodDecl(recv, m.goName, Some(Call(entry(m), MethodRef(cfg, s, m))))];
      }
      assert s.methods[..|s.methods|] == s.methods;
    }

    /** A type and its constructor. */
    method TypeAndConstructor(s: Service, name: string, typeOwner: Kind, ctor: string, ctorOwner: Kind)
      requires names.Valid()
      modifies this, names
      ensures names.Valid() && out == old(out) + [StructDecl(name), FuncDecl(ctor)]
      ensures names.log == old(names.log) + [Claim(name, Owner(typeOwner, s.fullName, "")), Claim(ctor, Owner(ctorOwner, s.fullName, ""))]
    {
      var r := names.Claim(name, Owner(typeOwner, s.fullName, ""));
      out := out + [StructDecl(r)];
      r := names.Claim(ctor, Owner(ctorOwner, s.fullName, ""));
      out := out + [FuncDecl(r)];
    }

    /** The constructor that supplies a codec, when one is wanted. */
    method ConstructorOn(s: Service, on: string, owner: Kind)
      requires names.Valid()
      modifies this, names
      ensures names.Valid() && out == old(out) + if EmitDefaultCodec(cfg) then [FuncDecl(on)] else []
      ensures names.log == old(names.log) + if EmitDefaultCodec(cfg) then [Claim(on, Owner(owner, s.fullName, ""))] else []
    {
      if EmitDefaultCodec(cfg) {
        var r := names.Claim(on, Owner(owner, s.fullName, ""));
        out := out + [FuncDecl(r)];
      }
    }

    method ClientTypes(s: Service, impl: string)
      requires names.Valid()
      modifies this, names
      ensures names.Valid() && out == old(out) + ImplHead(cfg, s, impl) && names.log == old(names.log) + ImplLog(cfg, s, impl)
    {
      var ctor := "New" + s.goName + "Client";
      TypeAndConstructor(s, impl + "Client", Kind.ClientImpl, ctor, ClientConstructor);
      ConstructorOn(s, ctor + "On", ClientConstructorOn);
    }

    method ClientImpl(s: Service, impl: string)
      requires names.Valid()
      modifies this, names
      ensures names.Valid() && out == old(out) + ImplDecls(cfg, s, impl) && names.log == old(names.log) + ImplLog(cfg, s, impl)
    {
      ClientTypes(s, impl);
      Face(s, impl + "Client", ClientEntry);
      Chain(old(out), ImplHead(cfg, s, impl), FaceMethods(cfg, s, impl + "Client", ClientEntry, s.methods));
    }

    method Caller(s: Service)
      requires names.Valid() && cfg.callers
      modifies this, names
      ensures names.Valid() && out == old(out) + CallerDecls(cfg, s) && names.log == old(names.log) + CallerLog(cfg, s)
    {
      var name := CallerTypes(s);
      out := out + [MethodDecl(name, CONFIG, None)];
      Face(s, name, CallerEntry);
      Chain(old(out), CallerHead(cfg, s), [MethodDecl(name, CONFIG, None)]);
      Chain(old(out), CallerHead(cfg, s) + [MethodDecl(name, CONFIG, None)], FaceMethods(cfg, s, name, CallerEntry, s.methods));
    }

    method CallerTypes(s: Service) returns (name: string)
      requires names.Valid() && cfg.callers
      modifies this, names
      ensures names.Valid() && name == s.goName + "Caller"
      ensures out == old(out) + CallerHead(cfg, s) && names.log == old(names.log) + CallerLog(cfg, s)
    {
      name := s.goName + "Caller";
      var ctor := "New" + name;
      TypeAndConstructor(s, name, CallerStruct, ctor, CallerConstructor);
      ConstructorOn(s, ctor + "On", CallerConstructorOn);
    }

    method EmitService(s: Service)
      requires names.Valid()
      modifies this, names
      ensures names.Valid() && out == old(out) + ServiceDecls(cfg, lower, s)
      ensures names.log == old(names.log) + ServiceLog(cfg, lower, s)
    {
      var impl := Unexport(lower, s.goName);
      if impl.None? {
        names.Refuse(s.fullName);
        return;
      }
      Front(s);
      Faces(s, impl.value);
      Chain(old(out), FrontDecls(cfg, s), FacesDecls(cfg, s, impl.value));
      Chain(old(names.log), FrontLog(cfg, s), FacesLog(cfg, s, impl.value));
    }

    method Front(s: Service)
      requires names.Valid()
      modifies this, names
      ensures names.Valid() && out == old(out) + FrontDecls(cfg, s) && names.log == old(names.log) + FrontLog(cfg, s)
    {
      MethodConsts(s);
      StreamAliases(s);
      Chain(old(out), ConstDecls(cfg, s), AliasDecls(s, s.methods));
      Chain(old(names.log), ConstLog(cfg, s), AliasLog(s, s.methods));
      ClientInterface(s);
      Chain(old(out), ConstDecls(cfg, s) + AliasDecls(s, s.methods), InterfaceDecls(cfg, s));
      Chain(old(names.log), ConstLog(cfg, s) + AliasLog(s, s.methods), InterfaceLog(cfg, s));
    }

    method Faces(s: Service, impl: string)
      requires names.Valid()
      modifies this, names
      ensures names.Valid() && out == old(out) + FacesDecls(cfg, s, impl) && names.log == old(names.log) + FacesLog(cfg, s, impl)
    {
      ClientImpl(s, impl);
      if cfg.callers {
        Caller(s);
      }
      Chain(old(out), ImplDecls(cfg, s, impl), CallerDecls(cfg, s));
      Chain(old(names.log), ImplLog(cfg, s, impl), CallerLog(cfg, s));
    }
  }
}
