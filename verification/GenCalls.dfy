/** What each generated body calls: the entry point its streaming flags ask for, with
the path its descriptor names make up. */
module GenCalls {
  import opened Errors
  import opened GenNames
  import opened GenEmit
  import opened GenScope
  import opened GenSelf
  import opened GenRun
  import opened GenMeaning
  import opened Collecting

  // ----- Entry points

  /** The entry point of the client face that fits these flags. */
  predicate ClientFits(e: Entry, clientStreams: bool, serverStreams: bool)
  {
    && (e == UnaryOpts <==> !clientStreams && !serverStreams)
    && (e == NewServerStreamOpts <==> !clientStreams && serverStreams)
    && (e == NewClientStreamOpts <==> clientStreams && !serverStreams)
    && (e == NewBidiStreamOpts <==> clientStreams && serverStreams)
  }

  /** The same for the Caller. */
  predicate CallerFits(e: Entry, clientStreams: bool, serverStreams: bool)
  {
    && (e == Unary <==> !clientStreams && !serverStreams)
    && (e == NewServerStream <==> !clientStreams && serverStreams)
    && (e == NewClientStream <==> clientStreams && !serverStreams)
    && (e == NewBidiStream <==> clientStreams && serverStreams)
  }

  lemma EntriesFit(m: Method)
    ensures ClientFits(ClientEntry(m), m.clientStreams, m.serverStreams)
    ensures CallerFits(CallerEntry(m), m.clientStreams, m.serverStreams)
  {
  }

  /** A body in the package: on this receiver, under this name, one call. */
  ghost predicate Body(pkg: seq<Decl>, recv: string, rpc: string, e: Entry, path: string)
  {
    exists ref :: MethodDecl(recv, rpc, Some(Call(e, ref))) in pkg && RefDenotes(pkg, ref, path)
  }

  lemma FaceIn(cfg: Config, s: Service, recv: string, entry: Method -> Entry, i: nat)
    requires i < |s.methods|
    ensures var m := s.methods[i];
      MethodDecl(recv, m.goName, Some(Call(entry(m), MethodRef(cfg, s, m)))) in FaceMethods(cfg, s, recv, entry, s.methods)
  {
    FaceIsMethods(cfg, s, recv, entry, s.methods);
  }

  lemma ClientIn(cfg: Config, lower: char -> char, s: Service, i: nat)
    requires i < |s.methods| && Unexport(lower, s.goName).Some?
    ensures var m := s.methods[i];
      MethodDecl(Unexport(lower, s.goName).value + "Client", m.goName, Some(Call(ClientEntry(m), MethodRef(cfg, s, m)))) in ServiceDecls(cfg, lower, s)
  {
    var impl := Unexport(lower, s.goName).value;
    FaceIn(cfg, s, impl + "Client", ClientEntry, i);
    InEither(ImplHead(cfg, s, impl), FaceMethods(cfg, s, impl + "Client", ClientEntry, s.methods), []);
    InEither(FrontDecls(cfg, s), ImplDecls(cfg, s, impl), CallerDecls(cfg, s));
  }

  lemma CallerIn(cfg: Config, lower: char -> char, s: Service, i: nat)
    requires i < |s.methods| && Unexport(lower, s.goName).Some? && cfg.callers
    ensures var m := s.methods[i];
      MethodDecl(s.goName + "Caller", m.goName, Some(Call(CallerEntry(m), MethodRef(cfg, s, m)))) in ServiceDecls(cfg, lower, s)
  {
    var impl := Unexport(lower, s.goName).value;
    FaceIn(cfg, s, s.goName + "Caller", CallerEntry, i);
    InEither(CallerHead(cfg, s) + [MethodDecl(s.goName + "Caller", CONFIG, None)],
             FaceMethods(cfg, s, s.goName + "Caller", CallerEntry, s.methods), []);
    InEither(FrontDecls(cfg, s) + ImplDecls(cfg, s, impl), CallerDecls(cfg, s), []);
    Chain(FrontDecls(cfg, s), ImplDecls(cfg, s, impl), CallerDecls(cfg, s));
  }

  lemma InEither(a: seq<Decl>, b: seq<Decl>, c: seq<Decl>)
    ensures forall d :: d in b ==> d in a + b && d in a + (b + c)
  {
  }

  lemma InDir(cfg: Config, env: Env, files: seq<File>, k: nat, n: nat, d: Decl)
    requires k < |files| && Selected(files[k]) && n < |files[k].services| && d in ServiceDecls(cfg, env.lower, files[k].services[n])
    ensures d in DirDecls(cfg, env, files, OutDir(env, cfg, files[k]))
  {
    ServiceInFile(cfg, env, files[k].services, n, d);
    FileInDir(cfg, env, files, k, d);
  }

  /** After a successful run every rpc has, on the client implementation and on the
      Caller, a body that calls the entry point for its streaming flags with the
      path "/" service "/" method of its descriptor. */
  lemma BodiesCall(cfg: Config, env: Env, files: seq<File>, k: nat, n: nat, i: nat)
    requires RunOk(cfg, env, files) && k < |files| && Selected(files[k]) && n < |files[k].services| && i < |files[k].services[n].methods|
    ensures var (s, m, pkg) := (files[k].services[n], files[k].services[n].methods[i], DirDecls(cfg, env, files, OutDir(env, cfg, files[k])));
      var path := "/" + s.fullName + "/" + m.name;
      && Unexport(env.lower, s.goName).Some?
      && (exists e :: ClientFits(e, m.clientStreams, m.serverStreams) && Body(pkg, Unexport(env.lower, s.goName).value + "Client", m.goName, e, path))
      && (cfg.callers ==> exists e :: CallerFits(e, m.clientStreams, m.serverStreams) && Body(pkg, s.goName + "Caller", m.goName, e, path))
  {
    var s, m := files[k].services[n], files[k].services[n].methods[i];
    var pkg, path := DirDecls(cfg, env, files, OutDir(env, cfg, files[k])), "/" + s.fullName + "/" + m.name;
    assert LowerOk(env, s);
    var client := MethodDecl(Unexport(env.lower, s.goName).value + "Client", m.goName, Some(Call(ClientEntry(m), MethodRef(cfg, s, m))));
    RefsDenotePaths(cfg, env, files, k, n, i, path);
    EntriesFit(m);
    ClientIn(cfg, env.lower, s, i);
    InDir(cfg, env, files, k, n, client);
    assert Body(pkg, client.recv, m.goName, ClientEntry(m), path);
    if cfg.callers {
      CallerIn(cfg, env.lower, s, i);
      InDir(cfg, env, files, k, n, MethodDecl(s.goName + "Caller", m.goName, Some(Call(CallerEntry(m), MethodRef(cfg, s, m)))));
      assert Body(pkg, s.goName + "Caller", m.goName, CallerEntry(m), path);
    }
  }

  // ----- Paths

  predicate NoSlash(s: string)
  {
    forall i :: 0 <= i < |s| ==> s[i] != '/'
  }

  lemma LastSlash(a: string, b: string, c: string, d: string)
    requires a + "/" + b == c + "/" + d && NoSlash(b) && NoSlash(d)
    ensures a == c && b == d
  {
    var x := a + "/" + b;
    assert x[|a|] == '/' && x[|c|] == '/';
    assert forall i :: |a| < i < |x| ==> x[i] == b[i - |a| - 1] && x[i] != '/';
    assert forall i :: |c| < i < |x| ==> x[i] == d[i - |c| - 1] && x[i] != '/';
    assert a == x[..|a|] && c == x[..|c|] && b == x[|a| + 1..] && d == x[|c| + 1..];
  }

  /** Two methods have one path only if service and method have the same names. */
  lemma PathsDiffer(s: Service, m: Method, s': Service, m': Method)
    requires NoSlash(m.name) && NoSlash(m'.name) && FullMethod(s, m) == FullMethod(s', m')
    ensures s.fullName == s'.fullName && m.name == m'.name
  {
    LastSlash("/" + s.fullName, m.name, "/" + s'.fullName, m'.name);
    assert ("/" + s.fullName)[1..] == s.fullName && ("/" + s'.fullName)[1..] == s'.fullName;
  }

  // ----- Aliases and the interface

  /** A method has a stream alias exactly if one of its sides streams. */
  lemma {:induction false} AliasIffStreams(s: Service, ms: seq<Method>, i: nat)
    requires i < |ms| && Distinct(GoNames(ms))
    ensures AliasDecl(s.goName + "_" + ms[i].goName + "Client") in AliasDecls(s, ms) <==> ms[i].clientStreams || ms[i].serverStreams
    decreases |ms|
  {
    var n := |ms| - 1;
    var rest := ms[..n];
    AliasNameInjective(s);
    DistinctPrefix(ms);
    if i < n {
      assert GoNames(ms)[i] != GoNames(ms)[n];
      AliasIffStreams(s, rest, i);
    } else {
      AliasOfSome(s, rest);
      forall k | 0 <= k < n ensures rest[k].goName != ms[n].goName {
        assert GoNames(ms)[k] != GoNames(ms)[n];
      }
    }
  }

  /** Every alias belongs to one of the methods. */
  lemma {:induction false} AliasOfSome(s: Service, ms: seq<Method>)
    ensures forall d :: d in AliasDecls(s, ms) ==> exists k :: 0 <= k < |ms| && d == AliasDecl(AliasName(s, ms[k]))
    decreases |ms|
  {
    if ms != [] {
      var n := |ms| - 1;
      AliasOfSome(s, ms[..n]);
      forall d | d in AliasDecls(s, ms) ensures exists k :: 0 <= k < |ms| && d == AliasDecl(AliasName(s, ms[k])) {
        if d in AliasDecls(s, ms[..n]) {
          var k :| 0 <= k < n && d == AliasDecl(AliasName(s, ms[..n][k]));
          assert d == AliasDecl(AliasName(s, ms[k]));
        } else {
          assert d == AliasDecl(AliasName(s, ms[n]));
        }
      }
    }
  }

  /** The interface asks for exactly the methods the implementation has. */
  lemma InterfaceIsImplemented(cfg: Config, lower: char -> char, s: Service)
    requires Unexport(lower, s.goName).Some? && cfg.interfaces
    ensures var decls := ServiceDecls(cfg, lower, s);
      InterfaceDecl(s.goName + "Client", MethodsOn(decls, Unexport(lower, s.goName).value + "Client")) in decls
  {
    var impl := Unexport(lower, s.goName).value;
    OnService(cfg, lower, s, impl + "Client");
    var d := InterfaceDecl(s.goName + "Client", GoNames(s.methods));
    assert d in InterfaceDecls(cfg, s);
    InEither(ConstDecls(cfg, s) + AliasDecls(s, s.methods), InterfaceDecls(cfg, s), FacesDecls(cfg, s, impl));
    Chain(ConstDecls(cfg, s) + AliasDecls(s, s.methods), InterfaceDecls(cfg, s), FacesDecls(cfg, s, impl));
  }

  // ----- Files that were only imported

  function IfRequested(f: File): seq<File>
  {
    if f.generate then [f] else []
  }

  /** The files that were asked for. */
  function Requested(files: seq<File>): seq<File>
  {
    Collect(IfRequested, files)
  }

  lemma {:induction false} RequestedDecls(cfg: Config, env: Env, files: seq<File>, d: string)
    ensures DirDecls(cfg, env, Requested(files), d) == DirDecls(cfg, env, files, d)
    decreases |files|
  {
    if files != [] {
      var rest, f := files[..|files| - 1], files[|files| - 1];
      RequestedDecls(cfg, env, rest, d);
      DirStep(cfg, env, files, d);
      if f.generate {
        assert Requested(files) == Requested(rest) + [f];
        assert (Requested(rest) + [f])[..|Requested(rest)|] == Requested(rest);
        DirStep(cfg, env, Requested(files), d);
      } else {
        assert Requested(files) == Requested(rest);
      }
    }
  }

  lemma {:induction false} RequestedMembers(files: seq<File>)
    ensures forall f :: f in Requested(files) <==> f in files && f.generate
    decreases |files|
  {
    if files != [] {
      var rest, last := files[..|files| - 1], files[|files| - 1];
      RequestedMembers(rest);
      assert files == rest + [last];
    }
  }

  /** Imported files change neither the verdict nor what is declared. */
  lemma ImportsAreIgnored(cfg: Config, env: Env, files: seq<File>)
    ensures RunOk(cfg, env, files) <==> RunOk(cfg, env, Requested(files))
  {
    RequestedMembers(files);
    forall i | 0 <= i < |files| && files[i].generate ensures files[i] in Requested(files) {
    }
    forall i | 0 <= i < |Requested(files)| ensures Requested(files)[i] in files {
    }
    forall d ensures Declared(DirDecls(cfg, env, Requested(files), d)) == Declared(DirDecls(cfg, env, files, d)) {
      RequestedDecls(cfg, env, files, d);
    }
  }

  // ----- The names themselves

  lemma {:induction false} ConstsAt(s: Service, ms: seq<Method>, i: nat)
    requires i < |ms|
    ensures |MethodConstDecls(s, ms)| == |ms|
    ensures MethodConstDecls(s, ms)[i].ConstDecl? && MethodConstDecls(s, ms)[i].name == s.goName + "_" + ms[i].goName + "_FullMethodName"
    decreases |ms|
  {
    if i < |ms| - 1 {
      ConstsAt(s, ms[..|ms| - 1], i);
    } else if |ms| > 1 {
      ConstsAt(s, ms[..|ms| - 1], 0);
    }
  }

  lemma Spelled(s: Service)
    ensures "New" + s.goName + "Client" + "On" == "New" + s.goName + "ClientOn"
    ensures "New" + (s.goName + "Caller") == "New" + s.goName + "Caller"
    ensures "New" + (s.goName + "Caller") + "On" == "New" + s.goName + "CallerOn"
  {
    assert "Client" + "On" == "ClientOn" && "Caller" + "On" == "CallerOn";
  }

  /** Besides constants and aliases, a service declares its interface, its
      implementation with one or two constructors, and its Caller with as many. */
  lemma OwnNames(cfg: Config, s: Service, impl: string)
    ensures InterfaceNames(cfg, s) == if cfg.interfaces then [s.goName + "Client"] else []
    ensures ImplNames(cfg, s, impl) ==
      [impl + "Client", "New" + s.goName + "Client"] +
      if cfg.defaultCodec == "protocodec" then ["New" + s.goName + "ClientOn"] else []
    ensures CallerNames(cfg, s) ==
      if !cfg.callers then []
      else [s.goName + "Caller", "New" + s.goName + "Caller"] +
           if cfg.defaultCodec == "protocodec" then ["New" + s.goName + "CallerOn"] else []
  {
    Spelled(s);
  }

  /** Every Caller has a method that hands out its configuration. */
  lemma CallerHasConfig(cfg: Config, lower: char -> char, s: Service)
    requires Unexport(lower, s.goName).Some? && cfg.callers
    ensures MethodDecl(s.goName + "Caller", "Config", None) in ServiceDecls(cfg, lower, s)
  {
    var impl := Unexport(lower, s.goName).value;
    var config := [MethodDecl(s.goName + "Caller", CONFIG, None)];
    assert config[0] in config;
    InEither(CallerHead(cfg, s), config, FaceMethods(cfg, s, s.goName + "Caller", CallerEntry, s.methods));
    Chain(CallerHead(cfg, s), config, FaceMethods(cfg, s, s.goName + "Caller", CallerEntry, s.methods));
    InEither(FrontDecls(cfg, s) + ImplDecls(cfg, s, impl), CallerDecls(cfg, s), []);
    Chain(FrontDecls(cfg, s), ImplDecls(cfg, s, impl), CallerDecls(cfg, s));
  }

  // ----- Directories and options

  /** Two files meet in one package exactly if they lie in one directory, whatever
      their names, provided that joining a suffix keeps directories apart. */
  lemma SamePackageIff(env: Env, cfg: Config, f: File, g: File)
    requires forall a, b :: env.join(a, cfg.packageSuffix) == env.join(b, cfg.packageSuffix) ==> a == b
    ensures OutDir(env, cfg, f) == OutDir(env, cfg, g) <==> DirPart(f.prefix) == DirPart(g.prefix)
  {
  }

  /** What Validate refuses, and that it refuses nothing else. */
  lemma ConfigOkIff(env: Env, cfg: Config)
    ensures !cfg.separatePackage || cfg.runtimeImport == "" || cfg.packageSuffix == "" || cfg.packageSuffix in KEYWORDS ==> !ConfigOk(env, cfg)
    ensures cfg.defaultCodec != "protocodec" && cfg.defaultCodec != "none" ==> !ConfigOk(env, cfg)
    ensures cfg.packageSuffix != "" && env.digit(cfg.packageSuffix[0]) && !env.letter(cfg.packageSuffix[0]) && cfg.packageSuffix[0] != '_' ==>
      !ConfigOk(env, cfg)
    ensures ConfigOk(env, cfg) ==> forall i :: 0 <= i < |cfg.packageSuffix| ==>
      env.letter(cfg.packageSuffix[i]) || cfg.packageSuffix[i] == '_' || env.digit(cfg.packageSuffix[i])
    ensures
      (&& cfg.separatePackage && cfg.runtimeImport != "" && (cfg.defaultCodec == "protocodec" || cfg.defaultCodec == "none")
       && cfg.packageSuffix != "" && cfg.packageSuffix !in KEYWORDS
       && forall i :: 0 <= i < |cfg.packageSuffix| ==> env.letter(cfg.packageSuffix[i])) ==> ConfigOk(env, cfg)
  {
  }
}
