/** One service never collides with itself: whatever its name and whatever its
methods are called, all identifiers claimed for it differ. */
module GenSelf {
  import opened GenNames
  import opened GenEmit
  import opened GenScope

  // ----- Sequences of distinct names

  ghost predicate Apart(a: seq<string>, b: seq<string>)
  {
    forall x, y :: x in a && y in b ==> x != y
  }

  lemma DistinctConcat(a: seq<string>, b: seq<string>)
    requires Distinct(a) && Distinct(b) && Apart(a, b)
    ensures Distinct(a + b)
  {
    var c := a + b;
    forall i, j | 0 <= i < j < |c| ensures c[i] != c[j] {
      if i < |a| <= j {
        assert c[i] in a && c[j] in b;
      }
    }
  }

  lemma ApartConcat(a: seq<string>, b: seq<string>, c: seq<string>)
    requires Apart(a, c) && Apart(b, c)
    ensures Apart(a + b, c) && Apart(c, a + b)
  {
  }

  function Last(s: string): (c: char)
    requires s != ""
  {
    s[|s| - 1]
  }

  // ----- Underscores

  /** How many underscores a name has. */
  function Underscores(s: string): nat
  {
    if s == "" then 0 else Underscores(s[1..]) + if s[0] == '_' then 1 else 0
  }

  lemma {:induction false} UnderscoresSplit(a: string, b: string)
    ensures Underscores(a + b) == Underscores(a) + Underscores(b)
    decreases |a|
  {
    if a == "" {
      assert a + b == b;
    } else {
      assert (a + b)[1..] == a[1..] + b;
      UnderscoresSplit(a[1..], b);
    }
  }

  /** A stream alias is never the client constructor: the two would have to have
      as many underscores, but the alias has one more than the service name. */
  lemma AliasIsNotConstructor(s: Service, m: Method)
    ensures AliasName(s, m) != "New" + s.goName + "Client"
  {
    UnderscoresSplit(s.goName + "_" + m.goName, "Client");
    UnderscoresSplit(s.goName + "_", m.goName);
    UnderscoresSplit(s.goName, "_");
    UnderscoresSplit("New" + s.goName, "Client");
    UnderscoresSplit("New", s.goName);
    assert Underscores("_") == 1;
    NoUnderscoreInNew();
  }

  lemma NoUnderscoreInNew()
    ensures Underscores("New") == 0
  {
    assert "New"[1..] == "ew" && "ew"[1..] == "w" && "w"[1..] == "";
  }

  // ----- Constants and aliases

  lemma Cancel(p: string, x: string, y: string, q: string)
    requires p + x + q == p + y + q
    ensures x == y
  {
    assert |x| == |y|;
    forall i | 0 <= i < |x| ensures x[i] == y[i] {
      assert (p + x + q)[|p| + i] == x[i] && (p + y + q)[|p| + i] == y[i];
    }
  }

  ghost predicate AreNames(names: seq<string>, s: Service, ms: seq<Method>, name: (Service, Method) -> string)
  {
    forall x :: x in names ==> exists i :: 0 <= i < |ms| && x == name(s, ms[i])
  }

  lemma AreNamesGrow(names: seq<string>, s: Service, ms: seq<Method>, name: (Service, Method) -> string)
    requires ms != [] && AreNames(names, s, ms[..|ms| - 1], name)
    ensures AreNames(names, s, ms, name)
    ensures AreNames(names + [name(s, ms[|ms| - 1])], s, ms, name)
  {
    var rest := ms[..|ms| - 1];
    forall x | x in names ensures exists i :: 0 <= i < |ms| && x == name(s, ms[i]) {
      var i :| 0 <= i < |rest| && x == name(s, rest[i]);
      assert ms[i] == rest[i];
    }
  }

  /** A new method's name is not among those of the methods before it. */
  lemma LastIsNew(names: seq<string>, s: Service, ms: seq<Method>, name: (Service, Method) -> string)
    requires ms != [] && Distinct(GoNames(ms)) && AreNames(names, s, ms[..|ms| - 1], name)
    requires forall a: Method, b: Method :: name(s, a) == name(s, b) ==> a.goName == b.goName
    ensures name(s, ms[|ms| - 1]) !in names
  {
    var n := |ms| - 1;
    forall i | 0 <= i < n ensures name(s, ms[n]) != name(s, ms[..n][i]) {
      assert GoNames(ms)[i] != GoNames(ms)[n];
    }
  }

  lemma DistinctPrefix(ms: seq<Method>)
    requires ms != [] && Distinct(GoNames(ms))
    ensures Distinct(GoNames(ms[..|ms| - 1]))
  {
    var rest := ms[..|ms| - 1];
    assert GoNames(ms) == GoNames(rest) + [ms[|ms| - 1].goName];
    DistinctAppend(GoNames(rest), ms[|ms| - 1].goName);
  }

  lemma ConstNameInjective(s: Service)
    ensures forall a: Method, b: Method :: ConstName(s, a) == ConstName(s, b) ==> a.goName == b.goName
  {
    forall a: Method, b: Method | ConstName(s, a) == ConstName(s, b) ensures a.goName == b.goName {
      Cancel(s.goName + "_", a.goName, b.goName, "_FullMethodName");
    }
  }

  lemma AliasNameInjective(s: Service)
    ensures forall a: Method, b: Method :: AliasName(s, a) == AliasName(s, b) ==> a.goName == b.goName
  {
    forall a: Method, b: Method | AliasName(s, a) == AliasName(s, b) ensures a.goName == b.goName {
      Cancel(s.goName + "_", a.goName, b.goName, "Client");
    }
  }

  lemma {:induction false} ConstsDistinct(s: Service, ms: seq<Method>)
    requires Distinct(GoNames(ms))
    ensures Distinct(Names(MethodConstLog(s, ms))) && AreNames(Names(MethodConstLog(s, ms)), s, ms, ConstName)
  {
    if ms != [] {
      var rest, m := ms[..|ms| - 1], ms[|ms| - 1];
      var names := Names(MethodConstLog(s, rest));
      DistinctPrefix(ms);
      ConstsDistinct(s, rest);
      LogSplits(MethodConstLog(s, rest), [Claim(ConstName(s, m), Owner(FullMethodName, s.fullName, m.name))]);
      OneClaimed(ConstName(s, m), Owner(FullMethodName, s.fullName, m.name));
      ConstNameInjective(s);
      LastIsNew(names, s, ms, ConstName);
      DistinctAppend(names, ConstName(s, m));
      AreNamesGrow(names, s, ms, ConstName);
    }
  }

  lemma {:induction false} AliasesDistinct(s: Service, ms: seq<Method>)
    requires Distinct(GoNames(ms))
    ensures Distinct(Names(AliasLog(s, ms))) && AreNames(Names(AliasLog(s, ms)), s, ms, AliasName)
  {
    if ms != [] {
      var rest, m := ms[..|ms| - 1], ms[|ms| - 1];
      var names := Names(AliasLog(s, rest));
      DistinctPrefix(ms);
      AliasesDistinct(s, rest);
      LogSplits(AliasLog(s, rest), [Claim(AliasName(s, m), Owner(StreamAlias, s.fullName, m.name))]);
      OneClaimed(AliasName(s, m), Owner(StreamAlias, s.fullName, m.name));
      AliasNameInjective(s);
      LastIsNew(names, s, ms, AliasName);
      DistinctAppend(names, AliasName(s, m));
      AreNamesGrow(names, s, ms, AliasName);
    }
  }

  // ----- The fixed names

  lemma Endings(s: Service, m: Method, impl: string)
    ensures Last(ConstName(s, m)) == 'e' && Last(AliasName(s, m)) == 't'
    ensures Last(s.goName + "Client") == 't' && Last(impl + "Client") == 't' && Last("New" + s.goName + "Client") == 't'
    ensures Last("New" + s.goName + "Client" + "On") == 'n' && Last("New" + (s.goName + "Caller") + "On") == 'n'
    ensures Last(s.goName + "Caller") == 'r' && Last("New" + (s.goName + "Caller")) == 'r'
  {
  }

  lemma OnDiffers(s: Service)
    ensures "New" + s.goName + "Client" + "On" != "New" + (s.goName + "Caller") + "On"
  {
    var k := 3 + |s.goName| + 1;
    assert ("New" + s.goName + "Client" + "On")[k] == 'l';
    assert ("New" + (s.goName + "Caller") + "On")[k] == 'a';
  }

  lemma ImplDistinct(cfg: Config, s: Service, impl: string)
    requires |impl| == |s.goName|
    ensures Distinct(ImplNames(cfg, s, impl))
  {
    Endings(s, Method("", "", false, false), impl);
    assert |impl + "Client"| < |"New" + s.goName + "Client"|;
  }

  lemma CallerDistinct(cfg: Config, s: Service)
    ensures Distinct(CallerNames(cfg, s))
  {
    Endings(s, Method("", "", false, false), "");
    assert |s.goName + "Caller"| < |"New" + (s.goName + "Caller")|;
  }

  lemma FacesApart(cfg: Config, s: Service, impl: string)
    ensures Apart(ImplNames(cfg, s, impl), CallerNames(cfg, s))
  {
    Endings(s, Method("", "", false, false), impl);
    OnDiffers(s);
  }

  lemma InterfaceApart(cfg: Config, s: Service, impl: string)
    requires |impl| == |s.goName| > 0 && impl[0] != s.goName[0]
    ensures Apart(InterfaceNames(cfg, s), ImplNames(cfg, s, impl)) && Apart(InterfaceNames(cfg, s), CallerNames(cfg, s))
  {
    Endings(s, Method("", "", false, false), impl);
    assert (s.goName + "Client")[0] == s.goName[0] && (impl + "Client")[0] == impl[0];
    assert |s.goName + "Client"| < |"New" + s.goName + "Client"|;
  }

  lemma AliasApart(cfg: Config, s: Service, impl: string, m: Method)
    requires |impl| == |s.goName|
    ensures AliasName(s, m) !in InterfaceNames(cfg, s) && AliasName(s, m) !in ImplNames(cfg, s, impl) && AliasName(s, m) !in CallerNames(cfg, s)
  {
    Endings(s, m, impl);
    AliasIsNotConstructor(s, m);
    assert |AliasName(s, m)| > |s.goName + "Client"| == |impl + "Client"|;
  }

  lemma ConstApart(cfg: Config, s: Service, impl: string, m: Method)
    ensures ConstName(s, m) !in InterfaceNames(cfg, s) && ConstName(s, m) !in ImplNames(cfg, s, impl) && ConstName(s, m) !in CallerNames(cfg, s)
  {
    Endings(s, m, impl);
  }

  // ----- Together

  lemma TailDistinct(cfg: Config, s: Service, impl: string)
    requires |impl| == |s.goName| > 0 && impl[0] != s.goName[0]
    ensures Distinct(InterfaceNames(cfg, s) + (ImplNames(cfg, s, impl) + CallerNames(cfg, s)))
  {
    var i, p, c := InterfaceNames(cfg, s), ImplNames(cfg, s, impl), CallerNames(cfg, s);
    ImplDistinct(cfg, s, impl);
    CallerDistinct(cfg, s);
    FacesApart(cfg, s, impl);
    DistinctConcat(p, c);
    InterfaceApart(cfg, s, impl);
    ApartConcat(p, c, i);
    DistinctConcat(i, p + c);
  }

  lemma MethodsApart(cfg: Config, s: Service, impl: string)
    requires |impl| == |s.goName| && Distinct(GoNames(s.methods))
    ensures var tail := InterfaceNames(cfg, s) + (ImplNames(cfg, s, impl) + CallerNames(cfg, s));
      Apart(ConstNames(cfg, s), tail) && Apart(AliasNames(s), tail) && Apart(ConstNames(cfg, s), AliasNames(s))
  {
    ConstsDistinct(s, s.methods);
    AliasesDistinct(s, s.methods);
    forall m: Method ensures AliasName(s, m) !in InterfaceNames(cfg, s) + (ImplNames(cfg, s, impl) + CallerNames(cfg, s)) {
      AliasApart(cfg, s, impl, m);
    }
    forall m: Method ensures ConstName(s, m) !in InterfaceNames(cfg, s) + (ImplNames(cfg, s, impl) + CallerNames(cfg, s)) {
      ConstApart(cfg, s, impl, m);
    }
    forall a: Method, b: Method ensures ConstName(s, a) != AliasName(s, b) {
      Endings(s, a, impl);
      Endings(s, b, impl);
    }
  }

  lemma FourDistinct(c: seq<string>, a: seq<string>, i: seq<string>, r: seq<string>)
    requires Distinct(c) && Distinct(a) && Distinct(i + r) && Apart(c, i + r) && Apart(a, i + r) && Apart(c, a)
    ensures Distinct(c + a + i + r)
  {
    DistinctConcat(c, a);
    ApartConcat(c, a, i + r);
    DistinctConcat(c + a, i + r);
    assert c + a + i + r == c + a + (i + r);
  }

  /** A service whose methods have distinct Go names, and whose name can be
      unexported, claims pairwise distinct identifiers. */
  lemma ServiceNeverCollides(cfg: Config, lower: char -> char, s: Service)
    requires Distinct(GoNames(s.methods)) && Unexport(lower, s.goName).Some?
    ensures Distinct(Names(ServiceLog(cfg, lower, s)))
  {
    var impl := Unexport(lower, s.goName).value;
    DeclaredIsClaimed(cfg, lower, s);
    TailDistinct(cfg, s, impl);
    MethodsApart(cfg, s, impl);
    ConstsDistinct(s, s.methods);
    AliasesDistinct(s, s.methods);
    FourDistinct(ConstNames(cfg, s), AliasNames(s), InterfaceNames(cfg, s), ImplNames(cfg, s, impl) + CallerNames(cfg, s));
  }
}
