/** The generator's name discipline: which identifiers have been claimed in one
output package, and which services cannot be generated at all. */
module GenNames {
  import opened Errors
  import opened Collecting

  datatype Method = Method(goName: string, name: string, clientStreams: bool, serverStreams: bool)

  datatype Service = Service(goName: string, fullName: string, methods: seq<Method>)

  datatype Kind =
    | FullMethodName | StreamAlias | ClientInterface | ClientImpl | ClientConstructor | ClientConstructorOn
    | CallerStruct | CallerConstructor | CallerConstructorOn

  /** Who claims a name, for the message. */
  datatype Owner = Owner(kind: Kind, service: string, rpc: string)

  /** What happens to a nameset: a claim, or a service whose name has no lower case. */
  datatype Event = Claim(name: string, owner: Owner) | NoLowerCase(service: string)

  datatype Conflict = Taken(name: string, prev: Owner, owner: Owner) | Unlowerable(service: string)

  predicate Distinct(names: seq<string>)
  {
    forall i, j :: 0 <= i < j < |names| ==> names[i] != names[j]
  }

  // ----- What a log of events leads to

  function Owners(log: seq<Event>): map<string, Owner>
  {
    if log == [] then map[]
    else
      var m, e := Owners(log[..|log| - 1]), log[|log| - 1];
      if e.Claim? && e.name !in m then m[e.name := e.owner] else m
  }

  function Conflicts(log: seq<Event>): seq<Conflict>
  {
    if log == [] then []
    else
      var rest, e := log[..|log| - 1], log[|log| - 1];
      Conflicts(rest) +
      match e
      case Claim(name, owner) => if name in Owners(rest) then [Taken(name, Owners(rest)[name], owner)] else []
      case NoLowerCase(service) => [Unlowerable(service)]
  }

  function ClaimedBy(e: Event): seq<string>
  {
    if e.Claim? then [e.name] else []
  }

  function RefusedBy(e: Event): seq<string>
  {
    if e.NoLowerCase? then [e.service] else []
  }

  /** The claimed names, in order. */
  function Names(log: seq<Event>): seq<string>
  {
    Collect(ClaimedBy, log)
  }

  /** How many services could not be lowered. */
  function Unlowered(log: seq<Event>): nat
  {
    |Collect(RefusedBy, log)|
  }

  function Elements(names: seq<string>): set<string>
  {
    set x | x in names
  }

  lemma {:induction false} OwnersAreNames(log: seq<Event>)
    ensures Owners(log).Keys == Elements(Names(log))
  {
    if log != [] {
      OwnersAreNames(log[..|log| - 1]);
    }
  }

  /** The recorded owner of a name is the first one to claim it. */
  lemma {:induction false} OwnerIsFirst(log: seq<Event>, i: nat)
    requires i < |log| && log[i].Claim? && forall j :: 0 <= j < i && log[j].Claim? ==> log[j].name != log[i].name
    ensures log[i].name in Owners(log) && Owners(log)[log[i].name] == log[i].owner
    decreases |log|
  {
    var rest := log[..|log| - 1];
    if i < |rest| {
      OwnerIsFirst(rest, i);
    } else {
      OwnersAreNames(rest);
      NamesAreClaims(rest, log[i].name);
    }
  }

  lemma {:induction false} NamesAreClaims(log: seq<Event>, name: string)
    requires forall j :: 0 <= j < |log| && log[j].Claim? ==> log[j].name != name
    ensures name !in Names(log)
  {
    if log != [] {
      NamesAreClaims(log[..|log| - 1], name);
    }
  }

  /** A reported conflict names the first claimant and a later one. */
  lemma {:induction false} ConflictNamesBoth(log: seq<Event>, c: Conflict) returns (i: nat, j: nat)
    requires c in Conflicts(log) && c.Taken?
    ensures i < j < |log| && log[i] == Claim(c.name, c.prev) && log[j] == Claim(c.name, c.owner)
    ensures forall k :: 0 <= k < i && log[k].Claim? ==> log[k].name != c.name
    decreases |log|
  {
    var n := |log| - 1;
    if c in Conflicts(log[..n]) {
      i, j := ConflictNamesBoth(log[..n], c);
    } else {
      j := n;
      i := FirstClaim(log[..n], c.name);
      OwnerIsFirst(log[..n], i);
    }
  }

  lemma {:induction false} FirstClaim(log: seq<Event>, name: string) returns (i: nat)
    requires name in Owners(log)
    ensures i < |log| && log[i].Claim? && log[i].name == name
    ensures forall k :: 0 <= k < i && log[k].Claim? ==> log[k].name != name
    decreases |log|
  {
    var n := |log| - 1;
    if name in Owners(log[..n]) {
      i := FirstClaim(log[..n], name);
    } else {
      i := n;
      forall k | 0 <= k < n && log[k].Claim? ensures log[k].name != name {
        ClaimedIsOwned(log[..n], k);
      }
    }
  }

  lemma {:induction false} ClaimedIsOwned(log: seq<Event>, k: nat)
    requires k < |log| && log[k].Claim?
    ensures log[k].name in Owners(log)
    decreases |log|
  {
    if k < |log| - 1 {
      ClaimedIsOwned(log[..|log| - 1], k);
    }
  }

  lemma ElementsAppend(names: seq<string>, x: string)
    ensures Elements(names + [x]) == Elements(names) + {x}
  {
  }

  /** Conflicts are the claims beyond the distinct names, and the services whose
      name has no lower case. */
  lemma {:induction false} ConflictCount(log: seq<Event>)
    ensures |Conflicts(log)| == |Names(log)| - |Elements(Names(log))| + Unlowered(log)
  {
    if log != [] {
      var rest, e := log[..|log| - 1], log[|log| - 1];
      ConflictCount(rest);
      OwnersAreNames(rest);
      if e.Claim? {
        ElementsAppend(Names(rest), e.name);
        if e.name in Names(rest) {
          assert Elements(Names(rest)) + {e.name} == Elements(Names(rest));
        }
      } else {
        assert Names(log) == Names(rest);
      }
    }
  }

  lemma {:induction false} DistinctIff(names: seq<string>)
    ensures |Elements(names)| <= |names|
    ensures Distinct(names) <==> |Elements(names)| == |names|
  {
    if names != [] {
      var n := |names| - 1;
      var rest := names[..n];
      DistinctIff(rest);
      assert names == rest + [names[n]];
      ElementsAppend(rest, names[n]);
      if names[n] in rest {
        assert Elements(rest) + {names[n]} == Elements(rest);
        var i :| 0 <= i < |rest| && rest[i] == names[n];
        assert names[i] == names[n];
      } else {
        assert Distinct(names) <==> Distinct(rest) by {
          if Distinct(rest) {
            forall i, j | 0 <= i < j < |names| ensures names[i] != names[j] {
              assert names[i] == rest[i];
            }
          }
          if Distinct(names) {
            forall i, j | 0 <= i < j < |rest| ensures rest[i] != rest[j] {
              assert names[i] != names[j];
            }
          }
        }
      }
    }
  }

  /** A log is free of conflicts exactly when no name is claimed twice and every
      service could be lowered. */
  lemma NoConflictIff(log: seq<Event>)
    ensures Conflicts(log) == [] <==> Distinct(Names(log)) && Unlowered(log) == 0
  {
    ConflictCount(log);
    DistinctIff(Names(log));
  }

  lemma LogSplits(a: seq<Event>, b: seq<Event>)
    ensures Names(a + b) == Names(a) + Names(b) && Unlowered(a + b) == Unlowered(a) + Unlowered(b)
  {
    CollectSplits(ClaimedBy, a, b);
    CollectSplits(RefusedBy, a, b);
  }

  // ----- The nameset

  class NameSet {
    var owners: map<string, Owner>
    var conflicts: seq<Conflict>
    const pkg: string
    ghost var log: seq<Event>

    ghost predicate Valid()
      reads this
    {
      owners == Owners(log) && conflicts == Conflicts(log)
    }

    constructor (pkg: string)
      ensures Valid() && log == [] && this.pkg == pkg
    {
      owners, conflicts, log := map[], [], [];
      this.pkg := pkg;
    }

    /** Record a name, or the conflict if it is taken; the name is returned. */
    method Claim(name: string, owner: Owner) returns (r: string)
      requires Valid()
      modifies this
      ensures Valid() && r == name && log == old(log) + [Event.Claim(name, owner)]
    {
      ghost var e := Event.Claim(name, owner);
      assert (log + [e])[..|log|] == log;
      if name in owners {
        conflicts := conflicts + [Taken(name, owners[name], owner)];
      } else {
        owners := owners[name := owner];
      }
      log := log + [e];
      return name;
    }

    method Refuse(service: string)
      requires Valid()
      modifies this
      ensures Valid() && log == old(log) + [NoLowerCase(service)]
    {
      assert (log + [NoLowerCase(service)])[..|log|] == log;
      conflicts := conflicts + [Unlowerable(service)];
      log := log + [NoLowerCase(service)];
    }

    /** err: nil exactly when the log has no conflict. */
    method Err() returns (failed: bool)
      requires Valid()
      ensures failed <==> !(Distinct(Names(log)) && Unlowered(log) == 0)
    {
      NoConflictIff(log);
      return |conflicts| > 0;
    }
  }

  // ----- One service on its own

  function GoNames(methods: seq<Method>): (names: seq<string>)
    ensures |names| == |methods|
  {
    seq(|methods|, i requires 0 <= i < |methods| => methods[i].goName)
  }

  const CONFIG := "Config"

  datatype Problem = SameGoName(goName: string, first: string, second: string) | Reserved(name: string)

  lemma DistinctAppend(names: seq<string>, x: string)
    ensures Distinct(names + [x]) <==> Distinct(names) && x !in names
  {
    if Distinct(names + [x]) {
      forall i, j | 0 <= i < j < |names| ensures names[i] != names[j] {
        assert (names + [x])[i] != (names + [x])[j];
      }
      forall i | 0 <= i < |names| ensures names[i] != x {
        assert (names + [x])[i] != (names + [x])[|names|];
      }
    }
  }

  /** checkService: no two methods share a Go name, and with callers none has the
      name of the Caller's own method. */
  method CheckService(s: Service, callers: bool) returns (problems: seq<Problem>)
    ensures problems == [] <==> Distinct(GoNames(s.methods)) && (callers ==> CONFIG !in GoNames(s.methods))
    ensures forall p :: p in problems && p.SameGoName? ==>
      exists i, j :: 0 <= i < j < |s.methods| && s.methods[i].goName == p.goName == s.methods[j].goName &&
        s.methods[i].name == p.first && s.methods[j].name == p.second
  {
    problems := [];
    var seen: map<string, string> := map[];
    for i := 0 to |s.methods|
      invariant seen.Keys == Elements(GoNames(s.methods[..i]))
      invariant forall g :: g in seen ==> exists k :: 0 <= k < i && s.methods[k].goName == g && s.methods[k].name == seen[g]
      invariant problems == [] <==> Distinct(GoNames(s.methods[..i])) && (callers ==> CONFIG !in GoNames(s.methods[..i]))
      invariant forall p :: p in problems && p.SameGoName? ==>
        exists k, j :: 0 <= k < j < i && s.methods[k].goName == p.goName == s.methods[j].goName &&
          s.methods[k].name == p.first && s.methods[j].name == p.second
    {
      var m := s.methods[i];
      assert GoNames(s.methods[..i + 1]) == GoNames(s.methods[..i]) + [m.goName];
      DistinctAppend(GoNames(s.methods[..i]), m.goName);
      if m.goName in seen {
        problems := problems + [SameGoName(m.goName, seen[m.goName], m.name)];
      } else {
        seen := seen[m.goName := m.name];
        if callers && m.goName == CONFIG {
          problems := problems + [Reserved(m.name)];
        }
      }
    }
    assert s.methods[..|s.methods|] == s.methods;
  }

  /** unexport: lower the first rune, or fail when that changes nothing. */
  function Unexport(lower: char -> char, s: string): (r: Option<string>)
    ensures r.Some? ==> s != "" && |r.value| == |s| && r.value[0] == lower(s[0]) != s[0] && r.value[1..] == s[1..]
    ensures r.None? <==> s == "" || lower(s[0]) == s[0]
  {
    if s == "" || lower(s[0]) == s[0] then None else Some([lower(s[0])] + s[1..])
  }
}
