/** Admission of SiteManager resources of both kinds, and the uniqueness of service names over every history. */
module Admission {
  import opened Graphs
  import opened Wrappers

  /** A resource as far as its service name is concerned. */
  datatype CR = CR(uid: string, name: string, namespace: string, alias: Option<string>)

  function ServiceName(cr: CR): string {
    match cr.alias
    case Some(a) => a
    case None => cr.name + "." + cr.namespace
  }

  function Names(crs: seq<CR>): seq<string> {
    seq(|crs|, i requires 0 <= i < |crs| => ServiceName(crs[i]))
  }

  function Uids(crs: seq<CR>): seq<string> {
    seq(|crs|, i requires 0 <= i < |crs| => crs[i].uid)
  }

  /** The stored resources of the legacy and of the new kind. */
  datatype Store = Store(legacy: seq<CR>, current: seq<CR>)

  // ---------------------------------------------------------------- the merged dictionary

  function Insert(dict: map<string, CR>, crs: seq<CR>): map<string, CR>
    decreases |crs|
  {
    if crs == [] then dict else Insert(dict[ServiceName(crs[0]) := crs[0]], crs[1..])
  }

  /** New resources shadow legacy ones of the same name. */
  function Dict(st: Store): map<string, CR> {
    Insert(Insert(map[], st.legacy), st.current)
  }

  method ConvertToDict(st: Store) returns (dict: map<string, CR>)
    ensures dict == Dict(st)
  {
    dict := map[];
    for i := 0 to |st.legacy|
      invariant Insert(dict, st.legacy[i..]) == Insert(map[], st.legacy)
    {
      assert st.legacy[i..][0] == st.legacy[i] && st.legacy[i..][1..] == st.legacy[i + 1..];
      dict := dict[ServiceName(st.legacy[i]) := st.legacy[i]];
    }
    for i := 0 to |st.current|
      invariant Insert(dict, st.current[i..]) == Dict(st)
    {
      assert st.current[i..][0] == st.current[i] && st.current[i..][1..] == st.current[i + 1..];
      dict := dict[ServiceName(st.current[i]) := st.current[i]];
    }
  }

  /** A resource of that name from the list wins; otherwise the dictionary is as before. */
  lemma {:induction false} InsertFinds(dict: map<string, CR>, crs: seq<CR>, name: string)
    ensures name in Names(crs) ==> name in Insert(dict, crs) && Insert(dict, crs)[name] in crs
                                   && ServiceName(Insert(dict, crs)[name]) == name
    ensures name !in Names(crs) ==> (name in Insert(dict, crs) <==> name in dict)
                                    && (name in dict ==> Insert(dict, crs)[name] == dict[name])
    decreases |crs|
  {
    if crs != [] {
      var rest := crs[1..];
      InsertFinds(dict[ServiceName(crs[0]) := crs[0]], rest, name);
      assert crs == [crs[0]] + rest;
      assert Names(crs) == [ServiceName(crs[0])] + Names(rest);
    } else {
      assert Names(crs) == [];
    }
  }

  // ---------------------------------------------------------------- the two validators

  /** The legacy webhook asks the merged dictionary. */
  predicate LegacyAccepts(st: Store, name: string, uid: string) {
    name in Dict(st) ==> Dict(st)[name].uid == uid
  }

  predicate CurrentAccepts(st: Store, name: string, uid: string) {
    forall cr | cr in st.current :: ServiceName(cr) == name ==> cr.uid == uid
  }

  /** The webhook of the new kind searches its own resources, up to the first clash. */
  method ValidateCurrent(st: Store, name: string, uid: string) returns (ok: bool)
    ensures ok == CurrentAccepts(st, name, uid)
  {
    for i := 0 to |st.current|
      invariant forall k :: 0 <= k < i ==> ServiceName(st.current[k]) == name ==> st.current[k].uid == uid
    {
      if ServiceName(st.current[i]) == name && st.current[i].uid != uid { return false; }
    }
    ok := true;
  }

  // ---------------------------------------------------------------- the invariant

  /** Distinct UIDs over both kinds; distinct names within each. */
  ghost predicate Unique(st: Store) {
    && Distinct(Names(st.legacy)) && Distinct(Names(st.current))
    && Distinct(Uids(st.legacy + st.current))
  }

  lemma NameIn(crs: seq<CR>, cr: CR)
    requires cr in crs
    ensures ServiceName(cr) in Names(crs)
  {
    var i :| 0 <= i < |crs| && crs[i] == cr;
    assert Names(crs)[i] == ServiceName(cr);
  }

  lemma NameDetermines(crs: seq<CR>, a: CR, b: CR)
    requires Distinct(Names(crs)) && a in crs && b in crs && ServiceName(a) == ServiceName(b)
    ensures a == b
  {
    var i :| 0 <= i < |crs| && crs[i] == a;
    var j :| 0 <= j < |crs| && crs[j] == b;
    assert Names(crs)[i] == Names(crs)[j];
  }

  /** The dictionary holds, under a name in use, the new resource of that name if there is one, else the legacy one. */
  lemma DictHolds(st: Store, name: string)
    ensures name in Dict(st) <==> name in Names(st.legacy) || name in Names(st.current)
    ensures name in Dict(st) ==> ServiceName(Dict(st)[name]) == name
    ensures name in Names(st.current) ==> Dict(st)[name] in st.current
    ensures name in Dict(st) && name !in Names(st.current) ==> Dict(st)[name] in st.legacy
  {
    InsertFinds(map[], st.legacy, name);
    InsertFinds(Insert(map[], st.legacy), st.current, name);
  }

  /**
   * Although the dictionary shows a shadowed name only through its new namesake, the legacy check accepts exactly
   * the names that no other resource of either kind bears.
   */
  lemma LegacyAcceptsIff(st: Store, name: string, uid: string)
    requires Unique(st) && uid !in Uids(st.current)
    ensures LegacyAccepts(st, name, uid) <==>
            forall cr :: cr in st.legacy + st.current && ServiceName(cr) == name ==> cr.uid == uid
  {
    hide Dict;
    DictHolds(st, name);
    if LegacyAccepts(st, name, uid) && name in Dict(st) {
      if Dict(st)[name] in st.current {
        UidIn(st.current, Dict(st)[name]);
        assert false;
      }
      forall cr | cr in st.legacy + st.current && ServiceName(cr) == name
        ensures cr.uid == uid
      {
        if cr in st.current { NameIn(st.current, cr); }
        else { NameDetermines(st.legacy, cr, Dict(st)[name]); }
      }
    } else {
      forall cr | cr in st.legacy + st.current && ServiceName(cr) == name
        ensures name in Dict(st)
      {
        if cr in st.current { NameIn(st.current, cr); } else { NameIn(st.legacy, cr); }
      }
    }
  }

  /** validateServiceName of the legacy webhook: accepts exactly a name that no other resource of either kind bears. */
  method ValidateLegacy(st: Store, name: string, uid: string) returns (ok: bool)
    ensures ok == LegacyAccepts(st, name, uid)
    ensures Unique(st) && uid !in Uids(st.current) ==>
              (ok <==> forall cr :: cr in st.legacy + st.current && ServiceName(cr) == name ==> cr.uid == uid)
  {
    hide Unique, Dict, Uids;
    var dict := ConvertToDict(st);
    ok := !(name in dict && dict[name].uid != uid);
    if Unique(st) && uid !in Uids(st.current) { LegacyAcceptsIff(st, name, uid); }
  }

  lemma UidIn(crs: seq<CR>, cr: CR)
    requires cr in crs
    ensures cr.uid in Uids(crs)
  {
    var i :| 0 <= i < |crs| && crs[i] == cr;
    assert Uids(crs)[i] == cr.uid;
  }

  // ---------------------------------------------------------------- histories

  datatype Request =
    | CreateLegacy(cr: CR) | UpdateLegacy(cr: CR) | DeleteLegacy(uid: string)
    | CreateCurrent(cr: CR) | UpdateCurrent(cr: CR) | DeleteCurrent(uid: string)

  function Replace(crs: seq<CR>, cr: CR): seq<CR> {
    seq(|crs|, i requires 0 <= i < |crs| => if crs[i].uid == cr.uid then cr else crs[i])
  }

  function Remove(crs: seq<CR>, uid: string): seq<CR> {
    if crs == [] then [] else if crs[0].uid == uid then crs[1..] else [crs[0]] + Remove(crs[1..], uid)
  }

  /** A created resource has a UID of its own; an updated one exists in its kind. */
  predicate WellFormed(st: Store, r: Request) {
    match r
    case CreateLegacy(cr) => cr.uid !in Uids(st.legacy + st.current)
    case CreateCurrent(cr) => cr.uid !in Uids(st.legacy + st.current)
    case UpdateLegacy(cr) => cr.uid in Uids(st.legacy)
    case UpdateCurrent(cr) => cr.uid in Uids(st.current)
    case DeleteLegacy(_) => true
    case DeleteCurrent(_) => true
  }

  /** One atomic request: validated by the webhook of its kind, stored if accepted. */
  function Admit(st: Store, r: Request): Store {
    match r
    case CreateLegacy(cr) =>
      if LegacyAccepts(st, ServiceName(cr), cr.uid) then st.(legacy := st.legacy + [cr]) else st
    case UpdateLegacy(cr) =>
      if LegacyAccepts(st, ServiceName(cr), cr.uid) then st.(legacy := Replace(st.legacy, cr)) else st
    case DeleteLegacy(uid) => st.(legacy := Remove(st.legacy, uid))
    case CreateCurrent(cr) =>
      if CurrentAccepts(st, ServiceName(cr), cr.uid) then st.(current := st.current + [cr]) else st
    case UpdateCurrent(cr) =>
      if CurrentAccepts(st, ServiceName(cr), cr.uid) then st.(current := Replace(st.current, cr)) else st
    case DeleteCurrent(uid) => st.(current := Remove(st.current, uid))
  }

  lemma UidsOfBoth(a: seq<CR>, b: seq<CR>)
    ensures Uids(a + b) == Uids(a) + Uids(b)
  {}

  lemma DistinctParts<T>(a: seq<T>, b: seq<T>)
    ensures Distinct(a + b) <==> Distinct(a) && Distinct(b) && forall x :: x in a ==> x !in b
  {
    var s := a + b;
    assert forall i :: 0 <= i < |a| ==> s[i] == a[i];
    assert forall i :: 0 <= i < |b| ==> s[|a| + i] == b[i];
    if Distinct(s) {
      forall x | x in a && x in b
        ensures false
      {}
      forall i, j | 0 <= i < j < |b|
        ensures b[i] != b[j]
      {
        assert s[|a| + i] != s[|a| + j];
      }
      forall i, j | 0 <= i < j < |a|
        ensures a[i] != a[j]
      {
        assert s[i] != s[j];
      }
    }
    if Distinct(a) && Distinct(b) && forall x :: x in a ==> x !in b {
      forall i, j | 0 <= i < j < |s|
        ensures s[i] != s[j]
      {
        if i < |a| <= j { assert s[i] == a[i] && s[j] == b[j - |a|] && a[i] in a && b[j - |a|] in b; }
      }
    }
  }

  /** The UIDs of one kind may change to any distinct subset of what they were. */
  lemma UidsStayDistinct(legacy: seq<CR>, current: seq<CR>, legacy': seq<CR>)
    requires Distinct(Uids(legacy + current)) && Distinct(Uids(legacy'))
    requires forall u :: u in Uids(legacy') ==> u in Uids(legacy)
    ensures Distinct(Uids(legacy' + current)) && Distinct(Uids(current + legacy'))
  {
    hide Distinct, Uids;
    UidsOfBoth(legacy, current);
    UidsOfBoth(legacy', current);
    UidsOfBoth(current, legacy');
    DistinctParts(Uids(legacy), Uids(current));
    DistinctParts(Uids(legacy'), Uids(current));
    DistinctParts(Uids(current), Uids(legacy'));
  }

  lemma KindsSwap(legacy: seq<CR>, current: seq<CR>)
    requires Distinct(Uids(legacy + current))
    ensures Distinct(Uids(current + legacy)) && Distinct(Uids(legacy)) && Distinct(Uids(current))
  {
    hide Distinct, Uids;
    UidsOfBoth(legacy, current);
    UidsOfBoth(current, legacy);
    DistinctParts(Uids(legacy), Uids(current));
    DistinctParts(Uids(current), Uids(legacy));
  }

  /** No other resource of the kind bears the name. */
  predicate FreeFor(crs: seq<CR>, cr: CR) {
    forall other | other in crs :: ServiceName(other) == ServiceName(cr) ==> other.uid == cr.uid
  }

  lemma CreateKeeps(crs: seq<CR>, other: seq<CR>, cr: CR)
    requires Distinct(Names(crs)) && Distinct(Uids(crs + other)) && FreeFor(crs, cr) && cr.uid !in Uids(crs + other)
    ensures Distinct(Names(crs + [cr])) && Distinct(Uids(crs + [cr] + other))
  {
    UidsOfBoth(crs, other);
    UidsOfBoth(crs + [cr], other);
    UidsOfBoth(crs, [cr]);
    assert Names(crs + [cr]) == Names(crs) + [ServiceName(cr)];
    forall i | 0 <= i < |crs|
      ensures Names(crs)[i] != ServiceName(cr)
    {
      assert crs[i] in crs;
      UidIn(crs, crs[i]);
    }
    DistinctParts(Uids(crs), Uids(other));
    DistinctParts(Uids(crs), [cr.uid]);
    DistinctParts(Uids(crs) + [cr.uid], Uids(other));
    assert Uids(crs + [cr] + other) == Uids(crs) + [cr.uid] + Uids(other);
  }

  lemma ReplaceKeeps(crs: seq<CR>, cr: CR)
    requires Distinct(Names(crs)) && Distinct(Uids(crs)) && FreeFor(crs, cr)
    ensures Distinct(Names(Replace(crs, cr))) && Uids(Replace(crs, cr)) == Uids(crs)
  {
    var crs' := Replace(crs, cr);
    forall i, j | 0 <= i < j < |crs|
      ensures Names(crs')[i] != Names(crs')[j]
    {
      assert Names(crs)[i] != Names(crs)[j] && Uids(crs)[i] != Uids(crs)[j];
      assert crs[i] in crs && crs[j] in crs;
    }
  }

  lemma {:induction false} RemoveOne(crs: seq<CR>, uid: string) returns (k: nat)
    ensures k <= |crs|
    ensures Remove(crs, uid) == if k == |crs| then crs else crs[..k] + crs[k + 1..]
  {
    if crs == [] { k := 0; }
    else if crs[0].uid == uid { k := 0; }
    else {
      k := RemoveOne(crs[1..], uid);
      k := k + 1;
    }
  }

  lemma RemoveKeeps(crs: seq<CR>, uid: string)
    requires Distinct(Names(crs)) && Distinct(Uids(crs))
    ensures Distinct(Names(Remove(crs, uid))) && Distinct(Uids(Remove(crs, uid)))
    ensures forall u :: u in Uids(Remove(crs, uid)) ==> u in Uids(crs)
  {
    hide Distinct, Remove;
    var k := RemoveOne(crs, uid);
    if k < |crs| {
      var names, uids := Names(crs), Uids(crs);
      DropOne(names, k);
      DropOne(uids, k);
      WithoutOne(crs, k);
    }
  }

  lemma WithoutOne(crs: seq<CR>, k: nat)
    requires k < |crs|
    ensures Names(crs[..k] + crs[k + 1..]) == Names(crs)[..k] + Names(crs)[k + 1..]
    ensures Uids(crs[..k] + crs[k + 1..]) == Uids(crs)[..k] + Uids(crs)[k + 1..]
  {}

  lemma DropOne<T>(s: seq<T>, k: nat)
    requires Distinct(s) && k < |s|
    ensures Distinct(s[..k] + s[k + 1..])
    ensures forall x :: x in s[..k] + s[k + 1..] ==> x in s
  {}

  lemma AcceptedIsFree(st: Store, cr: CR)
    requires Unique(st) && cr.uid !in Uids(st.current) && LegacyAccepts(st, ServiceName(cr), cr.uid)
    ensures FreeFor(st.legacy, cr)
  {
    hide Unique, LegacyAccepts;
    LegacyAcceptsIff(st, ServiceName(cr), cr.uid);
  }

  lemma LegacyUidIsNotCurrent(st: Store, uid: string)
    requires Unique(st) && uid in Uids(st.legacy)
    ensures uid !in Uids(st.current)
  {
    hide Uids, Distinct, Names;
    UidsOfBoth(st.legacy, st.current);
    DistinctParts(Uids(st.legacy), Uids(st.current));
  }

  lemma AdmitKeepsUnique(st: Store, r: Request)
    requires Unique(st) && WellFormed(st, r)
    ensures Unique(Admit(st, r))
  {
    hide Distinct, Names, Uids, LegacyAccepts, Dict, Replace, Remove, FreeFor;
    KindsSwap(st.legacy, st.current);
    UidsOfBoth(st.legacy, st.current);
    UidsOfBoth(st.current, st.legacy);
    match r
    case CreateLegacy(cr) =>
      if LegacyAccepts(st, ServiceName(cr), cr.uid) {
        AcceptedIsFree(st, cr);
        CreateKeeps(st.legacy, st.current, cr);
      }
    case UpdateLegacy(cr) =>
      if LegacyAccepts(st, ServiceName(cr), cr.uid) {
        LegacyUidIsNotCurrent(st, cr.uid);
        AcceptedIsFree(st, cr);
        ReplaceKeeps(st.legacy, cr);
        UidsStayDistinct(st.legacy, st.current, Replace(st.legacy, cr));
      }
    case DeleteLegacy(uid) =>
      RemoveKeeps(st.legacy, uid);
      UidsStayDistinct(st.legacy, st.current, Remove(st.legacy, uid));
    case CreateCurrent(cr) =>
      if CurrentAccepts(st, ServiceName(cr), cr.uid) {
        CurrentFree(st, cr);
        CreateKeeps(st.current, st.legacy, cr);
        KindsSwap(st.current + [cr], st.legacy);
      }
    case UpdateCurrent(cr) =>
      if CurrentAccepts(st, ServiceName(cr), cr.uid) {
        CurrentFree(st, cr);
        ReplaceKeeps(st.current, cr);
        UidsStayDistinct(st.current, st.legacy, Replace(st.current, cr));
      }
    case DeleteCurrent(uid) =>
      RemoveKeeps(st.current, uid);
      UidsStayDistinct(st.current, st.legacy, Remove(st.current, uid));
  }

  lemma CurrentFree(st: Store, cr: CR)
    requires CurrentAccepts(st, ServiceName(cr), cr.uid)
    ensures FreeFor(st.current, cr)
  {}

  /** No other resource among these bears the name of cr. */
  ghost predicate NameFree(crs: seq<CR>, cr: CR) {
    forall other :: other in crs && other.uid != cr.uid ==> ServiceName(other) != ServiceName(cr)
  }

  /**
   * What each request leaves behind: a resource is created or takes the place of its former self exactly if its name is
   * free, of both kinds for a legacy one and of its own for a new one; a deletion takes that resource only; and nothing
   * else changes.
   */
  lemma AdmittedExactly(st: Store, r: Request)
    requires Unique(st) && WellFormed(st, r)
    ensures var st' := Admit(st, r);
            match r
            case CreateLegacy(cr) =>
              st'.current == st.current
              && Elements(st'.legacy) == Elements(st.legacy) + if NameFree(st.legacy + st.current, cr) then {cr} else {}
            case UpdateLegacy(cr) =>
              st'.current == st.current
              && Elements(st'.legacy) ==
                 if NameFree(st.legacy + st.current, cr) then (set x | x in st.legacy && x.uid != cr.uid) + {cr}
                 else Elements(st.legacy)
            case DeleteLegacy(uid) =>
              st'.current == st.current && Elements(st'.legacy) == set x | x in st.legacy && x.uid != uid
            case CreateCurrent(cr) =>
              st'.legacy == st.legacy
              && Elements(st'.current) == Elements(st.current) + if NameFree(st.current, cr) then {cr} else {}
            case UpdateCurrent(cr) =>
              st'.legacy == st.legacy
              && Elements(st'.current) ==
                 if NameFree(st.current, cr) then (set x | x in st.current && x.uid != cr.uid) + {cr}
                 else Elements(st.current)
            case DeleteCurrent(uid) =>
              st'.legacy == st.legacy && Elements(st'.current) == set x | x in st.current && x.uid != uid
  {
    hide Distinct, Names, LegacyAccepts, CurrentAccepts, Dict, Replace, Remove, NameFree, Uids;
    KindsSwap(st.legacy, st.current);
    UidsOfBoth(st.legacy, st.current);
    match r
    case CreateLegacy(cr) =>
      AcceptsIfFree(st, cr);
    case UpdateLegacy(cr) =>
      LegacyUidIsNotCurrent(st, cr.uid);
      AcceptsIfFree(st, cr);
      ReplaceElements(st.legacy, cr);
    case DeleteLegacy(uid) =>
      RemoveElements(st.legacy, uid);
    case CreateCurrent(cr) =>
      CurrentAcceptsIfFree(st, cr);
    case UpdateCurrent(cr) =>
      CurrentAcceptsIfFree(st, cr);
      ReplaceElements(st.current, cr);
    case DeleteCurrent(uid) =>
      RemoveElements(st.current, uid);
  }

  lemma AcceptsIfFree(st: Store, cr: CR)
    requires Unique(st) && cr.uid !in Uids(st.current)
    ensures LegacyAccepts(st, ServiceName(cr), cr.uid) <==> NameFree(st.legacy + st.current, cr)
  {
    hide Unique, LegacyAccepts, Uids;
    LegacyAcceptsIff(st, ServiceName(cr), cr.uid);
  }

  lemma CurrentAcceptsIfFree(st: Store, cr: CR)
    ensures CurrentAccepts(st, ServiceName(cr), cr.uid) <==> NameFree(st.current, cr)
  {}

  lemma ReplaceElements(crs: seq<CR>, cr: CR)
    requires cr.uid in Uids(crs)
    ensures Elements(Replace(crs, cr)) == (set x | x in crs && x.uid != cr.uid) + {cr}
  {
    var crs' := Replace(crs, cr);
    var i :| 0 <= i < |crs| && crs[i].uid == cr.uid;
    assert crs'[i] in crs';
    forall x | x in crs && x.uid != cr.uid
      ensures x in crs'
    {
      var k :| 0 <= k < |crs| && crs[k] == x;
      assert crs'[k] == x;
    }
  }

  lemma {:induction false} RemoveElements(crs: seq<CR>, uid: string)
    requires Distinct(Uids(crs))
    ensures Elements(Remove(crs, uid)) == set x | x in crs && x.uid != uid
    decreases |crs|
  {
    if crs == [] {
    } else {
      var first, rest := crs[0], crs[1..];
      assert crs == [first] + rest;
      UidsOfBoth([first], rest);
      DistinctParts(Uids([first]), Uids(rest));
      assert forall x :: x in rest ==> x.uid != first.uid by {
        forall x | x in rest { UidIn(rest, x); }
        assert Uids([first])[0] == first.uid;
      }
      assert forall x :: x in crs <==> x == first || x in rest;
      if first.uid == uid {
        assert Remove(crs, uid) == rest;
      } else {
        RemoveElements(rest, uid);
        var rest' := Remove(rest, uid);
        assert Remove(crs, uid) == [first] + rest';
        assert forall x :: x in rest' <==> x in Elements(rest');
        assert forall x :: x in [first] + rest' <==> x == first || x in rest';
      }
    }
  }

  function AdmitAll(st: Store, rs: seq<Request>): Store
    decreases |rs|
  {
    if rs == [] then st else AdmitAll(Admit(st, rs[0]), rs[1..])
  }

  ghost predicate History(st: Store, rs: seq<Request>)
    decreases |rs|
  {
    rs == [] || (WellFormed(st, rs[0]) && History(Admit(st, rs[0]), rs[1..]))
  }

  /** Over every history of requests, service names stay pairwise distinct within each kind. */
  lemma {:induction false} NamesStayUnique(st: Store, rs: seq<Request>)
    requires Unique(st) && History(st, rs)
    ensures Unique(AdmitAll(st, rs))
    decreases |rs|
  {
    hide Unique, WellFormed, Admit;
    if rs == [] {
    } else {
      AdmitKeepsUnique(st, rs[0]);
      NamesStayUnique(Admit(st, rs[0]), rs[1..]);
    }
  }

  // ---------------------------------------------------------------- resources of version v2

  /** A v2 resource is stored with its bare name as alias unless it is in the stateful module. */
  function FromV2(uid: string, name: string, namespace: string, mod: string): CR {
    CR(uid, name, namespace, if mod != "stateful" then Some(name) else None)
  }

  /** But it is validated under the name without the alias. */
  function CreateV2(st: Store, uid: string, name: string, namespace: string, mod: string): Store {
    if LegacyAccepts(st, name + "." + namespace, uid)
    then st.(legacy := st.legacy + [FromV2(uid, name, namespace, mod)])
    else st
  }

  ghost predicate V2KeepsUnique(uid: string, name: string, namespace: string, mod: string) {
    forall st :: Unique(st) && uid !in Uids(st.legacy + st.current) ==> Unique(CreateV2(st, uid, name, namespace, mod))
  }

  /** Creating a v2 resource keeps the names unique on every store exactly when it is in the stateful module. */
  lemma V2KeepsUniqueIff(uid: string, name: string, namespace: string, mod: string)
    ensures V2KeepsUnique(uid, name, namespace, mod) <==> mod == "stateful"
  {
    hide Unique, LegacyAccepts, Uids;
    if mod == "stateful" {
      forall st | Unique(st) && uid !in Uids(st.legacy + st.current)
        ensures Unique(CreateV2(st, uid, name, namespace, mod))
      {
        AdmitKeepsUnique(st, CreateLegacy(FromV2(uid, name, namespace, mod)));
      }
    } else {
      V2Clashes(uid, name, namespace, mod);
    }
  }

  /** A resource that already bears the bare name as its alias: the new one is accepted beside it. */
  lemma V2Clashes(uid: string, name: string, namespace: string, mod: string)
    requires mod != "stateful"
    ensures !V2KeepsUnique(uid, name, namespace, mod)
  {
    var first := CR(uid + "'", "first", "ns", Some(name));
    var st := Store([first], []);
    assert |uid + "'"| != |uid|;
    assert Uids(st.legacy + st.current) == [uid + "'"] && Names(st.legacy) == [name] && Names(st.current) == [];
    assert Unique(st) && uid !in Uids(st.legacy + st.current);
    assert |name + "." + namespace| > |name|;
    DictHolds(st, name + "." + namespace);
    var st' := CreateV2(st, uid, name, namespace, mod);
    assert st'.legacy == [first, FromV2(uid, name, namespace, mod)];
    assert Names(st'.legacy)[0] == Names(st'.legacy)[1];
    assert !Unique(st');
  }
}
