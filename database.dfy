/** The in-memory NEO database (database.py): two lookup indices over the
    NEOs, the pass that links every close approach to its NEO, and the query
    over close approaches. */
module Database {
  import opened Wrappers
  import opened Models

  /** The designation index files every NEO under its designation. */
  function DesignationKey(neo: NearEarthObject): Option<string> {
    Some(neo.designation)
  }

  /** The name index files an NEO under its name, and leaves out an NEO whose
      name is falsy. */
  function NameKey(neo: NearEarthObject): Option<string> {
    if Truthy(neo.name) then neo.name else None
  }

  /** The dict comprehension `{key(neo): neo for neo in neos if key(neo)}`,
      taken in input order, so that a later NEO with the same key replaces an
      earlier one. */
  function IndexBy(neos: seq<NearEarthObject>, key: NearEarthObject -> Option<string>): (index: map<string, NearEarthObject>)
    ensures forall k :: k in index ==> index[k] in neos && key(index[k]) == Some(k)
  {
    if neos == [] then map[]
    else
      var rest := IndexBy(neos[..|neos| - 1], key);
      var last := neos[|neos| - 1];
      if key(last).Some? then rest[key(last).value := last] else rest
  }

  /** The position of the last NEO in `neos` filed under `k`, or -1 when
      there is none. */
  function LastKeyed(neos: seq<NearEarthObject>, key: NearEarthObject -> Option<string>, k: string): (i: int)
    ensures -1 <= i < |neos|
    ensures i >= 0 ==> key(neos[i]) == Some(k)
    ensures forall j :: i < j < |neos| ==> key(neos[j]) != Some(k)
  {
    if neos == [] then -1
    else if key(neos[|neos| - 1]) == Some(k) then |neos| - 1
    else LastKeyed(neos[..|neos| - 1], key, k)
  }

  /** A key is in the index exactly when some NEO is filed under it, and then
      it maps to the last such NEO. */
  lemma {:induction false} IndexByLastWins(neos: seq<NearEarthObject>, key: NearEarthObject -> Option<string>, k: string)
    ensures k in IndexBy(neos, key) <==> LastKeyed(neos, key, k) >= 0
    ensures k in IndexBy(neos, key) ==> IndexBy(neos, key)[k] == neos[LastKeyed(neos, key, k)]
  {
    if neos != [] {
      IndexByLastWins(neos[..|neos| - 1], key, k);
    }
  }

  /** The approaches, in input order and with repeats, that the linking pass
      appends to `neo`: those whose designation the index maps to `neo`. */
  function LinkedTo(index: map<string, NearEarthObject>, approaches: seq<CloseApproach>, neo: NearEarthObject): (linked: seq<CloseApproach>)
    ensures forall a :: a in linked ==> a in approaches && a.designation in index && index[a.designation] == neo
  {
    if approaches == [] then []
    else
      var a := approaches[|approaches| - 1];
      LinkedTo(index, approaches[..|approaches| - 1], neo)
        + if a.designation in index && index[a.designation] == neo then [a] else []
  }

  /** Linking appends a matched approach to its NEO once for each time it
      occurs in the input, and never appends an unmatched one. */
  lemma {:induction false} LinkedExactlyOnce(index: map<string, NearEarthObject>, approaches: seq<CloseApproach>,
                                             neo: NearEarthObject, a: CloseApproach)
    ensures multiset(LinkedTo(index, approaches, neo))[a]
            == if a.designation in index && index[a.designation] == neo then multiset(approaches)[a] else 0
  {
    if approaches != [] {
      var init := approaches[..|approaches| - 1];
      LinkedExactlyOnce(index, init, neo, a);
      assert approaches == init + [approaches[|approaches| - 1]];
    }
  }

  /** The approaches, in input order, whose designation is one of `designations`. */
  function WithDesignationIn(approaches: seq<CloseApproach>, designations: set<string>): (r: seq<CloseApproach>)
    ensures |r| <= |approaches|
  {
    if approaches == [] then []
    else
      var a := approaches[|approaches| - 1];
      WithDesignationIn(approaches[..|approaches| - 1], designations) + if a.designation in designations then [a] else []
  }

  /** Every value of the designation index is filed under its own designation. */
  ghost predicate KeyedByDesignation(index: map<string, NearEarthObject>) {
    forall d :: d in index ==> index[d].designation == d
  }

  /** In an index keyed by designation, the approaches linked to the NEO
      under `d` are exactly the approaches with designation `d`. */
  lemma {:induction false} LinkedToDesignation(index: map<string, NearEarthObject>, approaches: seq<CloseApproach>, d: string)
    requires KeyedByDesignation(index) && d in index
    ensures LinkedTo(index, approaches, index[d]) == WithDesignationIn(approaches, {d})
  {
    if approaches != [] {
      LinkedToDesignation(index, approaches[..|approaches| - 1], d);
    }
  }

  /** Taking one more designation adds exactly the approaches with it. */
  lemma {:induction false} WithDesignationInSplit(approaches: seq<CloseApproach>, designations: set<string>, d: string)
    requires d !in designations
    ensures |WithDesignationIn(approaches, designations + {d})|
            == |WithDesignationIn(approaches, designations)| + |WithDesignationIn(approaches, {d})|
  {
    if approaches != [] {
      WithDesignationInSplit(approaches[..|approaches| - 1], designations, d);
    }
  }

  /** The total length of the lists linked to the NEOs under `keys`. */
  function LinkedCount(index: map<string, NearEarthObject>, approaches: seq<CloseApproach>, keys: seq<string>): nat
    requires forall k :: k in keys ==> k in index
  {
    if keys == [] then 0
    else |LinkedTo(index, approaches, index[keys[0]])| + LinkedCount(index, approaches, keys[1..])
  }

  /** Summed over the distinct keys of a designation index, linking appends
      exactly as many approaches as there are approaches whose designation is
      indexed. */
  lemma {:induction false} LinkedTotal(index: map<string, NearEarthObject>, approaches: seq<CloseApproach>, keys: seq<string>)
    requires KeyedByDesignation(index)
    requires forall k :: k in keys ==> k in index
    requires forall i, j :: 0 <= i < j < |keys| ==> keys[i] != keys[j]
    ensures LinkedCount(index, approaches, keys) == |WithDesignationIn(approaches, set k | k in keys)|
  {
    if keys == [] {
      assert (set k | k in keys) == {};
      EmptyDesignations(approaches);
    } else {
      var rest := keys[1..];
      LinkedTotal(index, approaches, rest);
      LinkedToDesignation(index, approaches, keys[0]);
      assert (set k | k in keys) == (set k | k in rest) + {keys[0]};
      WithDesignationInSplit(approaches, (set k | k in rest), keys[0]);
    }
  }

  /** No approach has a designation from the empty set. */
  lemma {:induction false} EmptyDesignations(approaches: seq<CloseApproach>)
    ensures WithDesignationIn(approaches, {}) == []
  {
    if approaches != [] {
      EmptyDesignations(approaches[..|approaches| - 1]);
    }
  }

  /** An approach passes a collection of filters when every filter accepts it. */
  predicate MatchesAll(filters: seq<CloseApproach -> bool>, a: CloseApproach) {
    forall i :: 0 <= i < |filters| ==> filters[i](a)
  }

  /** The approaches, in input order, that pass all of `filters`. */
  function Matching(approaches: seq<CloseApproach>, filters: seq<CloseApproach -> bool>): (r: seq<CloseApproach>)
    ensures |r| <= |approaches|
  {
    if approaches == [] then []
    else
      var a := approaches[|approaches| - 1];
      Matching(approaches[..|approaches| - 1], filters) + if MatchesAll(filters, a) then [a] else []
  }

  /** An approach is a match exactly when it is stored and passes every filter. */
  lemma {:induction false} MatchingMembers(approaches: seq<CloseApproach>, filters: seq<CloseApproach -> bool>, a: CloseApproach)
    ensures a in Matching(approaches, filters) <==> a in approaches && MatchesAll(filters, a)
  {
    if approaches != [] {
      var init := approaches[..|approaches| - 1];
      MatchingMembers(init, filters, a);
      assert approaches == init + [approaches[|approaches| - 1]];
    }
  }

  /** With no filters every stored approach matches, in storage order. */
  lemma {:induction false} MatchingNoFilters(approaches: seq<CloseApproach>)
    ensures Matching(approaches, []) == approaches
  {
    if approaches != [] {
      var init := approaches[..|approaches| - 1];
      MatchingNoFilters(init);
      assert approaches == init + [approaches[|approaches| - 1]];
    }
  }

  /** Two filters that no approach passes together match nothing. */
  lemma {:induction false} MatchingDisjoint(approaches: seq<CloseApproach>, f: CloseApproach -> bool, g: CloseApproach -> bool)
    requires forall a :: !(f(a) && g(a))
    ensures Matching(approaches, [f, g]) == []
  {
    if approaches != [] {
      MatchingDisjoint(approaches[..|approaches| - 1], f, g);
      var a := approaches[|approaches| - 1];
      assert !MatchesAll([f, g], a) by {
        assert !(f(a) && g(a));
        assert [f, g][0] == f && [f, g][1] == g;
      }
    }
  }

  /** A filter that accepts no approach. */
  function RejectAll(a: CloseApproach): bool {
    false
  }

  /** Where the implemented query and the documented one part: with a filter
      that accepts nothing, the documented query yields nothing, while the
      implemented one yields every stored approach. */
  lemma {:induction false} QueryIgnoresFilters(approaches: seq<CloseApproach>)
    ensures Matching(approaches, [RejectAll]) == []
    ensures approaches != [] ==> Matching(approaches, [RejectAll]) != approaches
  {
    if approaches != [] {
      QueryIgnoresFilters(approaches[..|approaches| - 1]);
      var a := approaches[|approaches| - 1];
      assert !MatchesAll([RejectAll], a) by {
        assert [RejectAll][0] == RejectAll;
      }
    }
  }

  /** Linking one more approach extends the list of the NEO it is linked to. */
  lemma LinkedToStep(index: map<string, NearEarthObject>, approaches: seq<CloseApproach>, i: nat, neo: NearEarthObject)
    requires i < |approaches|
    ensures LinkedTo(index, approaches[..i + 1], neo)
            == LinkedTo(index, approaches[..i], neo)
               + if approaches[i].designation in index && index[approaches[i].designation] == neo then [approaches[i]] else []
  {
    assert approaches[..i + 1][..i] == approaches[..i];
  }

  /** The linking pass: every approach whose designation is a key of `index`
      gets that NEO as its `neo` and is appended to the NEO's list, in input
      order; every other approach keeps its `neo`. */
  method LinkApproaches(index: map<string, NearEarthObject>, neos: seq<NearEarthObject>, approaches: seq<CloseApproach>)
    requires forall d :: d in index ==> index[d] in neos
    modifies neos, approaches
    ensures forall neo :: neo in neos ==>
              neo.approaches == old(neo.approaches) + LinkedTo(index, approaches, neo)
    ensures forall a :: a in approaches ==>
              a.neo == if a.designation in index then index[a.designation] else old(a.neo)
  {
    ghost var listsBefore := map neo | neo in neos :: neo.approaches;
    ghost var neoBefore := map a | a in approaches :: a.neo;
    assert approaches[..0] == [];
    for i := 0 to |approaches|
      invariant ListsUpTo(index, neos, approaches, i, listsBefore)
      invariant LinksUpTo(index, approaches, i, neoBefore)
    {
      LinkOne(index, neos, approaches, i, listsBefore, neoBefore);
    }
    assert approaches[..|approaches|] == approaches;
  }

  /** After the first `i` approaches of the linking pass, each NEO's list is
      its list from before the pass followed by the approaches linked to it
      so far. */
  ghost predicate ListsUpTo(index: map<string, NearEarthObject>, neos: seq<NearEarthObject>, approaches: seq<CloseApproach>,
                            i: nat, listsBefore: map<NearEarthObject, seq<CloseApproach>>)
    requires i <= |approaches|
    reads neos
  {
    forall neo :: neo in neos ==>
      neo in listsBefore && neo.approaches == listsBefore[neo] + LinkedTo(index, approaches[..i], neo)
  }

  /** After the first `i` approaches of the linking pass, each approach seen
      so far whose designation is indexed points to its NEO, and every other
      approach keeps its `neo` from before the pass. */
  ghost predicate LinksUpTo(index: map<string, NearEarthObject>, approaches: seq<CloseApproach>,
                            i: nat, neoBefore: map<CloseApproach, NearEarthObject?>)
    requires i <= |approaches|
    reads approaches
  {
    forall a :: a in approaches ==>
      a in neoBefore
      && a.neo == if a in approaches[..i] && a.designation in index then index[a.designation] else neoBefore[a]
  }

  /** One step of the linking pass: the `i`-th approach, when its designation
      is a key of `index`, gets that NEO as its `neo` and is appended to the
      NEO's list; nothing else changes. */
  method LinkOne(index: map<string, NearEarthObject>, neos: seq<NearEarthObject>, approaches: seq<CloseApproach>, i: nat,
                 ghost listsBefore: map<NearEarthObject, seq<CloseApproach>>,
                 ghost neoBefore: map<CloseApproach, NearEarthObject?>)
    requires forall d :: d in index ==> index[d] in neos
    requires i < |approaches|
    requires ListsUpTo(index, neos, approaches, i, listsBefore) && LinksUpTo(index, approaches, i, neoBefore)
    modifies approaches[i], if approaches[i].designation in index then {index[approaches[i].designation]} else {}
    ensures ListsUpTo(index, neos, approaches, i + 1, listsBefore) && LinksUpTo(index, approaches, i + 1, neoBefore)
  {
    var approach := approaches[i];
    ghost var target: NearEarthObject? := null;
    if approach.designation in index {
      var neo := index[approach.designation];
      approach.neo := neo;
      neo.approaches := neo.approaches + [approach];
      target := neo;
    }
    assert forall neo :: neo in neos && neo != target ==> neo.approaches == old(neo.approaches);
    forall neo | neo in neos
      ensures neo.approaches == listsBefore[neo] + LinkedTo(index, approaches[..i + 1], neo)
    {
      LinkedToStep(index, approaches, i, neo);
    }
    forall a | a in approaches
      ensures a in neoBefore
      ensures a.neo == if a in approaches[..i + 1] && a.designation in index then index[a.designation] else neoBefore[a]
    {
      assert a in approaches[..i + 1] <==> a in approaches[..i] || a == approach;
    }
  }

  /** A database of NEOs and their close approaches. The collections and the
      indices are built once and never reassigned. */
  class NEODatabase {
    const neos: seq<NearEarthObject>
    const approaches: seq<CloseApproach>
    const neoDesignations: map<string, NearEarthObject>
    const neoNames: map<string, NearEarthObject>

    /** The two indices are the comprehensions over the NEOs. */
    ghost predicate Valid() {
      neoDesignations == IndexBy(neos, DesignationKey) && neoNames == IndexBy(neos, NameKey)
    }

    /** Builds both indices, then links every approach whose designation is
        indexed to its NEO: sets the approach's `neo` and appends the approach
        to the NEO's list. Other approaches keep their `neo`. */
    constructor (neos: seq<NearEarthObject>, approaches: seq<CloseApproach>)
      modifies neos, approaches
      ensures Valid() && this.neos == neos && this.approaches == approaches
      ensures forall neo :: neo in neos ==>
                neo.approaches == old(neo.approaches) + LinkedTo(neoDesignations, approaches, neo)
      ensures forall a :: a in approaches ==>
                a.neo == if a.designation in neoDesignations then neoDesignations[a.designation] else old(a.neo)
    {
      this.neos := neos;
      this.approaches := approaches;
      neoDesignations := IndexBy(neos, DesignationKey);
      neoNames := IndexBy(neos, NameKey);
      new;
      LinkApproaches(neoDesignations, neos, approaches);
    }

    /** The NEO with the given designation, the last one in the input when
        several share it, or null when there is none. */
    function GetNeoByDesignation(designation: string): (neo: NearEarthObject?)
      requires Valid()
      ensures neo != null <==> exists i :: 0 <= i < |neos| && neos[i].designation == designation
      ensures neo != null ==> neo.designation == designation
      ensures neo != null ==> neo == neos[LastKeyed(neos, DesignationKey, designation)]
    {
      IndexByLastWins(neos, DesignationKey, designation);
      if designation in neoDesignations then neoDesignations[designation] else null
    }

    /** The NEO with the given name, the last one in the input when several
        share it, or null when there is none; an empty name matches nothing. */
    function GetNeoByName(name: string): (neo: NearEarthObject?)
      requires Valid()
      ensures neo != null <==> name != "" && exists i :: 0 <= i < |neos| && neos[i].name == Some(name)
      ensures neo != null ==> neo.name == Some(name) && Truthy(neo.name)
      ensures neo != null ==> neo == neos[LastKeyed(neos, NameKey, name)]
    {
      IndexByLastWins(neos, NameKey, name);
      if name in neoNames then neoNames[name] else null
    }

    /** The query as implemented: it yields every stored approach, in storage
        order, whatever the filters. */
    method Query(filters: seq<CloseApproach -> bool> := []) returns (result: seq<CloseApproach>)
      ensures result == approaches
    {
      result := [];
      for i := 0 to |approaches|
        invariant result == approaches[..i]
      {
        result := result + [approaches[i]];
      }
    }

    /** The query as documented: it yields, in storage order, the stored
        approaches that pass every filter, and stops evaluating the filters
        for an approach at the first one that rejects it. */
    method QueryMatching(filters: seq<CloseApproach -> bool> := []) returns (result: seq<CloseApproach>)
      ensures result == Matching(approaches, filters)
    {
      result := [];
      for i := 0 to |approaches|
        invariant result == Matching(approaches[..i], filters)
      {
        var approach := approaches[i];
        var j := 0;
        while j < |filters| && filters[j](approach)
          invariant 0 <= j <= |filters|
          invariant forall k :: 0 <= k < j ==> filters[k](approach)
        {
          j := j + 1;
        }
        assert approaches[..i + 1][..i] == approaches[..i];
        if j == |filters| {
          result := result + [approach];
        }
      }
      assert approaches[..|approaches|] == approaches;
    }
  }
}
