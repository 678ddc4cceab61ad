/** A client of the database: Eros with one close approach, and a close
    approach of an NEO that is not in the data. Everything asserted here
    follows from the contracts of the constructors, the lookups and the
    queries. */
module Scenario {
  import opened Wrappers
  import opened Models
  import opened Database

  /** Accepts the approaches that are known to come within 0.05 au. */
  function WithinFiveHundredths(a: CloseApproach): bool {
    a.distance.Num? && a.distance.x <= 0.05
  }

  /** Only the approach of designation 433 is linked to Eros. */
  lemma ErosLinks(index: map<string, NearEarthObject>, eros: NearEarthObject, near: CloseApproach, far: CloseApproach)
    requires index == map["433" := eros] && near.designation == "433" && far.designation == "999"
    ensures LinkedTo(index, [near, far], eros) == [near]
  {
    assert [near, far][..1] == [near] && [near][..0] == [];
    assert far.designation !in index;
    assert LinkedTo(index, [near], eros) == [near];
  }

  /** Only the approach at 0.02 au passes the distance filter. */
  lemma OnlyFarPasses(near: CloseApproach, far: CloseApproach)
    requires near.distance == Num(0.15) && far.distance == Num(0.02)
    ensures Matching([near, far], [WithinFiveHundredths]) == [far]
  {
    assert [near, far][..1] == [near] && [near][..0] == [];
    assert [WithinFiveHundredths][0] == WithinFiveHundredths;
  }

  method ErosScenario() {
    var eros := new NearEarthObject("433", Some("Eros"), Some(Num(16.84)), false);
    var r1 := NewCloseApproach("433", Some("2020-Jan-01 00:00"), PassedFloat(Num(0.15)), PassedFloat(Num(5.2)));
    var r2 := NewCloseApproach("999", Some("2020-Jan-02 00:00"), PassedFloat(Num(0.02)), PassedFloat(Num(30.0)));
    var near, far := r1.value, r2.value;

    var db := new NEODatabase([eros], [near, far]);
    assert [eros][..0] == [];
    assert db.neoDesignations == map["433" := eros];
    assert db.neoNames == map["Eros" := eros];
    assert db.GetNeoByDesignation("433") == eros;
    assert db.GetNeoByName("Eros") == eros;
    assert db.GetNeoByDesignation("999") == null;

    // Eros gets its one approach; the other approach stays unlinked.
    ErosLinks(db.neoDesignations, eros, near, far);
    assert eros.approaches == [near];
    assert near.neo == eros && far.neo == null;

    ErosQueries(db, near, far);
  }

  /** Both queries over the two approaches of the scenario. */
  method ErosQueries(db: NEODatabase, near: CloseApproach, far: CloseApproach)
    requires db.approaches == [near, far] && near.distance == Num(0.15) && far.distance == Num(0.02)
  {
    var all := db.Query();
    assert |all| == 2;

    var close := db.QueryMatching([WithinFiveHundredths]);
    OnlyFarPasses(near, far);
    assert close == [far];
  }
}
