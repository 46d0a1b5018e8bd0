/** The refine cap needs parents to be older than what revises them. */
module CapCounterexample {

  import opened Contracts
  import opened Tables
  import opened Commit
  import opened Intake
  import opened RefineCap

  function Row(id: Id): Artifact {
    Artifact(id, "T", Inline(JObj(map[])), Proposed, "proposer", "t", None, None, false, [])
  }

  const OF_A := Operation("op-a", REVISES, ["b"], "a", OpSuccess, "t")
  const OF_B := Operation("op-b", "submit", [], "b", OpSuccess, "t")
  const SENT_BACK := Verdict(VerdictBundle(Revised, [], None))

  /** With a cap of 1, an artifact that names a parent minted only later is sent back while its parent
      is unknown; once the parent is sent back too, the lineage has length 2. */
  lemma ForwardParentsBreakTheCap(k: Kernel) returns (d1: Db, d2: Db, d3: Db, d4: Db)
    requires k.refineCap == 1 && "T" in k.gated && k.identity != "proposer"
    ensures ProposeRow(EMPTY_DB, Row("a"), OF_A) == Ok(d1) && !Exhausted(k, d1, OF_A)
    ensures Committed(d1, "a", k.gated.Keys, k.identity, SENT_BACK, false, "t") == Ok(d2)
    ensures ProposeRow(d2, Row("b"), OF_B) == Ok(d3) && !Exhausted(k, d3, OF_B)
    ensures Committed(d3, "b", k.gated.Keys, k.identity, SENT_BACK, false, "t") == Ok(d4)
    ensures IsChain(d4, ["a", "b"]) && LeadsTo(d3, ["a"], "b") && !Fits(d3, k.refineCap, "b")
  {
    NamesDiffer();
    d1 := Db(map["a" := Row("a")], map["op-a" := OF_A], [], []);
    d2 := d1.(artifacts := map["a" := Row("a").(status := Revised)]);
    d3 := Db(d2.artifacts["b" := Row("b")], d2.operations["op-b" := OF_B], [], []);
    d4 := d3.(artifacts := d3.artifacts["b" := Row("b").(status := Revised)]);
    hide Committed, RevisedParent, OperationsInto;
    assert !IsRevised(d1, "b");
    SentBack(k, d1, "a");
    assert d1.artifacts["a" := Row("a").(status := Revised)] == d2.artifacts;
    SentBack(k, d3, "b");
    assert d4.operations == map["op-a" := OF_A, "op-b" := OF_B];
    ParentOfA(d3);
    ParentOfA(d4);
  }

  lemma NamesDiffer()
    ensures "a" != "b" && "op-a" != "op-b"
  {
    assert "a"[0] != "b"[0] && "op-a"[3] != "op-b"[3];
  }

  lemma SentBack(k: Kernel, db: Db, id: Id)
    requires id in db.artifacts && db.artifacts[id] == Row(id)
    requires "T" in k.gated && k.identity != "proposer"
    ensures Committed(db, id, k.gated.Keys, k.identity, SENT_BACK, false, "t")
      == Ok(db.(artifacts := db.artifacts[id := Row(id).(status := Revised)]))
  {
    assert RowsOf(id, [], "t") == [] && db.decisions + [] == db.decisions;
    assert db.(decisions := db.decisions) == db;
  }

  lemma ParentOfA(db: Db)
    requires db.operations == map["op-a" := OF_A, "op-b" := OF_B]
    ensures RevisedParent(db, "a") == Some("b")
  {
    OnlyOne(db.operations);
  }

  lemma OnlyOne(ops: map<Id, Operation>)
    requires ops == map["op-a" := OF_A, "op-b" := OF_B]
    ensures OperationsInto(ops, "a") == [OF_A] && RevisesOnly(OperationsInto(ops, "a")) == [OF_A]
  {
    assert "a" != "b" by { assert "a"[0] != "b"[0]; }
    assert Into(ops, "a") == {"op-a"};
    var into := OperationsInto(ops, "a");
    assert |into| == 1 && into[0] in into;
    assert [OF_A][1..] == [];
  }
}
