/** Properties of the EXPLAIN operator that relate several of its operations:
    reading the emitted batch back, the agreement between the partitioning it
    declares and the partitions it executes, and child replacement. */
module ExplainProperties {
  import opened Results
  import Arrow
  import opened PhysicalPlan
  import opened Explain

  /** Reads a two-column batch back as plan entries, row by row */
  function BatchRows(b: Arrow.RecordBatch): (rows: seq<StringifiedPlan>)
    requires |b.columns| == 2 && |b.columns[0]| == |b.columns[1]|
    ensures |rows| == Arrow.NumRows(b)
  {
    seq(|b.columns[0]|, i requires 0 <= i < |b.columns[0]| => StringifiedPlan(b.columns[0][i], b.columns[1][i]))
  }

  /** Executing partition 0 and reading the batch back gives exactly the
      stored plans, in order: nothing is lost, added or reordered. */
  lemma ExecuteRowsRoundTrip(e: ExplainExec)
    requires Arrow.TwoStringColumns(GetSchema(e))
    ensures Execute(e, 0).Ok?
    ensures var b := Execute(e, 0).value.batches[0];
      |b.columns| == 2 && |b.columns[0]| == |b.columns[1]| && BatchRows(b) == StringifiedPlans(e)
  {
  }

  /** `execute` succeeds for exactly the partition indices below the count
      that `output_partitioning` declares, provided the schema describes two
      string columns; for any other index it is an internal error. */
  lemma ExecuteMatchesPartitioning(e: ExplainExec, partition: nat)
    ensures Execute(e, partition).Ok? <==>
      partition < PartitionCount(OutputPartitioning(e)) && Arrow.TwoStringColumns(GetSchema(e))
    ensures partition >= PartitionCount(OutputPartitioning(e)) ==> Execute(e, partition) == Err(Internal)
  {
  }

  /** The copy that child replacement returns behaves like the original:
      same schema, plans, children, partitioning, display and output on
      every partition. */
  lemma WithNoChildrenBehavesAlike(e: ExplainExec)
    ensures WithNewChildren(e, []).Ok?
    ensures var c := WithNewChildren(e, []).value;
      && c.ExplainNode?
      && GetSchema(c.exec) == GetSchema(e)
      && StringifiedPlans(c.exec) == StringifiedPlans(e)
      && Children(c.exec) == Children(e)
      && OutputPartitioning(c.exec) == OutputPartitioning(e)
      && FmtAs(c.exec, Default) == FmtAs(e, Default)
      && (forall p: nat :: Execute(c.exec, p) == Execute(e, p))
  {
  }

  /** Giving a node back its own children is the identity */
  lemma WithOwnChildrenIsIdentity(e: ExplainExec)
    ensures WithNewChildren(e, Children(e)) == Ok(ExplainNode(e))
  {
  }

  /** The conventional EXPLAIN schema: plan type, then plan text */
  function ExplainSchema(): (s: Arrow.Schema)
    ensures Arrow.TwoStringColumns(s)
  {
    Arrow.Schema([Arrow.Field("plan_type", Arrow.Utf8, false), Arrow.Field("plan", Arrow.Utf8, false)])
  }

  /** Two stages, a logical and a physical plan, come out as two rows in
      stage order, plan types in the first column and plan texts in the
      second. */
  lemma TwoStageExplain()
    ensures var e := New(ExplainSchema(), [StringifiedPlan("logical_plan", "Projection: a"),
                                           StringifiedPlan("physical_plan", "ExplainExec")]);
      && Execute(e, 0).Ok?
      && Execute(e, 0).value.batches ==
         [Arrow.RecordBatch(ExplainSchema(), [["logical_plan", "physical_plan"], ["Projection: a", "ExplainExec"]])]
  {
    var e := New(ExplainSchema(), [StringifiedPlan("logical_plan", "Projection: a"),
                                   StringifiedPlan("physical_plan", "ExplainExec")]);
    var b := Execute(e, 0).value.batches[0];
    assert b.columns[0] == ["logical_plan", "physical_plan"];
    assert b.columns[1] == ["Projection: a", "ExplainExec"];
  }
}
