/** The EXPLAIN physical operator: a leaf node holding the textual forms of a
    query's plans, fixed at construction, which it emits from its single
    partition as one batch of two string columns (plan type, plan text).
 */
module Explain {
  import opened Results
  import Arrow
  import opened PhysicalPlan

  /** One stage of a plan as text: the stage label (the plan type, already
      rendered to a string) and the plan rendered at that stage */
  datatype StringifiedPlan = StringifiedPlan(planType: string, plan: string)

  /** The operator's state: its output schema and the plans to print, in order */
  datatype ExplainExec = ExplainExec(schema: Arrow.Schema, stringifiedPlans: seq<StringifiedPlan>)

  /** A node of a physical plan tree. Operators other than EXPLAIN are not
      part of this model; `OtherNode` stands for any of them, so that a list
      of children can be written down. */
  datatype PlanNode =
    | ExplainNode(exec: ExplainExec)
    | OtherNode(name: string, schema: Arrow.Schema, children: seq<PlanNode>)

  /** The schema this node outputs: with the stored plans it rebuilds the node */
  function GetSchema(e: ExplainExec): (s: Arrow.Schema)
    ensures ExplainExec(s, e.stringifiedPlans) == e
  {
    e.schema
  }

  /** The plans this node prints: with the schema it rebuilds the node */
  function StringifiedPlans(e: ExplainExec): (ps: seq<StringifiedPlan>)
    ensures ExplainExec(e.schema, ps) == e
  {
    e.stringifiedPlans
  }

  /** Creates the node; both arguments are kept verbatim */
  function New(schema: Arrow.Schema, stringifiedPlans: seq<StringifiedPlan>): (e: ExplainExec)
    ensures GetSchema(e) == schema
    ensures StringifiedPlans(e) == stringifiedPlans
  {
    ExplainExec(schema, stringifiedPlans)
  }

  /** A leaf: no inputs, whatever the node holds */
  function Children(e: ExplainExec): (cs: seq<PlanNode>)
    ensures |cs| == 0
  {
    []
  }

  /** Always a single partition */
  function OutputPartitioning(e: ExplainExec): (p: Partitioning)
    ensures p.UnknownPartitioning? && PartitionCount(p) == 1
  {
    UnknownPartitioning(1)
  }

  /** Replacing the children succeeds only with no children, and then yields
      a copy of this node; any other list is an internal error. */
  function WithNewChildren(e: ExplainExec, children: seq<PlanNode>): (r: Result<PlanNode>)
    ensures r.Ok? <==> |children| == 0
    ensures r.Ok? ==> r.value.ExplainNode?
    ensures r.Ok? ==> GetSchema(r.value.exec) == GetSchema(e)
    ensures r.Ok? ==> StringifiedPlans(r.value.exec) == StringifiedPlans(e)
    ensures r.Err? ==> r.error == Internal
  {
    if |children| == 0 then Ok(ExplainNode(e))
    else Err(Internal)
  }

  /** The two columns the operator fills in a single pass over the plans,
      appending each entry's plan type to the first and its plan text to the
      second. */
  function BuildColumns(plans: seq<StringifiedPlan>): (cols: (Arrow.Column, Arrow.Column))
    ensures |cols.0| == |plans| && |cols.1| == |plans|
    ensures forall i :: 0 <= i < |plans| ==> cols.0[i] == plans[i].planType
    ensures forall i :: 0 <= i < |plans| ==> cols.1[i] == plans[i].plan
  {
    if |plans| == 0 then ([], [])
    else
      var (types, texts) := BuildColumns(plans[..|plans| - 1]);
      var last := plans[|plans| - 1];
      (types + [last.planType], texts + [last.plan])
  }

  /** Runs one partition. Any partition but 0 is an internal error raised
      before any work; partition 0 yields a stream of exactly one batch whose
      rows are the stored plans in order, or the columnar library's error
      when the schema does not describe two string columns. */
  function Execute(e: ExplainExec, partition: nat): (r: Result<Stream>)
    ensures partition != 0 ==> r == Err(Internal)
    ensures partition == 0 ==> (r.Ok? <==> Arrow.TwoStringColumns(e.schema))
    ensures partition == 0 && r.Err? ==> r.error == ArrowError
    ensures r.Ok? ==> r.value.schema == e.schema && |r.value.batches| == 1
    ensures r.Ok? ==> forall b :: b in r.value.batches ==> b.schema == e.schema
    ensures r.Ok? ==> var b := r.value.batches[0];
      && |b.columns| == 2
      && Arrow.NumRows(b) == |e.stringifiedPlans|
      && |b.columns[0]| == |e.stringifiedPlans|
      && |b.columns[1]| == |e.stringifiedPlans|
      && (forall i :: 0 <= i < |e.stringifiedPlans| ==>
            b.columns[0][i] == e.stringifiedPlans[i].planType
            && b.columns[1][i] == e.stringifiedPlans[i].plan)
  {
    if partition != 0 then Err(Internal)
    else
      var (types, texts) := BuildColumns(e.stringifiedPlans);
      var batch :- Arrow.TryNewRecordBatch(e.schema, [types, texts]);
      Ok(Stream(e.schema, [batch]))
  }

  /** The one-line description shown in plan displays */
  function FmtAs(e: ExplainExec, t: DisplayFormatType): (s: string)
    ensures s == "ExplainExec"
  {
    match t
    case Default => "ExplainExec"
  }
}
