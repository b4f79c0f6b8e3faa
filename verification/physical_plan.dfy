/** The descriptors shared by every physical operator that the EXPLAIN
    operator reports through: partitioning, display format and the stream. */
module PhysicalPlan {
  import Arrow

  /** How an operator's output is split into partitions; every variant
      carries its partition count `n`. */
  datatype Partitioning =
    | RoundRobinBatch(n: nat)
    | Hash(columns: seq<string>, n: nat)
    | UnknownPartitioning(n: nat)

  /** The number of partitions `execute` accepts indices for */
  function PartitionCount(p: Partitioning): nat {
    p.n
  }

  /** The formats an operator can be displayed in */
  datatype DisplayFormatType = Default

  /** A partition's output, fully materialized: the schema it yields and its
      batches in the order they are produced */
  datatype Stream = Stream(schema: Arrow.Schema, batches: seq<Arrow.RecordBatch>)
}
