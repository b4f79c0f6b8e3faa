# EXPLAIN physical operator

A functional model of `ExplainExec`, the physical operator that answers an
`EXPLAIN` query. It is a leaf of the physical plan tree. It holds the
schema it outputs and an ordered list of stringified plans. Each entry is
a stage label (the plan type) and the plan's text at that stage. Both are
fixed when the node is created. Executing its single partition emits the
list as one record batch with two string columns: plan types first, plan
texts second, one row per entry, in list order.

The model has five modules:

- `Results` (`results.dfy`): the error kinds the operator can raise and a `Result` type.
- `Arrow` (`arrow.dfy`): the slice of the columnar library the operator uses. This is a schema of typed fields, string columns, and the validating batch constructor.
- `PhysicalPlan` (`physical_plan.dfy`): the partitioning descriptor, the display format, and a stream modelled as its fully materialized list of batches.
- `Explain` (`explain.dfy`): the operator itself, with `new`, `stringified_plans`, `schema`, `children`, `output_partitioning`, `with_new_children`, `execute` and `fmt_as`.
- `ExplainProperties` (`explain_properties.dfy`): lemmas relating those operations.

## Model

| member | source | states |
|---|---|---|
| Explain.New | datafusion/src/physical_plan/explain.rs:50-60 | the node's `schema` and `stringified_plans` accessors return the constructor's arguments unchanged |
| Explain.GetSchema | datafusion/src/physical_plan/explain.rs:75-77 | returns the schema the node holds; together with the stored plans it rebuilds the node exactly |
| Explain.StringifiedPlans | datafusion/src/physical_plan/explain.rs:57-60 | returns the plans the node holds, in order; together with the schema it rebuilds the node exactly |
| Explain.Children | datafusion/src/physical_plan/explain.rs:79-82 | a leaf: the children list is empty for every node |
| Explain.OutputPartitioning | datafusion/src/physical_plan/explain.rs:85-87 | the declared partitioning is always `UnknownPartitioning` with exactly one partition |
| Explain.WithNewChildren | datafusion/src/physical_plan/explain.rs:89-101 | succeeds if and only if the new children list is empty. On success it returns an EXPLAIN node with the same schema and the same plans. Any non-empty list is an `Internal` error |
| Explain.BuildColumns | datafusion/src/physical_plan/explain.rs:111-117 | the single pass over the plans yields two columns, each as long as the list. Row `i` of the first holds entry `i`'s plan type, and row `i` of the second holds entry `i`'s plan text |
| Explain.Execute | datafusion/src/physical_plan/explain.rs:103-131 | any partition other than 0 is an `Internal` error, with no stream. Partition 0 succeeds if and only if the schema has two string fields; otherwise the batch constructor's error propagates. On success the stream and its batches all carry the node's schema, and there is exactly one batch. That batch has two columns and one row per plan, with plan types and plan texts in list order |
| Explain.FmtAs | datafusion/src/physical_plan/explain.rs:133-143 | the default display of every EXPLAIN node is exactly `ExplainExec` |
| Arrow.TryNewRecordBatch | datafusion/src/physical_plan/explain.rs:119-125 | the batch is built if and only if the columns conform to the schema. On success it keeps the schema and the columns as given, and every column has the batch's row count. Otherwise the result is an `ArrowError` |
| Arrow.TwoColumnsConform | datafusion/src/physical_plan/explain.rs:119-125 | two equal-length string columns conform to a schema exactly when that schema has two string-typed fields |
| ExplainProperties.ExecuteRowsRoundTrip | datafusion/src/physical_plan/explain.rs:111-130 | reading the emitted batch back row by row gives exactly the stored plans, in order |
| ExplainProperties.ExecuteMatchesPartitioning | datafusion/src/physical_plan/explain.rs:85-109 | `execute` succeeds exactly for the indices below the declared partition count, given a two-string-column schema. Every index at or above that count is an `Internal` error |
| ExplainProperties.WithNoChildrenBehavesAlike | datafusion/src/physical_plan/explain.rs:93-94 | the copy returned for an empty children list agrees with the original on every operation. That covers schema, plans, children, partitioning, display and the result of `execute` on every partition |
| ExplainProperties.WithOwnChildrenIsIdentity | datafusion/src/physical_plan/explain.rs:79-94 | replacing the node's children with its own children returns the same node |
| ExplainProperties.TwoStageExplain | datafusion/src/physical_plan/explain.rs:111-130 | a logical-plan entry followed by a physical-plan entry comes out as the batch `[["logical_plan","physical_plan"],["Projection: a","ExplainExec"]]` under the conventional `plan_type`/`plan` schema |

## Left out

- Asynchrony and the stream object: `execute` is asynchronous and returns a pinned `SizedRecordBatchStream`. The stream is modelled as the list of batches it replays, together with its schema. Polling, cancellation and the stream helper in `common.rs` are not part of this model.
- Arrow.TryNewRecordBatch: the columnar library is not part of this model. The validation it states is the library's check that there is at least one column, one column per field, columns of one length and string-typed fields; every failure is the same `ArrowError`. Nullability is not checked because string builders produce no nulls. The library's other failure modes are not modelled.
- Explain.BuildColumns: the string builders' `append_value` can fail inside the columnar library, for example on offset overflow. That code lives in the columnar library, outside this model, so the model treats appending as always succeeding. The builders' initial capacity has no observable effect and is dropped.
- Serialization: the type-tagged serde registration (`#[typetag::serde(name = "explain_exec")]`) is code generated by the `typetag` and `serde` macros, outside this model, so no encode/decode round trip is modelled.
- Downcasting: `as_any` and `as_mut_any` expose runtime type identity only and state no behaviour.
- `feed_batches`: the push-feed hook panics via `unimplemented!()`. A panic is neither a result nor an error, so it is not modelled.
- Error messages: both errors carry a message built from the node's Debug rendering or the partition index. Only the error kind is modelled.
- Plan type: the conversion from `PlanType` to its label string lives in `logical_plan`, which is not part of this model. Each entry holds its label as an opaque string.
- Partitioning: the descriptor's variants come from the physical plan module, which is not part of this model. Hash partitioning is modelled with column names instead of expressions. Only the partition count is used.
- Shared ownership: `Arc` and `SchemaRef` sharing is modelled by value. Cloning a node is therefore equality.
