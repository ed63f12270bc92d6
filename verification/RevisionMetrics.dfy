/** The seven counters that a curation revision packet may carry, re-checked where the packet is built. */
module RevisionMetrics {
  import opened Wrappers

  datatype Field =
    | ConfoundedTasks | IsolatedUnverified | IsolatedFailed | IsolatedTasks | IsolatedSuccess | IsolatedWaiting
    | UniqueTasks | Unexpected(name: string)

  type Metrics = map<Field, int>

  datatype MetricsError = MetricsInvalid | PartitionInvalid

  const FIELDS: seq<Field> :=
    [ConfoundedTasks, IsolatedUnverified, IsolatedFailed, IsolatedTasks, IsolatedSuccess, IsolatedWaiting, UniqueTasks]

  const FIELD_SET: set<Field> :=
    {ConfoundedTasks, IsolatedUnverified, IsolatedFailed, IsolatedTasks, IsolatedSuccess, IsolatedWaiting, UniqueTasks}

  predicate Balanced(metrics: Metrics)
    requires metrics.Keys == FIELD_SET
  {
    && metrics[IsolatedTasks] + metrics[ConfoundedTasks] == metrics[UniqueTasks]
    && metrics[IsolatedSuccess] + metrics[IsolatedFailed] + metrics[IsolatedWaiting] + metrics[IsolatedUnverified]
       <= metrics[IsolatedTasks]
  }

  lemma FieldsAreListed(f: Field)
    ensures f in FIELD_SET <==> f in FIELDS
  {
  }

  /** Copy some fields one by one, refusing a negative value. */
  method Normalize(metrics: Metrics, fields: seq<Field>) returns (r: Result<Metrics, MetricsError>)
    requires forall f | f in fields :: f in metrics
    ensures r.Ok? <==> forall f | f in fields :: metrics[f] >= 0
    ensures r.Ok? ==> (forall f :: f in r.value <==> f in fields) && forall f | f in fields :: r.value[f] == metrics[f]
    ensures r.Err? ==> r.error == MetricsInvalid
  {
    var normalized: Metrics := map[];
    for i := 0 to |fields|
      invariant forall f :: f in normalized <==> f in fields[..i]
      invariant forall f | f in normalized :: f in metrics && normalized[f] == metrics[f] && metrics[f] >= 0
    {
      assert fields[i] in fields;
      if metrics[fields[i]] < 0 {
        return Err(MetricsInvalid);
      }
      normalized := normalized[fields[i] := metrics[fields[i]]];
      assert fields[..i + 1] == fields[..i] + [fields[i]];
    }
    assert fields[..|fields|] == fields;
    r := Ok(normalized);
  }

  /** The exact fields, no negative value, and the two partitions. */
  method ValidateRevisionMetrics(metrics: Metrics) returns (r: Result<Metrics, MetricsError>)
    ensures r.Ok? <==>
      metrics.Keys == FIELD_SET && (forall f | f in FIELD_SET :: metrics[f] >= 0) && Balanced(metrics)
    ensures r.Ok? ==> r.value == metrics
    ensures r == Err(PartitionInvalid) ==>
      metrics.Keys == FIELD_SET && (forall f | f in FIELD_SET :: metrics[f] >= 0) && !Balanced(metrics)
  {
    if metrics.Keys != FIELD_SET {
      return Err(MetricsInvalid);
    }
    forall f ensures f in metrics <==> f in FIELDS { FieldsAreListed(f); }
    var normalized :- Normalize(metrics, FIELDS);
    assert normalized == metrics;
    r := if Balanced(normalized) then Ok(normalized) else Err(PartitionInvalid);
  }
}
