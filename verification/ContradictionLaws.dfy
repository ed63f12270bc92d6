/** What the contradiction checker accepts, and what every run of `record` keeps. */
module ContradictionLaws {
  import opened Names
  import opened Wrappers
  import opened HashChain
  import opened LearningStore
  import opened Checkpoint
  import opened Contradictions

  // ---------- The meaning of the one-pass checker ----------

  /** Chain, numbering, per-row validation and candidate bindings are all as they should be. */
  predicate SoundRow(rows: seq<Row>, i: nat, store: Store)
    requires i < |rows|
  {
    && rows[i].body.number == i + 1
    && Links(rows, i)
    && rows[i].body.Intact()
    && BindingOf(store, rows[i].body.identity.candidateId) == Some(rows[i].body.identity.binding)
  }

  predicate SoundRows(rows: seq<Row>, store: Store) {
    forall i | 0 <= i < |rows| :: SoundRow(rows, i, store)
  }

  /** Every event but the last is open, the first is open, and all share one transition identity. */
  predicate Lifecycle(history: seq<Row>) {
    && (history != [] ==> history[0].body.status.Open?)
    && (forall i | 0 <= i < |history| - 1 :: history[i].body.status.Open?)
    && (forall i | 0 <= i < |history| :: history[i].body.identity == history[0].body.identity)
  }

  predicate Extendable(history: seq<Row>, row: Row) {
    if history == [] then row.body.status.Open?
    else history[|history| - 1].body.status.Open? && history[|history| - 1].body.identity == row.body.identity
  }

  lemma LifecycleExtends(history: seq<Row>, row: Row)
    ensures Lifecycle(history + [row]) <==> Lifecycle(history) && Extendable(history, row)
  {
    var grown := history + [row];
    if Lifecycle(grown) {
      assert forall i | 0 <= i < |history| :: grown[i] == history[i];
      if history != [] {
        assert grown[|history| - 1].body.status.Open?;
        assert grown[|history|].body.identity == grown[0].body.identity;
      }
    }
  }

  lemma {:induction false} StatesAreLatest(rows: seq<Row>, id: Name)
    requires forall i | 0 <= i < |rows| :: rows[i].body.Intact()
    ensures id in StatesAfter(rows) <==> RowsOf(rows, id) != []
    ensures id in StatesAfter(rows) ==> StatesAfter(rows)[id] == RowsOf(rows, id)[|RowsOf(rows, id)| - 1].body
    ensures forall r | r in RowsOf(rows, id) :: r.body.identity.id == id
  {
    if rows != [] {
      StatesAreLatest(rows[..|rows| - 1], id);
    }
  }

  lemma RowFailuresMeaning(rows: seq<Row>, store: Store)
    requires rows != []
    requires forall i | 0 <= i < |rows| - 1 :: rows[i].body.Intact()
    ensures var n := |rows| - 1;
            RowFailures(rows[n], n + 1, Head(rows[..n]), StatesAfter(rows[..n]), store) == [] <==>
              SoundRow(rows, n, store) && Extendable(RowsOf(rows[..n], rows[n].body.identity.id), rows[n])
  {
    var n := |rows| - 1;
    NoRowFailures(rows[n], n + 1, Head(rows[..n]), StatesAfter(rows[..n]), store);
    NoLifecycleFailures(rows[..n], rows[n]);
  }

  lemma NoRowFailures(row: Row, expected: nat, previous: Digest<EventBody>, states: map<Name, EventBody>, store: Store)
    ensures RowFailures(row, expected, previous, states, store) == [] <==>
              && row.body.number == expected && row.previous == previous && Sha(row.body, row.previous) == row.digest
              && row.body.Intact() && LifecycleFailures(row.body, states) == []
              && BindingOf(store, row.body.identity.candidateId) == Some(row.body.identity.binding)
  {
  }

  lemma NoLifecycleFailures(rows: seq<Row>, row: Row)
    requires forall i | 0 <= i < |rows| :: rows[i].body.Intact()
    ensures LifecycleFailures(row.body, StatesAfter(rows)) == [] <==>
              Extendable(RowsOf(rows, row.body.identity.id), row)
  {
    StatesAreLatest(rows, row.body.identity.id);
  }

  lemma {:induction false} FailuresMeaning(rows: seq<Row>, store: Store)
    ensures FailuresOf(rows, store) == [] <==>
              SoundRows(rows, store) && AllLifecycles(rows)
  {
    if rows != [] {
      var n := |rows| - 1;
      FailuresMeaning(rows[..n], store);
      PrefixIsSound(rows, store);
      LifecyclesExtend(rows);
      if FailuresOf(rows[..n], store) == [] {
        forall i | 0 <= i < n ensures rows[i].body.Intact() {
          assert SoundRow(rows[..n], i, store);
        }
        RowFailuresMeaning(rows, store);
      }
    }
  }

  lemma PrefixIsSound(rows: seq<Row>, store: Store)
    requires rows != []
    ensures SoundRows(rows, store) <==> SoundRows(rows[..|rows| - 1], store) && SoundRow(rows, |rows| - 1, store)
  {
    var front := rows[..|rows| - 1];
    forall i | 0 <= i < |front| ensures SoundRow(front, i, store) <==> SoundRow(rows, i, store) {
      assert front[..i] == rows[..i];
    }
  }

  ghost predicate AllLifecycles(rows: seq<Row>) {
    forall id :: Lifecycle(RowsOf(rows, id))
  }

  lemma HistoryExtends(rows: seq<Row>, id: Name)
    requires rows != []
    ensures var n := |rows| - 1;
            RowsOf(rows, id) == RowsOf(rows[..n], id) + if rows[n].body.identity.id == id then [rows[n]] else []
  {
  }

  lemma LifecyclesExtend(rows: seq<Row>)
    requires rows != []
    ensures var n := |rows| - 1;
            AllLifecycles(rows) <==>
              AllLifecycles(rows[..n]) && Extendable(RowsOf(rows[..n], rows[n].body.identity.id), rows[n])
  {
    var n := |rows| - 1;
    var own := rows[n].body.identity.id;
    LifecycleExtends(RowsOf(rows[..n], own), rows[n]);
    HistoryExtends(rows, own);
    if AllLifecycles(rows) {
      assert Lifecycle(RowsOf(rows, own));
      forall id ensures Lifecycle(RowsOf(rows[..n], id)) {
        HistoryExtends(rows, id);
        assert Lifecycle(RowsOf(rows, id));
        if id != own { assert RowsOf(rows, id) == RowsOf(rows[..n], id); }
      }
    }
    if AllLifecycles(rows[..n]) && Extendable(RowsOf(rows[..n], own), rows[n]) {
      forall id ensures Lifecycle(RowsOf(rows, id)) {
        HistoryExtends(rows, id);
        assert Lifecycle(RowsOf(rows[..n], id));
        if id != own { assert RowsOf(rows, id) == RowsOf(rows[..n], id); }
      }
    }
  }

  /**
    The checker passes exactly on tables of bounded length whose rows are sound and whose
    every contradiction is a run of open events followed by at most one terminal event.
  */
  lemma CheckerMeaning(rows: seq<Row>, store: Store)
    ensures Check(rows, store) == [] <==>
              |rows| <= MAX_EVENTS && SoundRows(rows, store) && AllLifecycles(rows)
  {
    FailuresMeaning(rows, store);
  }

  // ---------- One open event, or one open and one terminal event ----------

  predicate StrictLifecycle(history: seq<Row>) {
    && Lifecycle(history)
    && |history| <= 2
    && (|history| == 2 ==> !history[1].body.status.Open?)
  }

  /** No open row follows another row of the same contradiction. */
  predicate NoReopening(rows: seq<Row>) {
    forall i, j | 0 <= i < j < |rows| ::
      rows[j].body.status.Open? ==> rows[i].body.identity.id != rows[j].body.identity.id
  }

  lemma {:induction false} HistoryMembers(rows: seq<Row>, id: Name)
    ensures RowsOf(rows, id) != [] <==> exists i :: 0 <= i < |rows| && rows[i].body.identity.id == id
    ensures forall r | r in RowsOf(rows, id) :: r.body.identity.id == id && r in rows
  {
    if rows != [] {
      var n := |rows| - 1;
      HistoryMembers(rows[..n], id);
      if RowsOf(rows[..n], id) != [] {
        var i :| 0 <= i < n && rows[..n][i].body.identity.id == id;
        assert rows[i].body.identity.id == id;
      }
    }
  }

  ghost predicate AllStrict(rows: seq<Row>) {
    forall id :: StrictLifecycle(RowsOf(rows, id))
  }

  lemma StrictExtends(rows: seq<Row>)
    requires rows != [] && AllLifecycles(rows)
    ensures var n := |rows| - 1;
            AllStrict(rows) <==>
              AllStrict(rows[..n])
              && (rows[n].body.status.Open? ==> RowsOf(rows[..n], rows[n].body.identity.id) == [])
  {
    var n := |rows| - 1;
    var own := rows[n].body.identity.id;
    var history := RowsOf(rows[..n], own);
    HistoryExtends(rows, own);
    LifecyclesExtend(rows);
    assert Lifecycle(RowsOf(rows, own)) && Lifecycle(history);
    assert history != [] ==> (history + [rows[n]])[|history| - 1].body.status.Open?;
    if AllStrict(rows) {
      assert StrictLifecycle(RowsOf(rows, own));
      forall id ensures StrictLifecycle(RowsOf(rows[..n], id)) {
        HistoryExtends(rows, id);
        assert StrictLifecycle(RowsOf(rows, id));
        if id != own { assert RowsOf(rows, id) == RowsOf(rows[..n], id); }
      }
    }
    if AllStrict(rows[..n]) && (rows[n].body.status.Open? ==> history == []) {
      assert StrictLifecycle(history);
      forall id ensures StrictLifecycle(RowsOf(rows, id)) {
        HistoryExtends(rows, id);
        assert StrictLifecycle(RowsOf(rows[..n], id));
        if id != own { assert RowsOf(rows, id) == RowsOf(rows[..n], id); }
      }
    }
  }

  /**
    A passing table has strict histories exactly when no contradiction is opened twice; the
    checker itself does not look for a second open event.
  */
  lemma {:induction false} StrictExactlyWithoutReopening(rows: seq<Row>)
    requires AllLifecycles(rows)
    ensures AllStrict(rows) <==> NoReopening(rows)
  {
    if rows != [] {
      LifecyclesExtend(rows);
      StrictExactlyWithoutReopening(rows[..|rows| - 1]);
      StrictExtends(rows);
      ReopeningExtends(rows);
    }
  }

  lemma ReopeningExtends(rows: seq<Row>)
    requires rows != []
    ensures var n := |rows| - 1;
            NoReopening(rows) <==>
              NoReopening(rows[..n]) && (rows[n].body.status.Open? ==> RowsOf(rows[..n], rows[n].body.identity.id) == [])
  {
    var n := |rows| - 1;
    HistoryMembers(rows[..n], rows[n].body.identity.id);
    assert forall i | 0 <= i < n :: rows[..n][i] == rows[i];
  }
}
