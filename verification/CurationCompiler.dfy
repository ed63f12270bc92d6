/** Compiling a snapshot into proposals, between two verifications of the checkpoint. */
module CurationCompiler {
  import opened Names
  import opened Wrappers
  import opened Steadiness
  import opened Counting
  import opened Ordering
  import opened HashChain
  import opened LearningStore
  import opened Checkpoint
  import opened CheckpointLaws
  import opened CheckpointRuns
  import opened Curation
  import E = Effectiveness

  // ---------- Looking at a changing system ----------

  /** Some process verifies the system and is told that it stands at this checkpoint. */
  ghost predicate StandsAt(sys: System, cfg: Config, digest: Digest<Signed>) {
    exists keyring :: VerifyStore(sys, cfg, keyring).Ok? && VerifyStore(sys, cfg, keyring).value.digest == digest
  }

  ghost function Standing(cfg: Config): (System, Digest<Signed>) -> bool {
    (sys: System, digest: Digest<Signed>) => StandsAt(sys, cfg, digest)
  }

  ghost function StorePart(): System -> Store {
    (sys: System) => sys.store
  }

  /** Verifications that name the same checkpoint enclose looks at one and the same store. */
  ghost predicate Steady(views: nat -> System, cfg: Config) {
    SteadyBy(views, Standing(cfg), StorePart())
  }

  ghost predicate Chronological(moments: nat -> nat, last: nat) {
    forall i: nat, j: nat | i <= j :: moments(i) <= moments(j) <= last
  }

  /** Looks at the successive states of a run. */
  ghost function Looks(start: System, cfg: Config, calls: seq<Call>, moments: nat -> nat): nat -> System
    requires ValidCalls(calls) && Chronological(moments, |calls|)
  {
    (k: nat) => Run(start, cfg, calls[..moments(k)])
  }

  /** Whatever other processes do, looks at one run are steady. */
  lemma RunsAreSteady(start: System, cfg: Config, calls: seq<Call>, moments: nat -> nat)
    requires Coherent(start, cfg) && ValidCalls(calls) && Chronological(moments, |calls|)
    ensures Steady(Looks(start, cfg, calls, moments), cfg)
  {
    var views := Looks(start, cfg, calls, moments);
    forall i: nat, j: nat, k: nat, digest |
      i <= j <= k && Standing(cfg)(views(i), digest) && Standing(cfg)(views(k), digest)
      ensures StorePart()(views(j)) == StorePart()(views(i))
    {
      RunGrows(start, cfg, calls, moments(i), moments(j));
      RunGrows(start, cfg, calls, moments(j), moments(k));
      EnclosedStore(views(i), views(j), views(k), cfg, digest);
    }
  }

  lemma EnclosedStore(first: System, middle: System, last: System, cfg: Config, digest: Digest<Signed>)
    requires Grows(middle, first) && Grows(last, middle)
    requires StandsAt(first, cfg, digest) && StandsAt(last, cfg, digest)
    ensures middle.store == first.store
  {
    var p :| VerifyStore(first, cfg, p).Ok? && VerifyStore(first, cfg, p).value.digest == digest;
    var q :| VerifyStore(last, cfg, q).Ok? && VerifyStore(last, cfg, q).value.digest == digest;
    StoreInBetween(first, middle, last, cfg, p, q);
  }

  lemma VerifiedSequence(sys: System, cfg: Config, keyring: Keyring)
    requires VerifyStore(sys, cfg, keyring).Ok?
    ensures VerifyStore(sys, cfg, keyring).value.body.fields.sequence >= 1
  {
    VerifyStoreMeaning(sys, cfg, keyring);
  }

  // ---------- Compiling ----------

  /** Signals that all speak of what is active in one store concern distinct items. */
  lemma OneSignalPerItem(order: seq<E.Signal>, signals: seq<E.Signal>, store: Store, texts: Texts)
    requires Arranged(order, signals)
    requires forall i | 0 <= i < |order| :: Targets(store, order[i], texts)
    ensures forall i, j | 0 <= i < j < |order| ::
              order[i].key.itemId != order[j].key.itemId && AtMost(order[i].key.itemId, order[j].key.itemId)
  {
  }

  /** The emitted list against the arranged signals. */
  ghost predicate Emitted(proposals: seq<Proposal>, order: seq<E.Signal>, source: SnapshotSha, views: nat -> System,
                          texts: Texts)
  {
    && |proposals| == |order|
    && forall i | 0 <= i < |order| :: ProposalFor(proposals[i], source, views(i + 1).store, order[i], texts)
  }

  /** A target's identity carries the item id that was asked for. */
  lemma ActiveIdentityNamesItem(store: Store, itemId: Name, texts: Texts)
    requires ActiveIdentity(store, itemId, texts).Ok?
    ensures ActiveIdentity(store, itemId, texts).value.itemId == itemId
  {
  }

  ghost predicate ItemsAscend(proposals: seq<Proposal>) {
    forall i, j | 0 <= i < j < |proposals| ::
      && proposals[i].content.active.itemId != proposals[j].content.active.itemId
      && AtMost(proposals[i].content.active.itemId, proposals[j].content.active.itemId)
  }

  /** After the loop the set's own order, duplicate and binding checks hold. */
  lemma EmittedSetIsValid(proposals: seq<Proposal>, order: seq<E.Signal>, source: SnapshotSha, views: nat -> System,
                          store: Store, signals: seq<E.Signal>, texts: Texts)
    requires Arranged(order, signals) && (forall signal | signal in signals :: SoundSignal(signal))
    requires Emitted(proposals, order, source, views, texts)
    requires forall k: nat | 1 <= k <= |order| :: views(k).store == store
    ensures ItemsAscend(proposals)
    ensures InOrder(proposals, ByProposal(texts)) && Distinct(ProposalIds(proposals))
    ensures forall p | p in proposals :: ValidateProposal(p).Ok? && p.content.source == source
  {
    OneSignalPerItem(order, signals, store, texts);
    forall i | 0 <= i < |order|
      ensures proposals[i].content.active.itemId == order[i].key.itemId
      ensures ValidateProposal(proposals[i]).Ok? && proposals[i].content.source == source
    {
      assert ProposalFor(proposals[i], source, views(i + 1).store, order[i], texts);
      ActiveIdentityNamesItem(store, order[i].key.itemId, texts);
      assert order[i] in signals;
      CreateNeverFails(source, store, order[i], texts);
      ProposalIsValid(proposals[i], source, store, order[i], texts);
    }
  }

  lemma ProposalIsValid(p: Proposal, source: SnapshotSha, store: Store, signal: E.Signal, texts: Texts)
    requires SoundSignal(signal) && ProposalFor(p, source, store, signal, texts)
    ensures ValidateProposal(p).Ok?
  {
  }

  /** Identity checks of one signal against the store as it now is, and its proposal. */
  method EmitProposal(store: Store, signal: E.Signal, source: SnapshotSha, texts: Texts) returns (r: Curated<Proposal>)
    requires SoundSignal(signal)
    ensures r.Ok? <==> Targets(store, signal, texts)
    ensures r.Ok? ==> ProposalFor(r.value, source, store, signal, texts)
    ensures r == Err(TargetShaMismatch) ==> ActiveIdentity(store, signal.key.itemId, texts).Ok?
  {
    var active :- ActiveIdentity(store, signal.key.itemId, texts);
    if active.sha != signal.key.sha {
      return Err(TargetShaMismatch);
    }
    if active.domain != signal.key.domain {
      return Err(TargetDomainMismatch);
    }
    CreateNeverFails(source, store, signal, texts);
    r := CreateProposal(source, active, signal);
  }

  /** One proposal for each signal, each from its own look at the store. */
  method EmitProposals(order: seq<E.Signal>, source: SnapshotSha, views: nat -> System, texts: Texts)
    returns (r: Curated<seq<Proposal>>)
    requires forall signal | signal in order :: SoundSignal(signal)
    ensures r.Ok? <==> forall i | 0 <= i < |order| :: Targets(views(i + 1).store, order[i], texts)
    ensures r.Ok? ==> Emitted(r.value, order, source, views, texts)
  {
    var proposals: seq<Proposal> := [];
    for i := 0 to |order|
      invariant |proposals| == i
      invariant forall k | 0 <= k < i :: ProposalFor(proposals[k], source, views(k + 1).store, order[k], texts)
    {
      assert order[i] in order;
      var proposal :- EmitProposal(views(i + 1).store, order[i], source, texts);
      proposals := proposals + [proposal];
    }
    r := Ok(proposals);
  }

  /** Two agreeing verifications around looks at which every signal hits its target. */
  ghost predicate TargetsHit(snapshot: E.Snapshot, views: nat -> System, cfg: Config, keyring: Keyring, texts: Texts) {
    var last := |snapshot.signals| + 1;
    && VerifyStore(views(0), cfg, keyring).Ok? && VerifyStore(views(last), cfg, keyring).Ok?
    && SameCheckpoint(VerifyStore(views(0), cfg, keyring).value, VerifyStore(views(last), cfg, keyring).value)
    && forall signal | signal in snapshot.signals :: Targets(views(0).store, signal, texts)
  }

  lemma OrderHits(order: seq<E.Signal>, signals: seq<E.Signal>, views: nat -> System, texts: Texts)
    requires Arranged(order, signals) && forall k: nat | k <= |order| + 1 :: views(k).store == views(0).store
    ensures (forall i | 0 <= i < |order| :: Targets(views(i + 1).store, order[i], texts))
            <==> (forall signal | signal in signals :: Targets(views(0).store, signal, texts))
  {
    if forall i | 0 <= i < |order| :: Targets(views(i + 1).store, order[i], texts) {
      forall signal | signal in signals ensures Targets(views(0).store, signal, texts) {
        assert signal in order;
        var i :| 0 <= i < |order| && order[i] == signal;
        assert Targets(views(i + 1).store, order[i], texts);
      }
    }
    if forall signal | signal in signals :: Targets(views(0).store, signal, texts) {
      forall i | 0 <= i < |order| ensures Targets(views(i + 1).store, order[i], texts) {
        assert order[i] in order;
      }
    }
  }

  /** The set that a successful compilation returns: one faithful proposal for each signal, in item order. */
  ghost predicate CompiledSet(s: ProposalSet, snapshot: E.Snapshot, order: seq<E.Signal>, views: nat -> System,
                              cfg: Config, keyring: Keyring, texts: Texts)
  {
    && Arranged(order, snapshot.signals)
    && s.source == ShaOfSnapshot(snapshot)
    && VerifyStore(views(0), cfg, keyring) == Ok(s.checkpoint)
    && ItemsAscend(s.proposals)
    && |s.proposals| == |order|
    && forall i | 0 <= i < |order| :: ProposalFor(s.proposals[i], s.source, views(0).store, order[i], texts)
  }

  /**
    Compile a snapshot. `views(k)` is the system at the k-th look: one verification, one look per
    signal, one verification. However the looks interleave with other calls, compiling succeeds
    exactly when the snapshot is sound and all its signals name what is active in the one store
    that both verifications authenticate; nothing fails after that.
  */
  method Compile(snapshot: E.Snapshot, views: nat -> System, cfg: Config, keyring: Keyring, texts: Texts)
    returns (r: Curated<ProposalSet>)
    requires Steady(views, cfg)
    ensures r.Ok? <==> SoundSnapshot(snapshot) && TargetsHit(snapshot, views, cfg, keyring, texts)
    ensures r.Ok? ==> exists order :: CompiledSet(r.value, snapshot, order, views, cfg, keyring, texts)
  {
    var identities := ValidateSnapshot(snapshot);
    if identities.Err? {
      return Err(identities.error);
    }
    var order := SortSignals(snapshot.signals, identities.value);
    var before := VerifyStore(views(0), cfg, keyring);
    if before.Err? {
      return Err(CheckpointRefused(before.error));
    }
    var source := ShaOfSnapshot(snapshot);
    LooksSeeOneStore(snapshot, order, views, cfg, keyring, texts);
    var proposals := EmitProposals(order, source, views, texts);
    if proposals.Err? {
      return Err(proposals.error);
    }
    var after := VerifyStore(views(|order| + 1), cfg, keyring);
    if after.Err? {
      return Err(CheckpointRefused(after.error));
    }
    if !SameCheckpoint(before.value, after.value) {
      return Err(CheckpointChanged);
    }
    r := ValidateSet(ProposalSet(source, before.value, proposals.value), texts);
    CompiledSetIsValid(ProposalSet(source, before.value, proposals.value), snapshot, order, views, cfg, keyring, texts);
  }

  lemma CompiledSetIsValid(s: ProposalSet, snapshot: E.Snapshot, order: seq<E.Signal>, views: nat -> System, cfg: Config,
                           keyring: Keyring, texts: Texts)
    requires Steady(views, cfg) && SoundSnapshot(snapshot) && Arranged(order, snapshot.signals)
    requires s.source == ShaOfSnapshot(snapshot) && Emitted(s.proposals, order, s.source, views, texts)
    requires VerifyStore(views(0), cfg, keyring) == Ok(s.checkpoint) && VerifyStore(views(|order| + 1), cfg, keyring).Ok?
    requires SameCheckpoint(s.checkpoint, VerifyStore(views(|order| + 1), cfg, keyring).value)
    ensures CompiledSet(s, snapshot, order, views, cfg, keyring, texts)
    ensures s.checkpoint.body.fields.sequence >= 1
    ensures InOrder(s.proposals, ByProposal(texts)) && Distinct(ProposalIds(s.proposals))
    ensures forall p | p in s.proposals :: ValidateProposal(p).Ok? && p.content.source == s.source
  {
    StoresStoodStill(views, cfg, keyring, |order| + 1);
    VerifiedSequence(views(0), cfg, keyring);
    EmittedSetIsValid(s.proposals, order, s.source, views, views(0).store, snapshot.signals, texts);
    forall i | 0 <= i < |order| ensures ProposalFor(s.proposals[i], s.source, views(0).store, order[i], texts) {
      assert ProposalFor(s.proposals[i], s.source, views(i + 1).store, order[i], texts);
    }
  }

  /** Target checks at different moments decide the same as target checks on the one authenticated store. */
  lemma LooksSeeOneStore(snapshot: E.Snapshot, order: seq<E.Signal>, views: nat -> System, cfg: Config, keyring: Keyring,
                         texts: Texts)
    requires Steady(views, cfg) && Arranged(order, snapshot.signals)
    ensures TargetsHit(snapshot, views, cfg, keyring, texts) <==>
              && VerifyStore(views(0), cfg, keyring).Ok? && VerifyStore(views(|order| + 1), cfg, keyring).Ok?
              && SameCheckpoint(VerifyStore(views(0), cfg, keyring).value, VerifyStore(views(|order| + 1), cfg, keyring).value)
              && forall i | 0 <= i < |order| :: Targets(views(i + 1).store, order[i], texts)
  {
    if VerifyStore(views(0), cfg, keyring).Ok? && VerifyStore(views(|order| + 1), cfg, keyring).Ok?
       && SameCheckpoint(VerifyStore(views(0), cfg, keyring).value, VerifyStore(views(|order| + 1), cfg, keyring).value)
    {
      StoresStoodStill(views, cfg, keyring, |order| + 1);
      OrderHits(order, snapshot.signals, views, texts);
    }
  }

  lemma StoresStoodStill(views: nat -> System, cfg: Config, keyring: Keyring, last: nat)
    requires Steady(views, cfg)
    requires VerifyStore(views(0), cfg, keyring).Ok? && VerifyStore(views(last), cfg, keyring).Ok?
    requires SameCheckpoint(VerifyStore(views(0), cfg, keyring).value, VerifyStore(views(last), cfg, keyring).value)
    ensures forall k: nat | k <= last :: views(k).store == views(0).store
  {
    var digest := VerifyStore(views(0), cfg, keyring).value.digest;
    assert StandsAt(views(0), cfg, digest) && StandsAt(views(last), cfg, digest);
    assert Standing(cfg)(views(0), digest) && Standing(cfg)(views(last), digest);
    forall k: nat | k <= last ensures views(k).store == views(0).store {
      SteadyAt(views, Standing(cfg), StorePart(), 0, k, last, digest);
    }
  }
}
