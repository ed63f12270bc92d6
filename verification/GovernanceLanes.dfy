/** Independence of parallel lanes: no shared authority, no overlapping write sets. */
module GovernanceLanes {
  import opened Wrappers
  import opened Counting

  type Path = string

  /** `writeSet` is None when the receipt's field is not a list; its entries are normalised. */
  datatype Lane = Lane(id: string, authority: string, writeSet: Option<seq<Path>>)

  datatype LaneError =
    | LaneIdEmpty | AuthorityEmpty | AuthorityShared(first: string, second: string) | WriteSetNotList
    | WriteSetEntryEmpty | WriteSetOverlap(path: Path, prior: Path, priorLane: string)

  predicate WritePathsOverlap(left: Path, right: Path) {
    left != "" && right != "" && (left == right || right + "/" <= left || left + "/" <= right)
  }

  /** `path` is the entry itself or lies below it. */
  predicate Owns(entry: Path, path: Path) {
    path == entry || entry + "/" <= path
  }

  function Writes(lane: Lane): seq<Path> {
    if lane.writeSet.Some? then lane.writeSet.value else []
  }

  /** All declared entries, in order. */
  function Declared(lanes: seq<Lane>): seq<Path> {
    if lanes == [] then [] else Declared(lanes[..|lanes| - 1]) + Writes(lanes[|lanes| - 1])
  }

  function Authorities(lanes: seq<Lane>): seq<string> {
    seq(|lanes|, i requires 0 <= i < |lanes| => lanes[i].authority)
  }

  predicate LaneSound(lane: Lane) {
    lane.id != "" && lane.authority != "" && lane.writeSet.Some? && forall path | path in lane.writeSet.value :: path != ""
  }

  ghost predicate Pairwise<T>(xs: seq<T>, related: (T, T) -> bool) {
    forall i, j | 0 <= i < j < |xs| :: related(xs[i], xs[j])
  }

  function Apart(): (Path, Path) -> bool {
    (a, b) => !WritePathsOverlap(a, b)
  }

  function Different(): (string, string) -> bool {
    (a, b) => a != b
  }

  ghost predicate Independent(lanes: seq<Lane>) {
    && (forall lane | lane in lanes :: LaneSound(lane))
    && Pairwise(Authorities(lanes), Different())
    && Pairwise(Declared(lanes), Apart())
  }

  /** Compare one new path with every owned one, then own it. */
  method ClaimPath(path: Path, laneId: string, owned: seq<(Path, string)>)
    returns (r: Result<seq<(Path, string)>, LaneError>)
    ensures r.Ok? <==> path != "" && forall i | 0 <= i < |owned| :: !WritePathsOverlap(path, owned[i].0)
    ensures r.Ok? ==> r.value == owned + [(path, laneId)]
    ensures r.Err? && r.error.WriteSetOverlap? ==>
              (r.error.prior, r.error.priorLane) in owned && WritePathsOverlap(path, r.error.prior)
  {
    if path == "" {
      return Err(WriteSetEntryEmpty);
    }
    for i := 0 to |owned|
      invariant forall k | 0 <= k < i :: !WritePathsOverlap(path, owned[k].0)
    {
      if WritePathsOverlap(path, owned[i].0) {
        assert owned[i] in owned;
        return Err(WriteSetOverlap(path, owned[i].0, owned[i].1));
      }
    }
    r := Ok(owned + [(path, laneId)]);
  }

  function PathsOf(owned: seq<(Path, string)>): seq<Path> {
    seq(|owned|, i requires 0 <= i < |owned| => owned[i].0)
  }

  /** Claim a lane's paths one after the other. */
  method ClaimPaths(lane: Lane, writes: seq<Path>, owned: seq<(Path, string)>)
    returns (r: Result<seq<(Path, string)>, LaneError>)
    requires Pairwise(PathsOf(owned), Apart())
    ensures r.Ok? <==> (forall path | path in writes :: path != "") && Pairwise(PathsOf(owned) + writes, Apart())
    ensures r.Ok? ==> PathsOf(r.value) == PathsOf(owned) + writes
  {
    var now := owned;
    for i := 0 to |writes|
      invariant PathsOf(now) == PathsOf(owned) + writes[..i]
      invariant forall k | 0 <= k < i :: writes[k] != ""
      invariant Pairwise(PathsOf(now), Apart())
    {
      assert writes[i] in writes;
      ghost var paths := PathsOf(now);
      var claimed := ClaimPath(writes[i], lane.id, now);
      assert forall k | 0 <= k < |now| :: (PathsOf(owned) + writes)[k] == paths[k] == now[k].0;
      if claimed.Err? {
        assert (PathsOf(owned) + writes)[|now|] == writes[i];
        return Err(claimed.error);
      }
      now := claimed.value;
      assert PathsOf(now) == paths + [writes[i]];
    }
    assert writes[..|writes|] == writes;
    r := Ok(now);
  }

  /** One pass over the lanes, carrying the authorities and the owned paths. */
  method ValidateLaneIndependence(lanes: seq<Lane>) returns (r: Result<seq<(Path, string)>, LaneError>)
    ensures r.Ok? <==> Independent(lanes)
    ensures r.Ok? ==> PathsOf(r.value) == Declared(lanes)
  {
    var authorities: map<string, string> := map[];
    var owned: seq<(Path, string)> := [];
    for i := 0 to |lanes|
      invariant Independent(lanes[..i])
      invariant authorities.Keys == set a | a in Authorities(lanes[..i])
      invariant PathsOf(owned) == Declared(lanes[..i])
    {
      var lane := lanes[i];
      IndependentGrows(lanes, i);
      if lane.id == "" {
        return Err(LaneIdEmpty);
      }
      if lane.authority == "" {
        return Err(AuthorityEmpty);
      }
      if lane.authority in authorities {
        return Err(AuthorityShared(authorities[lane.authority], lane.id));
      }
      authorities := authorities[lane.authority := lane.id];
      if lane.writeSet.None? {
        return Err(WriteSetNotList);
      }
      var claimed := ClaimPaths(lane, lane.writeSet.value, owned);
      if claimed.Err? {
        return Err(claimed.error);
      }
      owned := claimed.value;
    }
    assert lanes[..|lanes|] == lanes;
    r := Ok(owned);
  }

  /** Accepting one more lane, in terms of what the loop carries. */
  lemma IndependentGrows(lanes: seq<Lane>, i: nat)
    requires i < |lanes| && Independent(lanes[..i])
    ensures Authorities(lanes[..i + 1]) == Authorities(lanes[..i]) + [lanes[i].authority]
    ensures Declared(lanes[..i + 1]) == Declared(lanes[..i]) + Writes(lanes[i])
    ensures Independent(lanes[..i + 1]) <==>
              && LaneSound(lanes[i]) && lanes[i].authority !in Authorities(lanes[..i])
              && Pairwise(Declared(lanes[..i]) + Writes(lanes[i]), Apart())
    ensures Independent(lanes) ==> Independent(lanes[..i + 1])
  {
    assert lanes[..i + 1][..i] == lanes[..i];
    assert lanes[..i + 1] == lanes[..i] + [lanes[i]];
    var before, after := Authorities(lanes[..i]), Authorities(lanes[..i + 1]);
    assert after == before + [lanes[i].authority];
    if lanes[i].authority in before {
      var k :| 0 <= k < i && before[k] == lanes[i].authority;
      assert !Different()(after[k], after[i]);
    }
    DeclaredPrefix(lanes, i + 1);
    if Independent(lanes) {
      assert forall k | 0 <= k <= i :: after[k] == Authorities(lanes)[k];
    }
  }

  lemma {:induction false} DeclaredPrefix(lanes: seq<Lane>, i: nat)
    requires i <= |lanes|
    ensures Declared(lanes[..i]) <= Declared(lanes)
  {
    if i < |lanes| {
      var n := |lanes| - 1;
      DeclaredPrefix(lanes[..n], i);
      assert lanes[..n][..i] == lanes[..i];
    } else {
      assert lanes[..i] == lanes;
    }
  }

  // ---------- No two owners ----------

  /** A path below two entries makes the entries overlap. */
  lemma CommonPathMeansOverlap(a: Path, b: Path, path: Path)
    requires a != "" && b != "" && Owns(a, path) && Owns(b, path)
    ensures WritePathsOverlap(a, b)
  {
    if path != a && path != b {
      if |a| < |b| {
        assert a + "/" <= b by {
          assert forall k | 0 <= k <= |a| :: (a + "/")[k] == path[k];
          assert forall k | 0 <= k < |b| :: b[k] == (b + "/")[k] == path[k];
        }
      } else if |b| < |a| {
        assert b + "/" <= a by {
          assert forall k | 0 <= k <= |b| :: (b + "/")[k] == path[k];
          assert forall k | 0 <= k < |a| :: a[k] == (a + "/")[k] == path[k];
        }
      } else {
        assert a == (a + "/")[..|a|] && b == (b + "/")[..|b|];
        assert a == path[..|a|] && b == path[..|b|];
      }
    }
  }

  /** Some path has two owners. */
  ghost predicate SharedPath(entries: seq<Path>) {
    exists i, j, path :: 0 <= i < j < |entries| && Owns(entries[i], path) && Owns(entries[j], path)
  }

  /** Entries are pairwise apart exactly when every path lies below at most one of them. */
  lemma NoTwoOwners(entries: seq<Path>)
    requires forall entry | entry in entries :: entry != ""
    ensures Pairwise(entries, Apart()) <==> !SharedPath(entries)
  {
    if SharedPath(entries) {
      var i, j, path :| 0 <= i < j < |entries| && Owns(entries[i], path) && Owns(entries[j], path);
      assert entries[i] in entries && entries[j] in entries;
      CommonPathMeansOverlap(entries[i], entries[j], path);
      assert !Apart()(entries[i], entries[j]);
    }
    if !Pairwise(entries, Apart()) {
      var i, j :| 0 <= i < j < |entries| && !Apart()(entries[i], entries[j]);
      var path := if entries[j] + "/" <= entries[i] then entries[i] else entries[j];
      assert Owns(entries[i], path) && Owns(entries[j], path);
    }
  }

  /** Accepted lanes: every path is at or below at most one declared entry of all lanes together. */
  lemma AcceptedLanesShareNoPath(lanes: seq<Lane>)
    requires Independent(lanes)
    ensures !SharedPath(Declared(lanes))
  {
    DeclaredIsSound(lanes);
    NoTwoOwners(Declared(lanes));
  }

  lemma {:induction false} DeclaredIsSound(lanes: seq<Lane>)
    requires forall lane | lane in lanes :: LaneSound(lane)
    ensures forall entry | entry in Declared(lanes) :: entry != ""
  {
    if lanes != [] {
      assert lanes[|lanes| - 1] in lanes;
      DeclaredIsSound(lanes[..|lanes| - 1]);
    }
  }

  // ---------- The order of lanes ----------

  /** A symmetric pairwise relation does not depend on order. */
  lemma PairwisePermutes<T>(xs: seq<T>, ys: seq<T>, related: (T, T) -> bool)
    requires multiset(xs) == multiset(ys) && Pairwise(xs, related)
    requires forall a, b :: related(a, b) ==> related(b, a)
    ensures Pairwise(ys, related)
  {
    forall i, j | 0 <= i < j < |ys| ensures related(ys[i], ys[j]) {
      var p, q := TwoPositions(xs, ys, i, j);
    }
  }

  lemma StillThere<T>(xs: seq<T>, ys: seq<T>, p: nat, i: nat, j: nat)
    requires multiset(xs) == multiset(ys) && i < j < |ys| && p < |xs| && xs[p] == ys[i]
    ensures ys[j] in xs[..p] + xs[p + 1..]
  {
    RemoveAt(xs, p);
    RemoveAt(ys, i);
    MultisetCancels(multiset(xs[..p] + xs[p + 1..]), multiset(ys[..i] + ys[i + 1..]), multiset{ys[i]});
    assert (ys[..i] + ys[i + 1..])[j - 1] == ys[j];
    assert ys[j] in multiset(xs[..p] + xs[p + 1..]);
  }

  /** Two positions of a sequence correspond to two positions of a permutation of it. */
  lemma TwoPositions<T>(xs: seq<T>, ys: seq<T>, i: nat, j: nat) returns (p: nat, q: nat)
    requires multiset(xs) == multiset(ys) && i < j < |ys|
    ensures p < |xs| && q < |xs| && p != q && xs[p] == ys[i] && xs[q] == ys[j]
  {
    assert ys[i] in multiset(xs);
    p :| 0 <= p < |xs| && xs[p] == ys[i];
    var rest := xs[..p] + xs[p + 1..];
    StillThere(xs, ys, p, i, j);
    var k :| 0 <= k < |rest| && rest[k] == ys[j];
    q := if k < p then k else k + 1;
  }

  /** Taking one lane out of the middle. */
  lemma Without(ys: seq<Lane>, lane: Lane) returns (rest: seq<Lane>)
    requires lane in ys
    ensures |rest| == |ys| - 1
    ensures multiset(ys) == multiset(rest) + multiset{lane}
    ensures multiset(Authorities(ys)) == multiset(Authorities(rest)) + multiset{lane.authority}
    ensures multiset(Declared(ys)) == multiset(Declared(rest)) + multiset(Writes(lane))
  {
    var i :| 0 <= i < |ys| && ys[i] == lane;
    rest := ys[..i] + ys[i + 1..];
    var left, right := ys[..i], ys[i + 1..];
    assert left + ([ys[i]] + right) == ys;
    assert Authorities(ys) == Authorities(left) + [ys[i].authority] + Authorities(right);
    assert Authorities(left + right) == Authorities(left) + Authorities(right);
    DeclaredSplits(left, [ys[i]] + right);
    DeclaredSplits([ys[i]], right);
    DeclaredSplits(left, right);
    DeclaredOfOne(ys[i]);
  }

  lemma {:induction false} DeclarationsPermute(xs: seq<Lane>, ys: seq<Lane>)
    requires multiset(xs) == multiset(ys)
    ensures multiset(Authorities(xs)) == multiset(Authorities(ys))
    ensures multiset(Declared(xs)) == multiset(Declared(ys))
    decreases |xs|
  {
    if xs == [] {
      assert |multiset(ys)| == 0;
      assert ys == [];
    } else {
      var lane := xs[0];
      assert lane in multiset(ys);
      var p := Without(xs, lane);
      var q := Without(ys, lane);
      MultisetCancels(multiset(p), multiset(q), multiset{lane});
      DeclarationsPermute(p, q);
    }
  }

  lemma DeclaredOfOne(lane: Lane)
    ensures Declared([lane]) == Writes(lane)
  {
  }

  lemma {:induction false} DeclaredSplits(xs: seq<Lane>, ys: seq<Lane>)
    ensures Declared(xs + ys) == Declared(xs) + Declared(ys)
  {
    if ys == [] {
      assert xs + ys == xs;
    } else {
      var n := |ys| - 1;
      DeclaredSplits(xs, ys[..n]);
      assert (xs + ys)[..|xs + ys| - 1] == xs + ys[..n];
    }
  }

  /** Acceptance does not depend on the order in which the lanes are listed. */
  lemma LaneOrderIsIrrelevant(xs: seq<Lane>, ys: seq<Lane>)
    requires multiset(xs) == multiset(ys)
    ensures Independent(xs) <==> Independent(ys)
  {
    if Independent(xs) { IndependentPermutes(xs, ys); }
    if Independent(ys) { IndependentPermutes(ys, xs); }
  }

  lemma IndependentPermutes(xs: seq<Lane>, ys: seq<Lane>)
    requires multiset(xs) == multiset(ys) && Independent(xs)
    ensures Independent(ys)
  {
    DeclarationsPermute(xs, ys);
    PairwisePermutes(Authorities(xs), Authorities(ys), Different());
    PairwisePermutes(Declared(xs), Declared(ys), Apart());
    forall lane | lane in ys ensures LaneSound(lane) {
      assert lane in multiset(ys);
      assert lane in xs;
    }
  }
}
