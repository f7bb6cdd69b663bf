/** The three-way decision per path and the ordered plan of a two-way sync pass. */
module Reconcile {
  import opened Core
  import Directory

  datatype NodeKind = Leaf | Dir

  datatype LocalState = LocalState(kind: NodeKind, isSymlink: bool, size: int, mtime: int)

  datatype RemoteState = RemoteState(kind: NodeKind, isSymlink: bool, content: Bytes, meta: Bytes)

  /** How both sides looked when they last agreed on a path. */
  datatype BaseEntry = BaseEntry(dir: bool, size: int, mtime: int, content: Bytes, meta: Bytes) {
    predicate LocalMatches(ls: LocalState) {
      && (ls.kind == Dir) == dir
      && (ls.kind == Dir || (ls.size == size && ls.mtime == mtime))
    }

    predicate RemoteMatches(rs: RemoteState) {
      (rs.kind == Dir) == dir && rs.content == content && rs.meta == meta
    }
  }

  function Agree(ls: LocalState, rs: RemoteState): (b: BaseEntry)
    ensures b.LocalMatches(ls)
    ensures b.RemoteMatches(rs) <==> ls.kind == rs.kind
  {
    BaseEntry(ls.kind == Dir, ls.size, ls.mtime, rs.content, rs.meta)
  }

  datatype Policy = PreferLocal | PreferRemote | Skip

  datatype OpKind = MkdirRemote | MkdirLocal | Upload | Download | DeleteRemote | DeleteLocal | Conflict

  datatype Op = Op(kind: OpKind, path: Path, isDir: bool, isSymlink: bool) {
    predicate IsDelete() { kind == DeleteRemote || kind == DeleteLocal }
  }

  /** An operation to perform, if any, and whether the path is a conflict left alone. */
  datatype Decision = Decision(op: Option<Op>, skip: bool)

  const NOTHING := Decision(None, false)

  function Act(kind: OpKind, p: Path, isDir: bool, isSymlink: bool): Decision {
    Decision(Some(Op(kind, p, isDir, isSymlink)), false)
  }

  // ---------------------------------------------------------------- decisions

  function ConflictOp(policy: Policy, p: Path, ls: Option<LocalState>, rs: Option<RemoteState>): Decision
    requires ls.Some? || rs.Some?
  {
    if policy == PreferLocal then
      if ls.None? then Act(DeleteRemote, p, rs.value.kind == Dir, false)
      else if ls.value.kind == Dir then Act(MkdirRemote, p, true, false)
      else Act(Upload, p, false, ls.value.isSymlink)
    else if policy == PreferRemote then
      if rs.None? then Act(DeleteLocal, p, ls.value.kind == Dir, false)
      else if rs.value.kind == Dir then Act(MkdirLocal, p, true, false)
      else Act(Download, p, false, rs.value.isSymlink)
    else
      Decision(Some(Op(Conflict, p, false, false)), true)
  }

  function DecideBoth(policy: Policy, p: Path, ls: LocalState, rs: RemoteState, be: Option<BaseEntry>): Decision {
    var lChanged := be.None? || !be.value.LocalMatches(ls);
    var rChanged := be.None? || !be.value.RemoteMatches(rs);
    if ls.kind != rs.kind then ConflictOp(policy, p, Some(ls), Some(rs))
    else if ls.kind == Dir then NOTHING
    else if lChanged && rChanged then ConflictOp(policy, p, Some(ls), Some(rs))
    else if lChanged then Act(Upload, p, false, ls.isSymlink)
    else if rChanged then Act(Download, p, false, rs.isSymlink)
    else NOTHING
  }

  function DecideLocalOnly(policy: Policy, p: Path, ls: LocalState, be: Option<BaseEntry>): Decision {
    if be.Some? then
      if be.value.LocalMatches(ls) then Act(DeleteLocal, p, ls.kind == Dir, false)
      else ConflictOp(policy, p, Some(ls), None)
    else if ls.kind == Dir then Act(MkdirRemote, p, true, false)
    else Act(Upload, p, false, ls.isSymlink)
  }

  function DecideRemoteOnly(policy: Policy, p: Path, rs: RemoteState, be: Option<BaseEntry>): Decision {
    if be.Some? then
      if be.value.RemoteMatches(rs) then Act(DeleteRemote, p, rs.kind == Dir, false)
      else ConflictOp(policy, p, None, Some(rs))
    else if rs.kind == Dir then Act(MkdirLocal, p, true, false)
    else Act(Download, p, false, rs.isSymlink)
  }

  function Decide(policy: Policy, p: Path, ls: Option<LocalState>, rs: Option<RemoteState>, be: Option<BaseEntry>):
    (d: Decision)
    ensures d.op.Some? ==> d.op.value.path == p
  {
    if ls.Some? && rs.Some? then DecideBoth(policy, p, ls.value, rs.value, be)
    else if ls.Some? then DecideLocalOnly(policy, p, ls.value, be)
    else if rs.Some? then DecideRemoteOnly(policy, p, rs.value, be)
    else NOTHING
  }

  // ---------------------------------------------------------------- what a decision means

  /** A side changed a path since the agreement: it is new, edited or gone. */
  predicate LocalChanged(ls: Option<LocalState>, be: Option<BaseEntry>) {
    ls.Some? != be.Some? || (ls.Some? && !be.value.LocalMatches(ls.value))
  }

  predicate RemoteChanged(rs: Option<RemoteState>, be: Option<BaseEntry>) {
    rs.Some? != be.Some? || (rs.Some? && !be.value.RemoteMatches(rs.value))
  }

  /** The operation makes the remote side follow the local one. */
  predicate LocalWins(op: Op) {
    op.kind == Upload || op.kind == MkdirRemote || op.kind == DeleteRemote
  }

  /** Given a path some side holds, of one kind and not a directory on both, the three-way table. */
  lemma ThreeWay(policy: Policy, p: Path, ls: Option<LocalState>, rs: Option<RemoteState>, be: Option<BaseEntry>)
    requires ls.Some? || rs.Some?
    requires ls.Some? && rs.Some? ==> ls.value.kind == rs.value.kind == Leaf
    ensures var d := Decide(policy, p, ls, rs, be);
            var lc, rc := LocalChanged(ls, be), RemoteChanged(rs, be);
            && (d.op == None <==> !lc && !rc)
            && (d.skip <==> lc && rc && policy == Skip)
            && (d.op.Some? && !d.skip ==>
                  && (LocalWins(d.op.value) <==> lc && (rc ==> policy == PreferLocal))
                  && (d.op.value.IsDelete() <==> if LocalWins(d.op.value) then ls.None? else rs.None?))
  {
  }

  // ---------------------------------------------------------------- decisions in sizes, times and tokens

  /** Both sides have something now, agreed on or not. Directories are left alone, and kinds that differ are the policy's. */
  ghost predicate BothAsSeen(policy: Policy, p: Path, ls: LocalState, rs: RemoteState, lSame: bool, rSame: bool, d: Decision) {
    if ls.kind == rs.kind == Dir || (ls.kind == rs.kind && lSame && rSame) then d == Decision(None, false)
    else if ls.kind == rs.kind && rSame then d == Decision(Some(Op(Upload, p, false, ls.isSymlink)), false)
    else if ls.kind == rs.kind && lSame then d == Decision(Some(Op(Download, p, false, rs.isSymlink)), false)
    else
      match policy
      case PreferLocal => LocalStays(p, ls, d)
      case PreferRemote => RemoteStays(p, rs, d)
      case Skip => LeftAlone(p, d)
  }

  /** The local version goes up. */
  ghost predicate LocalStays(p: Path, ls: LocalState, d: Decision) {
    d == if ls.kind == Dir then Decision(Some(Op(MkdirRemote, p, true, false)), false)
         else Decision(Some(Op(Upload, p, false, ls.isSymlink)), false)
  }

  ghost predicate RemoteStays(p: Path, rs: RemoteState, d: Decision) {
    d == if rs.kind == Dir then Decision(Some(Op(MkdirLocal, p, true, false)), false)
         else Decision(Some(Op(Download, p, false, rs.isSymlink)), false)
  }

  ghost predicate LeftAlone(p: Path, d: Decision) {
    d == Decision(Some(Op(Conflict, p, false, false)), true)
  }

  /**
   * What is decided at a path agreed on as (ls0, rs0). A local leaf is as it was when its size and time are, a remote
   * item when its two tokens are; a side that is as it was gives way, and where neither is the policy decides.
   */
  ghost predicate AsSeen(policy: Policy, p: Path, ls0: LocalState, rs0: RemoteState, ls: Option<LocalState>, rs: Option<RemoteState>, d: Decision) {
    var lSame := ls.Some? && ls.value.kind == ls0.kind && (ls0.kind == Leaf ==> ls.value.size == ls0.size && ls.value.mtime == ls0.mtime);
    var rSame := rs.Some? && rs.value.kind == rs0.kind && rs.value.content == rs0.content && rs.value.meta == rs0.meta;
    if ls.Some? && rs.Some? then BothAsSeen(policy, p, ls.value, rs.value, lSame, rSame, d)
    else if ls.Some? then
      if lSame || policy == PreferRemote then d == Decision(Some(Op(DeleteLocal, p, ls.value.kind == Dir, false)), false)
      else if policy == PreferLocal then LocalStays(p, ls.value, d)
      else LeftAlone(p, d)
    else if rs.Some? then
      if rSame || policy == PreferLocal then d == Decision(Some(Op(DeleteRemote, p, rs.value.kind == Dir, false)), false)
      else if policy == PreferRemote then RemoteStays(p, rs.value, d)
      else LeftAlone(p, d)
    else d == Decision(None, false)
  }

  /** What is decided at a path never agreed on: what one side has is new, and what both have is the policy's. */
  ghost predicate AsNew(policy: Policy, p: Path, ls: Option<LocalState>, rs: Option<RemoteState>, d: Decision) {
    if ls.Some? && rs.Some? then BothAsSeen(policy, p, ls.value, rs.value, false, false, d)
    else if ls.Some? then LocalStays(p, ls.value, d)
    else if rs.Some? then RemoteStays(p, rs.value, d)
    else d == Decision(None, false)
  }

  /** Every edit is noticed, and nothing else is taken for one. */
  lemma DecidedAsSeen(policy: Policy, p: Path, ls0: LocalState, rs0: RemoteState, ls: Option<LocalState>, rs: Option<RemoteState>)
    requires ls0.kind == rs0.kind
    ensures AsSeen(policy, p, ls0, rs0, ls, rs, Decide(policy, p, ls, rs, Some(Agree(ls0, rs0))))
  {
  }

  lemma NewAsSeen(policy: Policy, p: Path, ls: Option<LocalState>, rs: Option<RemoteState>)
    ensures AsNew(policy, p, ls, rs, Decide(policy, p, ls, rs, None))
  {
  }

  // ---------------------------------------------------------------- the order of a plan

  function Join(p: Path): string {
    if p == [] then "" else if |p| == 1 then p[0] else p[0] + "/" + Join(p[1..])
  }

  lemma {:induction false} JoinSlashes(p: Path, x: string)
    ensures Join(p + [x]) == if p == [] then x else Join(p) + "/" + x
  {
    if |p| > 1 {
      JoinSlashes(p[1..], x);
      assert (p + [x])[1..] == p[1..] + [x];
    } else if |p| == 1 {
      assert (p + [x])[1..] == [x];
    }
  }

  predicate Before(a: Op, b: Op) {
    if a.IsDelete() != b.IsDelete() then !a.IsDelete()
    else if a.IsDelete() then |a.path| > |b.path|
    else if |a.path| != |b.path| then |a.path| < |b.path|
    else Directory.Less(Join(a.path), Join(b.path))
  }

  ghost predicate Ordered(ops: seq<Op>) {
    forall i, j :: 0 <= i < j < |ops| ==> !Before(ops[j], ops[i])
  }

  lemma NotBeforeTransitive(a: Op, b: Op, c: Op)
    requires !Before(b, a) && !Before(c, b)
    ensures !Before(c, a)
  {
    if Before(c, a) {
      var ja, jb, jc := Join(a.path), Join(b.path), Join(c.path);
      Directory.LessTrichotomy(jb, jc);
      Directory.LessTrichotomy(ja, jb);
      Directory.LessTrichotomy(ja, jc);
      if Directory.Less(ja, jb) && Directory.Less(jb, jc) { Directory.LessTransitive(ja, jb, jc); }
    }
  }

  lemma BeforeAsymmetric(a: Op, b: Op)
    requires Before(a, b)
    ensures !Before(b, a)
  {
    Directory.LessTrichotomy(Join(a.path), Join(b.path));
  }

  ghost predicate DistinctPaths(ops: seq<Op>) {
    forall i, j :: 0 <= i < j < |ops| ==> ops[i].path != ops[j].path
  }

  method SortOps(ops: seq<Op>) returns (r: seq<Op>)
    ensures Ordered(r) && multiset(r) == multiset(ops)
    ensures DistinctPaths(ops) ==> DistinctPaths(r)
  {
    r := [];
    for i := 0 to |ops|
      invariant Ordered(r) && multiset(r) == multiset(ops[..i])
      invariant DistinctPaths(ops) ==> DistinctPaths(r)
    {
      assert ops[..i + 1] == ops[..i] + [ops[i]];
      if DistinctPaths(ops) {
        forall k | 0 <= k < |r| ensures r[k].path != ops[i].path {
          assert r[k] in multiset(r);
        }
      }
      r := InsertOp(r, ops[i]);
    }
    assert ops[..|ops|] == ops;
  }

  method InsertOp(r: seq<Op>, op: Op) returns (s: seq<Op>)
    requires Ordered(r)
    ensures Ordered(s) && multiset(s) == multiset(r) + multiset{op}
    ensures DistinctPaths(r) && (forall k :: 0 <= k < |r| ==> r[k].path != op.path) ==> DistinctPaths(s)
  {
    hide Before, Ordered, DistinctPaths;
    var at := |r|;
    while at > 0 && Before(op, r[at - 1])
      invariant 0 <= at <= |r|
      invariant forall k :: at <= k < |r| ==> Before(op, r[k])
    {
      at := at - 1;
    }
    Inserted(r, op, at);
    s := r[..at] + [op] + r[at..];
    assert r == r[..at] + r[at..];
  }

  lemma Inserted(r: seq<Op>, op: Op, at: nat)
    requires Ordered(r) && at <= |r| && (at > 0 ==> !Before(op, r[at - 1]))
    requires forall k :: at <= k < |r| ==> Before(op, r[k])
    ensures Ordered(r[..at] + [op] + r[at..])
    ensures DistinctPaths(r) && (forall k :: 0 <= k < |r| ==> r[k].path != op.path) ==>
              DistinctPaths(r[..at] + [op] + r[at..])
  {
    hide Before;
    forall k | 0 <= k < at ensures !Before(op, r[k]) {
      if k < at - 1 { NotBeforeTransitive(r[k], r[at - 1], op); }
    }
    forall k | at <= k < |r| ensures !Before(r[k], op) { BeforeAsymmetric(op, r[k]); }
    var s := r[..at] + [op] + r[at..];
    assert forall k :: 0 <= k < |s| ==> s[k] == if k < at then r[k] else if k == at then op else r[k - 1];
  }

  // ---------------------------------------------------------------- the plan

  type LocalSnapshot = map<Path, LocalState>
  type RemoteSnapshot = map<Path, RemoteState>
  type Base = map<Path, BaseEntry>

  function Get<V>(m: map<Path, V>, p: Path): Option<V> {
    if p in m then Some(m[p]) else None
  }

  function DecisionAt(policy: Policy, base: Base, local: LocalSnapshot, remote: RemoteSnapshot, p: Path): (d: Decision)
    ensures d.op.Some? ==> d.op.value.path == p
  {
    Decide(policy, p, Get(local, p), Get(remote, p), Get(base, p))
  }

  datatype Plan = Plan(ops: seq<Op>, skipped: set<Path>)

  /** The plan holds exactly the decided operations, one per path, in the order of application. */
  ghost predicate IsPlan(policy: Policy, base: Base, local: LocalSnapshot, remote: RemoteSnapshot, plan: Plan) {
    && Ordered(plan.ops)
    && DistinctPaths(plan.ops)
    && (forall i :: 0 <= i < |plan.ops| ==> DecisionAt(policy, base, local, remote, plan.ops[i].path).op == Some(plan.ops[i]))
    && (forall p :: DecisionAt(policy, base, local, remote, p).op.Some? ==>
          DecisionAt(policy, base, local, remote, p).op.value in plan.ops)
    && (forall p :: p in plan.skipped <==> DecisionAt(policy, base, local, remote, p).skip)
  }

  /** Of two operations of a plan the later is a delete if the earlier is; deletes go up from the deepest, the rest down and in order of path. */
  lemma PlanOrder(policy: Policy, base: Base, local: LocalSnapshot, remote: RemoteSnapshot, plan: Plan, i: nat, j: nat)
    requires IsPlan(policy, base, local, remote, plan) && i < j < |plan.ops|
    ensures var a, b := plan.ops[i], plan.ops[j];
            var aGone, bGone := a.kind == DeleteLocal || a.kind == DeleteRemote, b.kind == DeleteLocal || b.kind == DeleteRemote;
            && (aGone ==> bGone) && (aGone && bGone ==> |a.path| >= |b.path|)
            && (!aGone && !bGone ==> |a.path| <= |b.path| && (|a.path| == |b.path| ==> !Directory.Less(Join(b.path), Join(a.path))))
  {
    assert !Before(plan.ops[j], plan.ops[i]);
  }

  /** What a plan does at one path. */
  ghost predicate PlannedAt(plan: Plan, p: Path, d: Decision) {
    && (forall op :: op in plan.ops && op.path == p ==> d.op == Some(op))
    && (d.op.Some? ==> d.op.value in plan.ops)
    && (p in plan.skipped <==> d.skip)
  }

  /** A plan does at every path what the sizes, times and tokens there call for. */
  lemma PlanFollowsStates(policy: Policy, base: Base, local: LocalSnapshot, remote: RemoteSnapshot, plan: Plan, p: Path,
                          ls0: LocalState, rs0: RemoteState) returns (d: Decision)
    requires IsPlan(policy, base, local, remote, plan)
    requires p in base ==> base[p] == Agree(ls0, rs0) && ls0.kind == rs0.kind
    ensures PlannedAt(plan, p, d)
    ensures if p in base then AsSeen(policy, p, ls0, rs0, Get(local, p), Get(remote, p), d)
            else AsNew(policy, p, Get(local, p), Get(remote, p), d)
  {
    d := DecisionAt(policy, base, local, remote, p);
    if p in base {
      DecidedAsSeen(policy, p, ls0, rs0, Get(local, p), Get(remote, p));
    } else {
      NewAsSeen(policy, p, Get(local, p), Get(remote, p));
    }
    hide Decide, Ordered, DistinctPaths, AsSeen;
  }

  /** Operations decided so far: those of the paths in `done`. */
  ghost predicate Decided(policy: Policy, base: Base, local: LocalSnapshot, remote: RemoteSnapshot,
                          done: set<Path>, ops: seq<Op>, skipped: set<Path>) {
    && DistinctPaths(ops)
    && (forall i :: 0 <= i < |ops| ==>
          ops[i].path in done && DecisionAt(policy, base, local, remote, ops[i].path).op == Some(ops[i]))
    && (forall p :: p in done && DecisionAt(policy, base, local, remote, p).op.Some? ==>
          DecisionAt(policy, base, local, remote, p).op.value in ops)
    && (forall p :: p in skipped <==> p in done && DecisionAt(policy, base, local, remote, p).skip)
  }

  method MakePlan(policy: Policy, base: Base, local: LocalSnapshot, remote: RemoteSnapshot) returns (plan: Plan)
    ensures IsPlan(policy, base, local, remote, plan)
  {
    hide Decided, DecisionAt, Ordered, DistinctPaths, IsPlan;
    var all := local.Keys + remote.Keys + base.Keys;
    var paths := all;
    var ops: seq<Op> := [];
    var skipped: set<Path> := {};
    NoneDecided(policy, base, local, remote);
    assert all - paths == {};
    while paths != {}
      invariant paths <= all
      invariant Decided(policy, base, local, remote, all - paths, ops, skipped)
      decreases paths
    {
      var p :| p in paths;
      var d := DecisionAt(policy, base, local, remote, p);
      DecideOne(policy, base, local, remote, all - paths, ops, skipped, p);
      if d.skip {
        skipped := skipped + {p};
      }
      if d.op.Some? {
        ops := ops + [d.op.value];
      }
      assert all - (paths - {p}) == all - paths + {p};
      paths := paths - {p};
    }
    assert all - paths == all;
    var sorted := SortOps(ops);
    PlanDone(policy, base, local, remote, ops, skipped, sorted);
    plan := Plan(sorted, skipped);
  }

  lemma NoneDecided(policy: Policy, base: Base, local: LocalSnapshot, remote: RemoteSnapshot)
    ensures Decided(policy, base, local, remote, {}, [], {})
  {
  }

  lemma DecideOne(policy: Policy, base: Base, local: LocalSnapshot, remote: RemoteSnapshot,
                  done: set<Path>, ops: seq<Op>, skipped: set<Path>, p: Path)
    requires Decided(policy, base, local, remote, done, ops, skipped) && p !in done
    ensures var d := DecisionAt(policy, base, local, remote, p);
            Decided(policy, base, local, remote, done + {p},
                    if d.op.Some? then ops + [d.op.value] else ops, if d.skip then skipped + {p} else skipped)
  {
  }

  lemma PlanDone(policy: Policy, base: Base, local: LocalSnapshot, remote: RemoteSnapshot,
                 ops: seq<Op>, skipped: set<Path>, sorted: seq<Op>)
    requires Decided(policy, base, local, remote, local.Keys + remote.Keys + base.Keys, ops, skipped)
    requires Ordered(sorted) && (DistinctPaths(ops) ==> DistinctPaths(sorted)) && multiset(sorted) == multiset(ops)
    ensures IsPlan(policy, base, local, remote, Plan(sorted, skipped))
  {
    hide DecisionAt, Ordered, DistinctPaths;
    var all := local.Keys + remote.Keys + base.Keys;
    forall p | p !in all ensures DecisionAt(policy, base, local, remote, p) == NOTHING {
      Unknown(policy, base, local, remote, p);
    }
    forall i | 0 <= i < |sorted| ensures sorted[i] in ops { assert sorted[i] in multiset(sorted); }
    forall op | op in ops ensures op in sorted { assert op in multiset(ops); }
  }

  lemma Unknown(policy: Policy, base: Base, local: LocalSnapshot, remote: RemoteSnapshot, p: Path)
    requires p !in local && p !in remote
    ensures DecisionAt(policy, base, local, remote, p) == NOTHING
  {
  }
}
