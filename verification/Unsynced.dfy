/** The originals are never synced by `restore`. A power loss may then bring one back with another size or
    time than the journal records, and `resume` refuses it. */
module Unsynced {
  import opened Volumes
  import opened Recoveries
  import opened Staging
  import opened Manifests
  import opened Journals
  import opened Tool
  import opened Safety
  import opened Tracking
  import opened Runs
  import opened NodeStarts

  /** What `resume` makes of whatever a power loss leaves behind the markers. */
  lemma PlanAfterLoss(env: Env, ours: Scope, used: set<string>, v: Vol, w: Vol, cuts: string -> nat, p: Pend,
                      j: Journal)
    requires Begun(SiteOf(env, ours), used, v, p) && Wrote(env, p, j) && Lost(v, w, cuts)
    ensures Marked(RootOf(env), w.Live(env.data)) && Fixed(w, p.fixed)
    ensures MakePlan(env, w).Planned? <==> Readable(env, j) && Recognizes(w, j)
  {
    LossActive(v, w, cuts, RootOf(env), p);
    LossRoot(v, w, cuts, RootOf(env));
    GuardedLive(w, RootOf(env));
    PlannedIff(env, w, p, j);
  }

  /** A power loss that takes nothing but the time of one file that was not synced. */
  lemma TimeLost(v: Vol, x: Ino, d: string) returns (w: Vol, cuts: string -> nat)
    requires x in v.nodes && x in v.dirty
    ensures Lost(v, w, cuts) && x in w.nodes && w.nodes[x] == v.nodes[x].(mtime := v.nodes[x].mtime + 1)
  {
    w, cuts := LossAt(v, d, |v.Dir(d).queue|);
    w := w.(nodes := v.nodes[x := v.nodes[x].(mtime := v.nodes[x].mtime + 1)]);
  }

  /** What the journal says of an original. */
  lemma OriginalRecorded(env: Env, v: Vol, a: RestoreArgs, m: Manifest, i: nat, x: Ino)
    requires i < |env.files| && InoAt(v, TargetAt(env, i)) == Some(x) && x in v.nodes
    ensures JournalFor(env, v, a, m).changes[i].original == Some(FingerprintOf(x, v.nodes[x]))
  {
  }

  lemma NotRecognized(w: Vol, j: Journal, i: nat, x: Ino, node: Node<Content>)
    requires i < |j.changes| && j.changes[i].original == Some(FingerprintOf(x, node))
    requires x in w.nodes && w.nodes[x].mtime != node.mtime
    ensures !Recognizes(w, j)
  {
    assert !Recognized(w, j.changes[i]);
  }

  /** If one original is not synced, a power loss behind the markers can strand the recovery. */
  lemma UnsyncedStrands(env: Env, used: set<string>, v: Vol, a: RestoreArgs, m: Manifest, i: nat, x: Ino)
    returns (w: Vol, cuts: string -> nat)
    requires EnvOk(env) && Goes(env, used, v, a, m)
    requires i < |env.files| && InoAt(v, TargetAt(env, i)) == Some(x) && x in v.dirty
    ensures Lost(Midway(env, v, a, m), w, cuts) && Stranded(env, w)
  {
    var p, j := Begins(env, v, a, m), JournalFor(env, v, a, m);
    FileStays(env, used, v, a, m, x);
    w, cuts := TimeLost(Midway(env, v, a, m), x, env.data);
    BegunHere(env, used, v, a, m, p, j);
    PlanAfterLoss(env, Just(p), used + UsedBy(env, a.token), Midway(env, v, a, m), w, cuts, p, j);
    OriginalRecorded(env, v, a, m, i, x);
    NotRecognized(w, j, i, x, v.nodes[x]);
  }

  /** Resume accepts whatever a power loss leaves. */
  ghost predicate AlwaysAccepted(env: Env, v: Vol) {
    forall w, cuts :: Lost(v, w, cuts) ==> MakePlan(env, w).Planned?
  }

  /** So resume accepts whatever a power loss leaves behind the markers exactly if the journal can be read
      back and the originals were synced when the restore began. */
  lemma OriginalsIff(env: Env, used: set<string>, v: Vol, a: RestoreArgs, m: Manifest)
    requires EnvOk(env) && Goes(env, used, v, a, m)
    ensures AlwaysAccepted(env, Midway(env, v, a, m)) <==>
              OriginalsSynced(env, v) && Readable(env, JournalFor(env, v, a, m))
  {
    var u := Midway(env, v, a, m);
    if !OriginalsSynced(env, v) {
      UnsyncedRefuses(env, used, v, a, m, u);
    } else {
      SyncedAccepts(env, used, v, a, m, u);
    }
  }

  lemma UnsyncedRefuses(env: Env, used: set<string>, v: Vol, a: RestoreArgs, m: Manifest, u: Vol)
    requires EnvOk(env) && Goes(env, used, v, a, m) && u == Midway(env, v, a, m) && !OriginalsSynced(env, v)
    ensures !AlwaysAccepted(env, u)
  {
    var i :| 0 <= i < |env.files| && InoAt(v, TargetAt(env, i)).Some? && InoAt(v, TargetAt(env, i)).value in v.dirty;
    var w, cuts := UnsyncedStrands(env, used, v, a, m, i, InoAt(v, TargetAt(env, i)).value);
  }

  lemma SyncedAccepts(env: Env, used: set<string>, v: Vol, a: RestoreArgs, m: Manifest, u: Vol)
    requires EnvOk(env) && Goes(env, used, v, a, m) && u == Midway(env, v, a, m) && OriginalsSynced(env, v)
    ensures AlwaysAccepted(env, u) <==> Readable(env, JournalFor(env, v, a, m))
  {
    var p, j := Begins(env, v, a, m), JournalFor(env, v, a, m);
    BegunHere(env, used, v, a, m, p, j);
    forall w, cuts | Lost(u, w, cuts) ensures MakePlan(env, w).Planned? <==> Readable(env, j) {
      PlanAfterLoss(env, Just(p), used + UsedBy(env, a.token), u, w, cuts, p, j);
      SyncedRecognizes(env, used, v, a, m, w);
    }
    var w, cuts := LossAt(u, env.data, 0);
  }
}
