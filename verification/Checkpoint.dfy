/** Sharded checkpoints: saving, pruning, crashing anywhere, and resuming. */
module Checkpoint {
  import opened Arith
  import opened StateMachine
  import opened Wrappers

  /** A step directory on disk. */
  datatype Dir =
    | Bare      // no actor directory in it yet, or no longer
    | Partial   // an actor directory with shards missing
    | Complete  // every shard

  type Dirs = map<nat, Dir>

  // ---------------------------------------------------------------------
  // Pruning
  // ---------------------------------------------------------------------

  lemma HasMin(s: set<nat>)
    requires s != {}
    ensures exists m :: m in s && forall x :: x in s ==> m <= x
  {
    var a :| a in s;
    if s != {a} {
      var rest := s - {a};
      assert a in s && rest != {};
      HasMin(rest);
      var m :| m in rest && forall x :: x in rest ==> m <= x;
      assert forall x :: x in s ==> x == a || x in rest;
      if a <= m {
        assert forall x :: x in s ==> a <= x;
      } else {
        assert forall x :: x in s ==> m <= x;
      }
    } else {
      assert forall x :: x in s ==> a <= x;
    }
  }

  /** The lowest step in the directory. */
  function Oldest(dirs: Dirs): (m: nat)
    requires |dirs| > 0
    ensures m in dirs && forall d :: d in dirs ==> m <= d
  {
    assert dirs.Keys != {} by { assert |dirs.Keys| == |dirs|; }
    HasMin(dirs.Keys);
    var m :| m in dirs.Keys && forall x :: x in dirs.Keys ==> m <= x;
    m
  }

  /** What pruning leaves: the `keep` highest steps. */
  function PrunedTo(dirs: Dirs, keep: nat): Dirs
    decreases |dirs|
  {
    if |dirs| <= keep then dirs
    else
      RemoveSize(dirs, Oldest(dirs));
      PrunedTo(dirs - {Oldest(dirs)}, keep)
  }

  lemma RemoveSize(dirs: Dirs, d: nat)
    requires d in dirs
    ensures |dirs - {d}| == |dirs| - 1
  {
    assert (dirs - {d}).Keys == dirs.Keys - {d};
    assert |dirs.Keys| == |dirs| && |(dirs - {d}).Keys| == |dirs - {d}|;
  }

  ghost function AtOrAbove(dirs: Dirs, t: nat): set<nat> {
    set d | d in dirs && d >= t
  }

  lemma AtOrAboveBound(dirs: Dirs, t: nat)
    ensures |AtOrAbove(dirs, t)| <= |dirs|
  {
    SubsetSize(AtOrAbove(dirs, t), dirs.Keys);
    assert |dirs.Keys| == |dirs|;
  }

  lemma SubsetSize(a: set<nat>, b: set<nat>)
    requires a <= b
    ensures |a| <= |b|
    ensures |a| == |b| ==> a == b
  {
    if a != {} {
      var x :| x in a;
      SubsetSize(a - {x}, b - {x});
      assert a == (a - {x}) + {x} && b == (b - {x}) + {x};
    }
  }

  /** A directory survives pruning exactly when at most `keep` directories are at or above
      it, and is then untouched. */
  lemma {:induction false} SurvivesPruning(dirs: Dirs, keep: nat, t: nat)
    ensures t in PrunedTo(dirs, keep) <==> t in dirs && |AtOrAbove(dirs, t)| <= keep
    ensures t in PrunedTo(dirs, keep) ==> PrunedTo(dirs, keep)[t] == dirs[t]
    decreases |dirs|
  {
    AtOrAboveBound(dirs, t);
    if |dirs| > keep {
      var m := Oldest(dirs);
      RemoveSize(dirs, m);
      SurvivesPruning(dirs - {m}, keep, t);
      if t == m {
        assert AtOrAbove(dirs, t) == dirs.Keys;
        assert |dirs.Keys| == |dirs|;
      } else if t > m {
        assert AtOrAbove(dirs - {m}, t) == AtOrAbove(dirs, t);
      }
    }
  }

  lemma {:induction false} PrunedSize(dirs: Dirs, keep: nat)
    ensures |PrunedTo(dirs, keep)| == if |dirs| <= keep then |dirs| else keep
    ensures PrunedTo(dirs, keep).Keys <= dirs.Keys
    decreases |dirs|
  {
    if |dirs| > keep {
      RemoveSize(dirs, Oldest(dirs));
      PrunedSize(dirs - {Oldest(dirs)}, keep);
    }
  }

  // ---------------------------------------------------------------------
  // Resuming
  // ---------------------------------------------------------------------

  predicate HasActor(dirs: Dirs, d: nat) {
    d in dirs && !dirs[d].Bare?
  }

  /** `best` is the highest step directory holding an actor directory, if there is one. */
  ghost predicate IsBest(dirs: Dirs, best: Option<nat>) {
    match best
    case None => forall d: nat :: !HasActor(dirs, d)
    case Some(b) => HasActor(dirs, b) && forall d: nat :: HasActor(dirs, d) ==> d <= b
  }

  /** The step to resume from: the tracked one if its directory is there, else the highest. */
  ghost predicate Resumes(dirs: Dirs, tracker: Option<nat>, r: Option<nat>) {
    if tracker.Some? && HasActor(dirs, tracker.value) then r == tracker else IsBest(dirs, r)
  }

  // ---------------------------------------------------------------------
  // The program's view of the disk
  // ---------------------------------------------------------------------

  class CheckpointStore {
    var dirs: Dirs
    var tracker: Option<nat>
    const limit: nat

    constructor (saveTotalLimit: int)
      ensures dirs == map[] && tracker == None && limit == if saveTotalLimit > 1 then saveTotalLimit else 1
    {
      dirs, tracker := map[], None;
      limit := if saveTotalLimit > 1 then saveTotalLimit else 1;
    }

    method PruneOld(keep: nat)
      modifies this`dirs
      ensures dirs == PrunedTo(old(dirs), keep)
    {
      while |dirs| > keep
        invariant PrunedTo(dirs, keep) == PrunedTo(old(dirs), keep)
        decreases |dirs|
      {
        var old_ := Oldest(dirs);
        RemoveSize(dirs, old_);
        dirs := dirs - {old_};
      }
    }

    /** A save that nothing interrupts. */
    method Save(step: nat)
      requires limit > 0
      modifies this`dirs, this`tracker
      ensures dirs == PrunedTo(PrunedTo(old(dirs), limit - 1)[step := Complete], limit)
      ensures tracker == Some(step)
      ensures |dirs| <= limit
    {
      PruneOld(limit - 1);
      if step !in dirs {
        dirs := dirs[step := Bare];
      }
      dirs := dirs[step := Partial];
      dirs := dirs[step := Complete];
      tracker := Some(step);
      assert dirs == PrunedTo(old(dirs), limit - 1)[step := Complete];
      PruneOld(limit);
      PrunedSize(PrunedTo(old(dirs), limit - 1)[step := Complete], limit);
    }

    method FindLatest() returns (r: Option<nat>)
      ensures Resumes(dirs, tracker, r)
    {
      if tracker.Some? && HasActor(dirs, tracker.value) {
        return tracker;
      }
      var best: Option<nat> := None;
      var todo := dirs.Keys;
      while todo != {}
        invariant todo <= dirs.Keys
        invariant best.Some? ==> HasActor(dirs, best.value)
        invariant forall d: nat :: HasActor(dirs, d) && d !in todo ==> best.Some? && d <= best.value
        decreases todo
      {
        var child :| child in todo;
        if HasActor(dirs, child) && (best.None? || child > best.value) {
          best := Some(child);
        }
        todo := todo - {child};
      }
      return best;
    }
  }

  // ---------------------------------------------------------------------
  // Saves, crashes and restarts, step by step
  // ---------------------------------------------------------------------

  datatype Phase =
    | Down(base: nat)       // not running; `base` is the step the last run built on
    | Training(done: nat)   // `done` optimizer steps are behind it
    | Pruning(step: nat)    // making room for the save of `step`
    | Making(step: nat)     // the step directory exists
    | Writing(step: nat)    // the actor directory exists, shards are being written
    | Tracking(step: nat)   // shards are written, the tracker is not
    | Trimming(step: nat)   // the tracker is written, old directories may remain

  datatype State = State(dirs: Dirs, tracker: Option<nat>, phase: Phase)

  /** `interval` steps between saves, at most `limit` directories. */
  datatype Policy = Policy(interval: nat, limit: nat)

  ghost predicate ValidPolicy(p: Policy) {
    p.interval > 0 && p.limit > 0
  }

  ghost predicate Init(s: State) {
    s == State(map[], None, Down(0))
  }

  /** Deleting a directory tree takes time: first it is damaged, then it is gone. */
  ghost predicate DeletesOldest(before: Dirs, after: Dirs) {
    && |before| > 0
    && var m := Oldest(before);
       after == before - {m} || after == before[m := Bare] || after == before[m := Partial]
  }

  ghost predicate StartStep(p: Policy, s: State, s': State) {
    && s.phase.Down?
    && (exists r :: Resumes(s.dirs, s.tracker, r)
          && match r
             case None => s' == s.(phase := Training(0))
             case Some(t) => HasActor(s.dirs, t) && s.dirs[t].Complete? && s' == s.(phase := Training(t)))
  }

  ghost predicate TrainStep(p: Policy, s: State, s': State)
    requires ValidPolicy(p)
  {
    && s.phase.Training?
    && var next := s.phase.done + 1;
       s' == s.(phase := if next % p.interval == 0 then Pruning(next) else Training(next))
  }

  ghost predicate SaveStep(p: Policy, s: State, s': State)
    requires ValidPolicy(p)
  {
    match s.phase
    case Pruning(step) =>
      if |s.dirs| > p.limit - 1 then
        DeletesOldest(s.dirs, s'.dirs) && s' == s.(dirs := s'.dirs)
      else
        s' == s.(dirs := if step in s.dirs then s.dirs else s.dirs[step := Bare], phase := Making(step))
    case Making(step) => s' == s.(dirs := s.dirs[step := Partial], phase := Writing(step))
    case Writing(step) => s' == s.(dirs := s.dirs[step := Complete], phase := Tracking(step))
    case Tracking(step) => s' == s.(tracker := Some(step), phase := Trimming(step))
    case Trimming(step) =>
      if |s.dirs| > p.limit then
        DeletesOldest(s.dirs, s'.dirs) && s' == s.(dirs := s'.dirs)
      else s' == s.(phase := Training(step))
    case _ => false
  }

  /** The step a running process builds on: what a crash now would leave behind. */
  ghost function Base(p: Policy, phase: Phase): int
    requires ValidPolicy(p)
  {
    match phase
    case Down(base) => base
    case Training(done) => done - done % p.interval
    case Trimming(step) => step
    case Pruning(step) => step - p.interval
    case Making(step) => step - p.interval
    case Writing(step) => step - p.interval
    case Tracking(step) => step - p.interval
  }

  /** When a crash strikes. */
  datatype Moment = InTraining | InPruning | InMaking | InWriting | InTracking | InTrimming

  function MomentOf(phase: Phase): Moment
    requires !phase.Down?
  {
    match phase
    case Training(_) => InTraining
    case Pruning(_) => InPruning
    case Making(_) => InMaking
    case Writing(_) => InWriting
    case Tracking(_) => InTracking
    case Trimming(_) => InTrimming
  }

  const ANY_MOMENT: set<Moment> := {InTraining, InPruning, InMaking, InWriting, InTracking, InTrimming}

  /** The step directory exists, the tracker does not name it yet. */
  const HALF_SAVED: set<Moment> := {InMaking, InWriting, InTracking}

  ghost predicate CrashStep(p: Policy, s: State, s': State)
    requires ValidPolicy(p)
  {
    !s.phase.Down? && Base(p, s.phase) >= 0 && s' == s.(phase := Down(Base(p, s.phase)))
  }

  /** A crash that leaves a step directory the tracker does not name. */
  ghost predicate TornStep(p: Policy, s: State, s': State)
    requires ValidPolicy(p)
  {
    CrashStep(p, s, s') && MomentOf(s.phase) in HALF_SAVED
  }

  ghost predicate QuietStep(p: Policy, s: State, s': State)
    requires ValidPolicy(p)
  {
    StartStep(p, s, s') || TrainStep(p, s, s') || SaveStep(p, s, s')
  }

  /** A save deletes to make room. */
  ghost predicate DeleteStep(p: Policy, s: State, s': State)
    requires ValidPolicy(p)
  {
    s.phase.Pruning? && |s.dirs| > p.limit - 1 && SaveStep(p, s, s')
  }

  ghost predicate Next(p: Policy, crashes: set<Moment>, s: State, s': State)
    requires ValidPolicy(p)
  {
    QuietStep(p, s, s') || (CrashStep(p, s, s') && MomentOf(s.phase) in crashes)
  }

  // ---------------------------------------------------------------------
  // What every step keeps
  // ---------------------------------------------------------------------

  /** `strict`: nothing above the base except what is being written right now. */
  ghost predicate Inv(p: Policy, strict: bool, s: State)
    requires ValidPolicy(p)
  {
    var base := Base(p, s.phase);
    && base >= 0 && base % p.interval == 0
    && (base > 0 ==> base in s.dirs && s.dirs[base].Complete?)
    && (forall d :: d in s.dirs ==> 0 < d <= base + p.interval && d % p.interval == 0)
    && (s.tracker.Some? ==> s.tracker.value == base > 0)
    && |s.dirs| <= p.limit
    && (s.phase.Trimming? ==> s.tracker.Some?)
    && (s.phase.Making? || s.phase.Writing? || s.phase.Tracking? ==> s.phase.step in s.dirs)
    && (s.phase.Tracking? ==> s.dirs[s.phase.step].Complete?)
    && (strict && (s.phase.Down? || s.phase.Training? || s.phase.Pruning? || s.phase.Trimming?) ==>
          forall d :: d in s.dirs ==> d <= base)
  }

  lemma MultipleBetween(base: nat, d: nat, interval: nat)
    requires interval > 0 && base % interval == 0 && d % interval == 0
    requires base <= d <= base + interval
    ensures d == base || d == base + interval
  {
    DivMod(base, interval);
    DivMod(d, interval);
    MulSucc(base / interval, interval);
    MulSucc(base / interval + 1, interval);
    MulSucc(d / interval, interval);
    MulCancel(base / interval, d / interval + 1, interval);
    MulCancel(d / interval, base / interval + 2, interval);
  }

  /** If the directory the run builds on is the oldest, hardly anything else is there. */
  lemma OldestIsBase(p: Policy, strict: bool, s: State)
    requires ValidPolicy(p) && Inv(p, strict, s) && Base(p, s.phase) > 0
    requires |s.dirs| > 0 && Oldest(s.dirs) == Base(p, s.phase)
    ensures |s.dirs| <= 2
    ensures strict && (s.phase.Pruning? || s.phase.Trimming?) ==> |s.dirs| == 1
    ensures s.phase.Trimming? ==> |s.dirs| <= 2
  {
    var base: nat := Base(p, s.phase);
    var recent := {base, base + p.interval};
    forall d | d in s.dirs.Keys ensures d in recent {
      MultipleBetween(base, d, p.interval);
    }
    SubsetSize(s.dirs.Keys, recent);
    assert |s.dirs.Keys| == |s.dirs|;
    if strict && (s.phase.Pruning? || s.phase.Trimming?) {
      assert s.dirs.Keys <= {base};
      SubsetSize(s.dirs.Keys, {base});
    }
  }

  /** Enough directories are kept: three, or two as long as nothing was interrupted. */
  ghost predicate Roomy(p: Policy, strict: bool) {
    ValidPolicy(p) && p.limit >= if strict then 2 else 3
  }

  lemma InitKeeps(p: Policy, strict: bool, s: State)
    requires ValidPolicy(p) && Init(s)
    ensures Inv(p, strict, s)
  {
    DivModUnique(0, p.interval, 0, 0);
  }

  lemma NextMultiple(done: nat, interval: nat)
    requires interval > 0
    ensures 0 <= done - done % interval && (done - done % interval) % interval == 0
    ensures (done + 1) % interval != 0 ==> done + 1 - (done + 1) % interval == done - done % interval
    ensures (done + 1) % interval == 0 ==> done + 1 - interval == done - done % interval
  {
    var q, r := done / interval, done % interval;
    DivMod(done, interval);
    MulDiv(q, interval);
    MulSucc(q, interval);
    if r + 1 < interval {
      DivModUnique(done + 1, interval, q, r + 1);
    } else {
      DivModUnique(done + 1, interval, q + 1, 0);
    }
  }

  lemma TrainKeeps(p: Policy, strict: bool, s: State, s': State)
    requires ValidPolicy(p) && Inv(p, strict, s) && TrainStep(p, s, s')
    ensures Inv(p, strict, s')
  {
    NextMultiple(s.phase.done, p.interval);
  }

  lemma StartKeeps(p: Policy, strict: bool, s: State, s': State)
    requires ValidPolicy(p) && Inv(p, strict, s) && StartStep(p, s, s')
    ensures Inv(p, strict, s')
  {
    var base: nat := Base(p, s.phase);
    var r :| Resumes(s.dirs, s.tracker, r)
             && match r
                case None => s' == s.(phase := Training(0))
                case Some(t) => HasActor(s.dirs, t) && s.dirs[t].Complete? && s' == s.(phase := Training(t));
    DivModUnique(0, p.interval, 0, 0);
    if base > 0 {
      assert HasActor(s.dirs, base);
    }
    if r.Some? {
      MultipleBetween(base, r.value, p.interval);
    }
  }

  lemma DeleteKeeps(p: Policy, strict: bool, s: State, s': State)
    requires Roomy(p, strict) && Inv(p, strict, s) && s.phase.Pruning? && |s.dirs| > p.limit - 1
    requires DeletesOldest(s.dirs, s'.dirs) && s' == s.(dirs := s'.dirs)
    ensures Inv(p, strict, s')
  {
    var m := Oldest(s.dirs);
    if Base(p, s.phase) > 0 && m == Base(p, s.phase) {
      OldestIsBase(p, strict, s);
      assert false;
    }
    RemoveSize(s.dirs, m);
    UpdateSize(s.dirs, m, Bare);
    UpdateSize(s.dirs, m, Partial);
  }

  lemma UpdateSize(dirs: Dirs, d: nat, dir: Dir)
    ensures |dirs[d := dir]| == if d in dirs then |dirs| else |dirs| + 1
  {
    assert dirs[d := dir].Keys == dirs.Keys + {d};
    assert |dirs.Keys| == |dirs| && |dirs[d := dir].Keys| == |dirs[d := dir]|;
  }

  lemma MakeKeeps(p: Policy, strict: bool, s: State, s': State)
    requires ValidPolicy(p) && Inv(p, strict, s) && SaveStep(p, s, s')
    requires s.phase.Pruning? && |s.dirs| <= p.limit - 1
    ensures Inv(p, strict, s')
  {
    UpdateSize(s.dirs, s.phase.step, Bare);
    StepIsMultiple(s.phase.step, p.interval);
  }

  lemma WriteKeeps(p: Policy, strict: bool, s: State, s': State)
    requires ValidPolicy(p) && Inv(p, strict, s) && SaveStep(p, s, s')
    requires s.phase.Making? || s.phase.Writing?
    ensures Inv(p, strict, s')
  {
    UpdateSize(s.dirs, s.phase.step, Partial);
    UpdateSize(s.dirs, s.phase.step, Complete);
  }

  lemma TrackKeeps(p: Policy, strict: bool, s: State, s': State)
    requires ValidPolicy(p) && Inv(p, strict, s) && SaveStep(p, s, s')
    requires s.phase.Tracking? || (s.phase.Trimming? && |s.dirs| <= p.limit)
    ensures Inv(p, strict, s')
  {
    if s.phase.Tracking? {
      StepIsMultiple(s.phase.step, p.interval);
    }
  }

  lemma SaveKeeps(p: Policy, strict: bool, s: State, s': State)
    requires ValidPolicy(p) && Inv(p, strict, s) && SaveStep(p, s, s')
    requires Roomy(p, strict) || !DeleteStep(p, s, s')
    ensures Inv(p, strict, s')
  {
    match s.phase
    case Pruning(_) =>
      if |s.dirs| > p.limit - 1 {
        DeleteKeeps(p, strict, s, s');
      } else {
        MakeKeeps(p, strict, s, s');
      }
    case Trimming(_) => TrackKeeps(p, strict, s, s');
    case Tracking(_) => TrackKeeps(p, strict, s, s');
    case Making(_) => WriteKeeps(p, strict, s, s');
    case Writing(_) => WriteKeeps(p, strict, s, s');
    case _ =>
  }

  lemma StepIsMultiple(step: nat, interval: nat)
    requires interval > 0 && step >= interval && (step - interval) % interval == 0
    ensures step % interval == 0
  {
    DivMod(step - interval, interval);
    MulSucc((step - interval) / interval, interval);
    DivModUnique(step, interval, (step - interval) / interval + 1, 0);
  }

  /** A crash leaves nothing above the base unless a save was half done. */
  lemma CrashKeeps(p: Policy, strict: bool, s: State, s': State)
    requires ValidPolicy(p) && Inv(p, strict, s) && CrashStep(p, s, s')
    requires strict ==> !TornStep(p, s, s')
    ensures Inv(p, strict, s')
  {
  }

  lemma QuietKeeps(p: Policy, strict: bool, s: State, s': State)
    requires ValidPolicy(p) && Inv(p, strict, s) && QuietStep(p, s, s')
    requires Roomy(p, strict) || !DeleteStep(p, s, s')
    ensures Inv(p, strict, s')
  {
    if StartStep(p, s, s') {
      StartKeeps(p, strict, s, s');
    } else if TrainStep(p, s, s') {
      TrainKeeps(p, strict, s, s');
    } else {
      SaveKeeps(p, strict, s, s');
    }
  }

  // ---------------------------------------------------------------------
  // Every run
  // ---------------------------------------------------------------------

  /** The machine whose runs are all the runs that crash at no other moments than these. */
  ghost function Runs(p: Policy, crashes: set<Moment>): Machine<State>
    requires ValidPolicy(p)
  {
    Machine((s: State) => Init(s), (s: State, s': State) => Next(p, crashes, s, s'))
  }

  /** Three directories kept, or two and no crash inside a save. */
  ghost predicate Enough(p: Policy, crashes: set<Moment>) {
    p.limit >= 3 || (p.limit == 2 && crashes !! HALF_SAVED)
  }

  lemma NextKeeps(p: Policy, crashes: set<Moment>, s: State, s': State)
    requires ValidPolicy(p) && Enough(p, crashes)
    requires Inv(p, p.limit == 2, s) && Next(p, crashes, s, s')
    ensures Inv(p, p.limit == 2, s')
  {
    if QuietStep(p, s, s') {
      QuietKeeps(p, p.limit == 2, s, s');
    } else {
      CrashKeeps(p, p.limit == 2, s, s');
    }
  }

  lemma ReachableInv(p: Policy, crashes: set<Moment>, s: State)
    requires ValidPolicy(p) && Enough(p, crashes) && Reachable(Runs(p, crashes), s)
    ensures Inv(p, p.limit == 2, s)
  {
    var inv := (t: State) => Inv(p, p.limit == 2, t);
    forall t | Init(t) ensures inv(t) {
      InitKeeps(p, p.limit == 2, t);
    }
    forall t, t' | inv(t) && Next(p, crashes, t, t') ensures inv(t') {
      NextKeeps(p, crashes, t, t');
    }
    InvariantHolds(Runs(p, crashes), inv, s);
  }

  /** The tracked directory is there and complete, so resuming picks it; and the disk holds
      no more than the limit. */
  ghost predicate Safe(p: Policy, s: State) {
    && (s.tracker.Some? ==>
          && s.tracker.value in s.dirs && s.dirs[s.tracker.value].Complete?
          && forall r :: Resumes(s.dirs, s.tracker, r) ==> r == s.tracker)
    && |s.dirs| <= p.limit
  }

  ghost predicate AlwaysSafe(p: Policy, crashes: set<Moment>)
    requires ValidPolicy(p)
  {
    forall s :: Reachable(Runs(p, crashes), s) ==> Safe(p, s)
  }

  lemma InvIsSafe(p: Policy, strict: bool, s: State)
    requires ValidPolicy(p) && Inv(p, strict, s)
    ensures Safe(p, s)
  {
  }

  lemma EnoughIsSafe(p: Policy, crashes: set<Moment>)
    requires ValidPolicy(p) && Enough(p, crashes)
    ensures AlwaysSafe(p, crashes)
  {
    forall s | Reachable(Runs(p, crashes), s) ensures Safe(p, s) {
      ReachableInv(p, crashes, s);
      InvIsSafe(p, p.limit == 2, s);
    }
  }

  /** What holds whatever the limit: the disk never holds more than it. */
  ghost predicate Tidy(p: Policy, s: State) {
    && |s.dirs| <= p.limit
    && (s.phase.Making? || s.phase.Writing? || s.phase.Tracking? ==> s.phase.step in s.dirs)
  }

  lemma DeleteTidies(p: Policy, s: State, s': State)
    requires Tidy(p, s) && DeletesOldest(s.dirs, s'.dirs) && s' == s.(dirs := s'.dirs)
    requires s.phase.Pruning? || s.phase.Trimming?
    ensures Tidy(p, s')
  {
    var m := Oldest(s.dirs);
    RemoveSize(s.dirs, m);
    UpdateSize(s.dirs, m, Bare);
    UpdateSize(s.dirs, m, Partial);
  }

  lemma StepTidies(p: Policy, s: State, s': State)
    requires ValidPolicy(p) && Tidy(p, s) && Next(p, ANY_MOMENT, s, s')
    ensures Tidy(p, s')
  {
    if SaveStep(p, s, s') {
      match s.phase
      case Pruning(step) =>
        if |s.dirs| > p.limit - 1 {
          DeleteTidies(p, s, s');
        } else {
          UpdateSize(s.dirs, step, Bare);
        }
      case Trimming(_) =>
        if |s.dirs| > p.limit {
          DeleteTidies(p, s, s');
        }
      case Making(step) => UpdateSize(s.dirs, step, Partial);
      case Writing(step) => UpdateSize(s.dirs, step, Complete);
      case _ =>
    }
  }

  /** In every state of every run, crashes included, at most `limit` step directories exist. */
  lemma NeverTooMany(p: Policy, s: State)
    requires ValidPolicy(p) && Reachable(Runs(p, ANY_MOMENT), s)
    ensures |s.dirs| <= p.limit
  {
    var inv := (t: State) => Tidy(p, t);
    forall t, t' | inv(t) && Next(p, ANY_MOMENT, t, t') ensures inv(t') {
      StepTidies(p, t, t');
    }
    InvariantHolds(Runs(p, ANY_MOMENT), inv, s);
  }

  /** The tracker only ever moves forward, by one save interval once it exists. */
  lemma TrackerMovesForward(p: Policy, crashes: set<Moment>, s: State, s': State)
    requires ValidPolicy(p) && Enough(p, crashes) && Reachable(Runs(p, crashes), s) && Next(p, crashes, s, s')
    ensures s.tracker.Some? ==> s'.tracker == s.tracker || s'.tracker == Some(s.tracker.value + p.interval)
  {
    ReachableInv(p, crashes, s);
  }

  // ---------------------------------------------------------------------
  // Restarting
  // ---------------------------------------------------------------------

  ghost predicate CanStart(p: Policy, s: State) {
    exists s' :: StartStep(p, s, s')
  }

  /** Shards are missing above the base only while they are being written. */
  ghost predicate NoPartialAbove(p: Policy, s: State)
    requires ValidPolicy(p)
  {
    forall d :: d in s.dirs && d > Base(p, s.phase) && s.dirs[d].Partial? ==> s.phase == Writing(d)
  }

  lemma HighestStays(p: Policy, s: State, s': State, d: nat)
    requires ValidPolicy(p) && p.limit >= 2 && DeleteStep(p, s, s')
    requires d in s.dirs && forall c :: c in s.dirs ==> c <= d
    ensures d in s'.dirs && s'.dirs[d] == s.dirs[d]
  {
    if Oldest(s.dirs) == d {
      OnlyOne(s.dirs, d);
      assert false;
    }
  }

  /** The directory above the base, if there is one, is the highest. */
  lemma AboveBase(p: Policy, strict: bool, s: State, d: nat)
    requires ValidPolicy(p) && Inv(p, strict, s) && d in s.dirs && d > Base(p, s.phase)
    ensures d == Base(p, s.phase) + p.interval && forall c :: c in s.dirs ==> c <= d
  {
    MultipleBetween(Base(p, s.phase), d, p.interval);
  }

  lemma StartFromBest(p: Policy, s: State, s': State)
    requires ValidPolicy(p) && Inv(p, false, s) && StartStep(p, s, s') && NoPartialAbove(p, s)
    ensures NoPartialAbove(p, s')
  {
    StartKeeps(p, false, s, s');
    if Base(p, s.phase) > 0 {
      assert HasActor(s.dirs, Base(p, s.phase));
    }
    assert Base(p, s'.phase) >= Base(p, s.phase);
  }

  lemma PartialStays(p: Policy, crashes: set<Moment>, s: State, s': State)
    requires ValidPolicy(p) && Enough(p, crashes) && InWriting !in crashes
    requires Inv(p, p.limit == 2, s) && NoPartialAbove(p, s) && Next(p, crashes, s, s')
    ensures NoPartialAbove(p, s')
  {
    NextKeeps(p, crashes, s, s');
    if StartStep(p, s, s') {
      StartFromBest(p, s, s');
    } else {
      forall d | d in s'.dirs && d > Base(p, s'.phase) && s'.dirs[d].Partial? ensures s'.phase == Writing(d) {
        AboveBase(p, p.limit == 2, s', d);
        if TrainStep(p, s, s') {
          NextMultiple(s.phase.done, p.interval);
        } else if DeleteStep(p, s, s') {
          AboveBase(p, p.limit == 2, s, d);
          HighestStays(p, s, s', d);
        }
      }
    }
  }

  lemma NoPartialStarts(p: Policy, strict: bool, s: State)
    requires ValidPolicy(p) && Inv(p, strict, s) && s.phase.Down? && NoPartialAbove(p, s)
    ensures CanStart(p, s)
  {
    var base := s.phase.base;
    var r := if s.tracker.Some? then s.tracker
             else if HasActor(s.dirs, base + p.interval) then Some(base + p.interval)
             else if base > 0 then Some(base) else None;
    forall d: nat | HasActor(s.dirs, d) && d > base ensures d == base + p.interval {
      AboveBase(p, strict, s, d);
    }
    assert Resumes(s.dirs, s.tracker, r);
    assert StartStep(p, s, s.(phase := Training(if r.Some? then r.value else 0)));
  }

  /** A crash while the first save writes its shards leaves a directory that restarting picks
      and cannot load. */
  lemma FirstSaveStuck(p: Policy, crashes: set<Moment>)
    requires ValidPolicy(p) && InWriting in crashes
    ensures var s := State(map[p.interval := Partial], None, Down(0));
            Reachable(Runs(p, crashes), s) && !CanStart(p, s)
  {
    var i := p.interval;
    FirstSave(p, crashes);
    var making, writing := State(map[i := Bare], None, Making(i)), State(map[i := Partial], None, Writing(i));
    assert map[i := Bare][i := Partial] == map[i := Partial];
    QuietMore(p, crashes, making, writing);
    var s := State(map[i := Partial], None, Down(0));
    OneMore(Runs(p, crashes), writing, s);
    assert HasActor(s.dirs, i);
    forall r | Resumes(s.dirs, s.tracker, r) ensures r == Some(i) {
    }
  }

  /** Among settings that keep the tracked checkpoint safe, the job can be restarted after every
      crash if and only if none falls while shards are being written. */
  lemma RestartIff(p: Policy, crashes: set<Moment>)
    requires ValidPolicy(p) && Enough(p, crashes)
    ensures (forall s :: Reachable(Runs(p, crashes), s) && s.phase.Down? ==> CanStart(p, s)) <==> InWriting !in crashes
  {
    if InWriting in crashes {
      FirstSaveStuck(p, crashes);
    } else {
      forall s | Reachable(Runs(p, crashes), s) && s.phase.Down? ensures CanStart(p, s) {
        ReachableInv(p, crashes, s);
        ReachableNoPartial(p, crashes, s);
        NoPartialStarts(p, p.limit == 2, s);
      }
    }
  }

  lemma ReachableNoPartial(p: Policy, crashes: set<Moment>, s: State)
    requires ValidPolicy(p) && Enough(p, crashes) && InWriting !in crashes && Reachable(Runs(p, crashes), s)
    ensures NoPartialAbove(p, s)
  {
    var inv := (t: State) => Inv(p, p.limit == 2, t) && NoPartialAbove(p, t);
    forall t | Init(t) ensures inv(t) {
      InitKeeps(p, p.limit == 2, t);
    }
    forall t, t' | inv(t) && Next(p, crashes, t, t') ensures inv(t') {
      NextKeeps(p, crashes, t, t');
      PartialStays(p, crashes, t, t');
    }
    InvariantHolds(Runs(p, crashes), inv, s);
  }

  // ---------------------------------------------------------------------
  // Runs that lose the tracked checkpoint
  // ---------------------------------------------------------------------

  lemma QuietMore(p: Policy, crashes: set<Moment>, s: State, s': State)
    requires ValidPolicy(p) && Reachable(Runs(p, crashes), s) && QuietStep(p, s, s')
    ensures Reachable(Runs(p, crashes), s')
  {
    OneMore(Runs(p, crashes), s, s');
  }

  /** Training on until the next save begins. */
  lemma {:induction false} TrainOn(p: Policy, crashes: set<Moment>, s: State, base: nat)
    requires ValidPolicy(p) && Reachable(Runs(p, crashes), s) && s.phase.Training?
    requires base % p.interval == 0 && base <= s.phase.done < base + p.interval
    ensures Reachable(Runs(p, crashes), s.(phase := Pruning(base + p.interval)))
    decreases base + p.interval - s.phase.done
  {
    var next := s.phase.done + 1;
    OnlyMultiple(base, next, p.interval);
    var s' := s.(phase := if next == base + p.interval then Pruning(next) else Training(next));
    QuietMore(p, crashes, s, s');
    if next < base + p.interval {
      TrainOn(p, crashes, s', base);
    }
  }

  lemma OnlyMultiple(base: nat, next: nat, interval: nat)
    requires interval > 0 && base % interval == 0 && base < next <= base + interval
    ensures next % interval == 0 <==> next == base + interval
  {
    DivMod(base, interval);
    MulSucc(base / interval, interval);
    if next < base + interval {
      DivModUnique(next, interval, base / interval, next - base);
    } else {
      DivModUnique(next, interval, base / interval + 1, 0);
    }
  }

  /** Making room is over: the step directory appears. */
  lemma MakeDir(p: Policy, crashes: set<Moment>, dirs: Dirs, tracker: Option<nat>, step: nat)
    requires ValidPolicy(p) && |dirs| <= p.limit - 1 && step !in dirs
    requires Reachable(Runs(p, crashes), State(dirs, tracker, Pruning(step)))
    ensures Reachable(Runs(p, crashes), State(dirs[step := Bare], tracker, Making(step)))
  {
    QuietMore(p, crashes, State(dirs, tracker, Pruning(step)), State(dirs[step := Bare], tracker, Making(step)));
  }

  lemma WriteDir(p: Policy, crashes: set<Moment>, dirs: Dirs, tracker: Option<nat>, step: nat)
    requires ValidPolicy(p) && step in dirs
    requires Reachable(Runs(p, crashes), State(dirs, tracker, Making(step)))
    ensures Reachable(Runs(p, crashes), State(dirs[step := Complete], tracker, Tracking(step)))
  {
    var writing := State(dirs[step := Partial], tracker, Writing(step));
    QuietMore(p, crashes, State(dirs, tracker, Making(step)), writing);
    assert dirs[step := Partial][step := Complete] == dirs[step := Complete];
    QuietMore(p, crashes, writing, State(dirs[step := Complete], tracker, Tracking(step)));
  }

  lemma TrackDir(p: Policy, crashes: set<Moment>, dirs: Dirs, tracker: Option<nat>, step: nat)
    requires ValidPolicy(p) && |dirs| <= p.limit
    requires Reachable(Runs(p, crashes), State(dirs, tracker, Tracking(step)))
    ensures Reachable(Runs(p, crashes), State(dirs, Some(step), Training(step)))
  {
    var trimming := State(dirs, Some(step), Trimming(step));
    QuietMore(p, crashes, State(dirs, tracker, Tracking(step)), trimming);
    QuietMore(p, crashes, trimming, State(dirs, Some(step), Training(step)));
  }

  lemma StartWith(p: Policy, crashes: set<Moment>, dirs: Dirs, tracker: Option<nat>, base: nat, r: Option<nat>)
    requires ValidPolicy(p) && Resumes(dirs, tracker, r)
    requires r.Some? ==> HasActor(dirs, r.value) && dirs[r.value].Complete?
    requires Reachable(Runs(p, crashes), State(dirs, tracker, Down(base)))
    ensures Reachable(Runs(p, crashes), State(dirs, tracker, Training(if r.Some? then r.value else 0)))
  {
    var s := State(dirs, tracker, Down(base));
    var s' := State(dirs, tracker, Training(if r.Some? then r.value else 0));
    assert StartStep(p, s, s');
    QuietMore(p, crashes, s, s');
  }

  /** The first save of any run, up to the creation of its directory. */
  lemma FirstSave(p: Policy, crashes: set<Moment>)
    requires ValidPolicy(p)
    ensures Reachable(Runs(p, crashes), State(map[p.interval := Bare], None, Making(p.interval)))
  {
    StartReachable(Runs(p, crashes), State(map[], None, Down(0)));
    StartWith(p, crashes, map[], None, 0, None);
    DivModUnique(0, p.interval, 0, 0);
    TrainOn(p, crashes, State(map[], None, Training(0)), 0);
    MakeDir(p, crashes, map[], None, p.interval);
  }

  /** And up to the start of the second. */
  lemma SecondSave(p: Policy, crashes: set<Moment>)
    requires ValidPolicy(p)
    ensures Reachable(Runs(p, crashes), State(map[p.interval := Complete], Some(p.interval), Pruning(2 * p.interval)))
  {
    var i := p.interval;
    FirstSave(p, crashes);
    WriteDir(p, crashes, map[i := Bare], None, i);
    assert map[i := Bare][i := Complete] == map[i := Complete];
    TrackDir(p, crashes, map[i := Complete], None, i);
    DivModUnique(i, i, 1, 0);
    TrainOn(p, crashes, State(map[i := Complete], Some(i), Training(i)), i);
  }

  /** Making room starts by damaging or removing the oldest directory. */
  lemma RemoveOldest(p: Policy, crashes: set<Moment>, dirs: Dirs, tracker: Option<nat>, step: nat)
    requires ValidPolicy(p) && |dirs| > p.limit - 1 && |dirs| > 0
    requires Reachable(Runs(p, crashes), State(dirs, tracker, Pruning(step)))
    ensures Reachable(Runs(p, crashes), State(dirs - {Oldest(dirs)}, tracker, Pruning(step)))
  {
    QuietMore(p, crashes, State(dirs, tracker, Pruning(step)), State(dirs - {Oldest(dirs)}, tracker, Pruning(step)));
  }

  lemma {:induction false} PruneRun(p: Policy, crashes: set<Moment>, dirs: Dirs, tracker: Option<nat>, step: nat)
    requires ValidPolicy(p) && Reachable(Runs(p, crashes), State(dirs, tracker, Pruning(step)))
    ensures Reachable(Runs(p, crashes), State(PrunedTo(dirs, p.limit - 1), tracker, Pruning(step)))
    decreases |dirs|
  {
    if |dirs| > p.limit - 1 {
      RemoveOldest(p, crashes, dirs, tracker, step);
      RemoveSize(dirs, Oldest(dirs));
      PruneRun(p, crashes, dirs - {Oldest(dirs)}, tracker, step);
    }
  }

  lemma MakeAndWrite(p: Policy, crashes: set<Moment>, dirs: Dirs, tracker: Option<nat>, step: nat)
    requires ValidPolicy(p) && |dirs| <= p.limit - 1
    requires Reachable(Runs(p, crashes), State(dirs, tracker, Pruning(step)))
    ensures Reachable(Runs(p, crashes), State(dirs[step := Complete], tracker, Tracking(step)))
  {
    var made := if step in dirs then dirs else dirs[step := Bare];
    QuietMore(p, crashes, State(dirs, tracker, Pruning(step)), State(made, tracker, Making(step)));
    WriteDir(p, crashes, made, tracker, step);
    assert made[step := Complete] == dirs[step := Complete];
  }

  /** The uninterrupted save method is one of the machine's runs. */
  lemma SaveIsRun(p: Policy, crashes: set<Moment>, dirs: Dirs, tracker: Option<nat>, step: nat)
    requires ValidPolicy(p) && Reachable(Runs(p, crashes), State(dirs, tracker, Pruning(step)))
    ensures var after := PrunedTo(PrunedTo(dirs, p.limit - 1)[step := Complete], p.limit);
            Reachable(Runs(p, crashes), State(after, Some(step), Training(step)))
  {
    PruneRun(p, crashes, dirs, tracker, step);
    var roomy := PrunedTo(dirs, p.limit - 1);
    PrunedSize(dirs, p.limit - 1);
    MakeAndWrite(p, crashes, roomy, tracker, step);
    UpdateSize(roomy, step, Complete);
    TrackDir(p, crashes, roomy[step := Complete], tracker, step);
  }

  /** With one directory kept, making room for the second save already deletes the first. */
  lemma LimitOneUnsafe(p: Policy, crashes: set<Moment>)
    requires ValidPolicy(p) && p.limit == 1
    ensures !AlwaysSafe(p, crashes)
  {
    SecondSave(p, crashes);
    var i := p.interval;
    var dirs := map[i := Complete];
    RemoveOldest(p, crashes, dirs, Some(i), 2 * i);
    assert !Safe(p, State(dirs - {i}, Some(i), Pruning(2 * i)));
  }

  lemma SaveDeletesTracked(p: Policy, s: State, s': State)
    requires ValidPolicy(p) && p.limit == 2 && |s.dirs| <= 2 && DeleteStep(p, s, s')
    requires s.tracker.Some? && s.tracker.value in s.dirs && exists d :: d in s.dirs && d > s.tracker.value
    ensures !Safe(p, s')
  {
    var d :| d in s.dirs && d > s.tracker.value;
    SubsetSize({s.tracker.value, d}, s.dirs.Keys);
    assert |s.dirs.Keys| == |s.dirs|;
    assert Oldest(s.dirs) == s.tracker.value;
  }

  /** The second save crashed half done, at `phase`, and left `dir` behind: the next attempt
      deletes the tracked directory. */
  lemma LeftoverIsFatal(p: Policy, crashes: set<Moment>, dir: Dir, phase: Phase)
    requires ValidPolicy(p) && p.limit == 2
    requires phase.Making? || phase.Writing? || phase.Tracking?
    requires phase.step == 2 * p.interval && MomentOf(phase) in crashes
    requires Reachable(Runs(p, crashes),
                       State(map[p.interval := Complete][2 * p.interval := dir], Some(p.interval), phase))
    ensures !AlwaysSafe(p, crashes)
  {
    var i := p.interval;
    var dirs := map[i := Complete][2 * i := dir];
    OneMore(Runs(p, crashes), State(dirs, Some(i), phase), State(dirs, Some(i), Down(i)));
    StartWith(p, crashes, dirs, Some(i), i, Some(i));
    DivModUnique(i, i, 1, 0);
    TrainOn(p, crashes, State(dirs, Some(i), Training(i)), i);
    UpdateSize(map[i := Complete], 2 * i, dir);
    RemoveOldest(p, crashes, dirs, Some(i), 2 * i);
    assert Oldest(dirs) == i;
    assert !Safe(p, State(dirs - {i}, Some(i), Pruning(2 * i)));
  }

  /** With two directories kept, a crash at any of the half-saved moments is enough. */
  lemma LimitTwoUnsafe(p: Policy, crashes: set<Moment>)
    requires ValidPolicy(p) && p.limit == 2 && !(crashes !! HALF_SAVED)
    ensures !AlwaysSafe(p, crashes)
  {
    var i := p.interval;
    var first := map[i := Complete];
    SecondSave(p, crashes);
    MakeDir(p, crashes, first, Some(i), 2 * i);
    if InMaking in crashes {
      LeftoverIsFatal(p, crashes, Bare, Making(2 * i));
    } else if InWriting in crashes {
      QuietMore(p, crashes, State(first[2 * i := Bare], Some(i), Making(2 * i)),
                State(first[2 * i := Bare][2 * i := Partial], Some(i), Writing(2 * i)));
      assert first[2 * i := Bare][2 * i := Partial] == first[2 * i := Partial];
      LeftoverIsFatal(p, crashes, Partial, Writing(2 * i));
    } else {
      WriteDir(p, crashes, first[2 * i := Bare], Some(i), 2 * i);
      assert first[2 * i := Bare][2 * i := Complete] == first[2 * i := Complete];
      LeftoverIsFatal(p, crashes, Complete, Tracking(2 * i));
    }
  }

  /** Main result, for crashes confined to any set of moments: over every run of saves, crashes
      and restarts the tracked checkpoint is always there and complete exactly when at least
      three directories are kept, or two and no crash falls between creating a step directory
      and writing the tracker. */
  lemma SafeIff(p: Policy, crashes: set<Moment>)
    requires ValidPolicy(p)
    ensures AlwaysSafe(p, crashes) <==> p.limit >= 3 || (p.limit == 2 && crashes !! HALF_SAVED)
  {
    if Enough(p, crashes) {
      EnoughIsSafe(p, crashes);
    } else if p.limit == 1 {
      LimitOneUnsafe(p, crashes);
    } else {
      LimitTwoUnsafe(p, crashes);
    }
  }

  // ---------------------------------------------------------------------
  // What loses it, run by run
  // ---------------------------------------------------------------------

  ghost predicate TornAt(p: Policy, run: seq<State>, a: nat)
    requires ValidPolicy(p)
  {
    a + 1 < |run| && TornStep(p, run[a], run[a + 1])
  }

  ghost predicate DeletesAt(p: Policy, run: seq<State>, b: nat)
    requires ValidPolicy(p)
  {
    b + 1 < |run| && DeleteStep(p, run[b], run[b + 1])
  }

  /** Before state `k` a save crashed half done. */
  ghost predicate TornBefore(p: Policy, run: seq<State>, k: nat)
    requires ValidPolicy(p)
  {
    k > 0 && (TornBefore(p, run, k - 1) || TornAt(p, run, k - 1))
  }

  /** Before state `k` a save crashed half done, and a later one deleted to make room. */
  ghost predicate TornThenDeleted(p: Policy, run: seq<State>, k: nat)
    requires ValidPolicy(p)
  {
    k > 0 && (TornThenDeleted(p, run, k - 1) || (TornBefore(p, run, k - 1) && DeletesAt(p, run, k - 1)))
  }

  lemma RunStep(p: Policy, run: seq<State>, k: nat)
    requires ValidPolicy(p) && IsRun(Runs(p, ANY_MOMENT), run) && 0 < k < |run|
    ensures Next(p, ANY_MOMENT, run[k - 1], run[k])
  {
    assert Runs(p, ANY_MOMENT).step(run[k - 1], run[k]);
  }

  lemma CalmStep(p: Policy, s: State, s': State)
    requires Roomy(p, true) && Inv(p, true, s) && Next(p, ANY_MOMENT, s, s')
    ensures Inv(p, false, s')
    ensures !TornStep(p, s, s') ==> Inv(p, true, s')
  {
    if QuietStep(p, s, s') {
      QuietKeeps(p, true, s, s');
    } else {
      CrashKeeps(p, false, s, s');
      if !TornStep(p, s, s') {
        CrashKeeps(p, true, s, s');
      }
    }
  }

  lemma LooseStep(p: Policy, s: State, s': State)
    requires ValidPolicy(p) && Inv(p, false, s) && Next(p, ANY_MOMENT, s, s') && !DeleteStep(p, s, s')
    ensures Inv(p, false, s')
  {
    if QuietStep(p, s, s') {
      QuietKeeps(p, false, s, s');
    } else {
      CrashKeeps(p, false, s, s');
    }
  }

  lemma {:induction false} KeptUntilDeletion(p: Policy, run: seq<State>, k: nat)
    requires ValidPolicy(p) && p.limit >= 2 && IsRun(Runs(p, ANY_MOMENT), run) && k < |run|
    requires !TornThenDeleted(p, run, k)
    ensures Inv(p, false, run[k]) && (TornBefore(p, run, k) || Inv(p, true, run[k]))
  {
    if k == 0 {
      InitKeeps(p, true, run[0]);
    } else {
      KeptUntilDeletion(p, run, k - 1);
      RunStep(p, run, k);
      if TornBefore(p, run, k - 1) {
        LooseStep(p, run[k - 1], run[k]);
      } else {
        CalmStep(p, run[k - 1], run[k]);
      }
    }
  }

  /** With two directories kept the tracked checkpoint is safe, whatever crashes, up to a save
      that makes room after an earlier one crashed half done. */
  lemma SafeUntilNextSave(p: Policy, run: seq<State>, k: nat)
    requires ValidPolicy(p) && p.limit >= 2 && IsRun(Runs(p, ANY_MOMENT), run) && k < |run|
    requires !TornThenDeleted(p, run, k)
    ensures Safe(p, run[k])
  {
    KeptUntilDeletion(p, run, k);
    InvIsSafe(p, false, run[k]);
  }

  ghost predicate SafeRun(p: Policy, run: seq<State>) {
    forall k :: 0 <= k < |run| ==> Safe(p, run[k])
  }

  /** A save crashed half done, and no later one has made room yet. */
  ghost predicate Doomed(p: Policy, s: State)
    requires ValidPolicy(p)
  {
    && Inv(p, false, s) && s.tracker.Some? && s.tracker.value + p.interval in s.dirs
    && (s.phase.Down? || s.phase.Training? || s.phase.Pruning?)
  }

  lemma DoomedStays(p: Policy, s: State, s': State)
    requires ValidPolicy(p) && p.limit == 2 && Doomed(p, s) && Next(p, ANY_MOMENT, s, s')
    ensures if DeleteStep(p, s, s') then !Safe(p, s') else Doomed(p, s')
  {
    SubsetSize({s.tracker.value, s.tracker.value + p.interval}, s.dirs.Keys);
    assert |s.dirs.Keys| == |s.dirs|;
    if DeleteStep(p, s, s') {
      SaveDeletesTracked(p, s, s');
    } else if QuietStep(p, s, s') {
      QuietKeeps(p, false, s, s');
    } else {
      CrashKeeps(p, false, s, s');
    }
  }

  lemma TornIsDoomed(p: Policy, s: State, s': State)
    requires ValidPolicy(p) && Inv(p, false, s) && TornStep(p, s, s') && s.tracker.Some?
    ensures Doomed(p, s')
  {
    CrashKeeps(p, false, s, s');
  }

  /** No save crashed half done before the first tracker was written. */
  ghost predicate TornAfterTracker(p: Policy, run: seq<State>)
    requires ValidPolicy(p)
  {
    forall a: nat {:trigger TornAt(p, run, a)} :: TornAt(p, run, a) ==> run[a].tracker.Some?
  }

  lemma {:induction false} DoomedUntilDeletion(p: Policy, run: seq<State>, k: nat)
    requires ValidPolicy(p) && p.limit == 2 && IsRun(Runs(p, ANY_MOMENT), run) && k < |run|
    requires SafeRun(p, run) && TornAfterTracker(p, run)
    ensures !TornThenDeleted(p, run, k)
    ensures if TornBefore(p, run, k) then Doomed(p, run[k]) else Inv(p, true, run[k])
  {
    if k == 0 {
      InitKeeps(p, true, run[0]);
    } else {
      DoomedUntilDeletion(p, run, k - 1);
      RunStep(p, run, k);
      if TornBefore(p, run, k - 1) {
        assert Safe(p, run[k]);
        DoomedStays(p, run[k - 1], run[k]);
      } else if TornAt(p, run, k - 1) {
        CalmStep(p, run[k - 1], run[k]);
        TornIsDoomed(p, run[k - 1], run[k]);
      } else {
        CalmStep(p, run[k - 1], run[k]);
      }
    }
  }

  /** With two directories kept, a run whose crashes inside a save come after the first tracker
      was written keeps the tracked checkpoint if and only if no such crash is followed by a save
      that makes room. */
  lemma SafeIffNotTornThenDeleted(p: Policy, run: seq<State>)
    requires ValidPolicy(p) && p.limit == 2 && IsRun(Runs(p, ANY_MOMENT), run) && TornAfterTracker(p, run)
    ensures SafeRun(p, run) <==> !TornThenDeleted(p, run, |run| - 1)
  {
    if SafeRun(p, run) {
      DoomedUntilDeletion(p, run, |run| - 1);
    } else if !TornThenDeleted(p, run, |run| - 1) {
      var k :| 0 <= k < |run| && !Safe(p, run[k]);
      if TornThenDeleted(p, run, k) {
        TornThenDeletedStays(p, run, k, |run| - 1);
      }
      SafeUntilNextSave(p, run, k);
      assert false;
    }
  }

  lemma {:induction false} TornThenDeletedStays(p: Policy, run: seq<State>, k: nat, n: nat)
    requires ValidPolicy(p) && k <= n && TornThenDeleted(p, run, k)
    ensures TornThenDeleted(p, run, n)
    decreases n
  {
    if k < n {
      TornThenDeletedStays(p, run, k, n - 1);
    }
  }

  // ---------------------------------------------------------------------
  // The check before a save
  // ---------------------------------------------------------------------

  /** A save makes room although a directory above the tracked one is on disk. */
  ghost predicate DeletesBelowLeftover(p: Policy, run: seq<State>, b: nat)
    requires ValidPolicy(p)
  {
    && DeletesAt(p, run, b) && run[b].tracker.Some?
    && exists d :: d in run[b].dirs && d > run[b].tracker.value
  }

  /** What holds while nothing was lost, also before the first tracker. */
  ghost predicate Running(p: Policy, s: State)
    requires ValidPolicy(p)
  {
    && Tidy(p, s) && Safe(p, s)
    && (s.phase.Tracking? ==> s.dirs[s.phase.step].Complete?)
    && (!s.phase.Down? && !s.phase.Training? ==> s.phase.step >= p.interval && s.phase.step % p.interval == 0)
    && (s.tracker.Some? ==> Base(p, s.phase) == s.tracker.value && s.tracker.value % p.interval == 0)
  }

  lemma RunningStays(p: Policy, s: State, s': State)
    requires ValidPolicy(p) && p.limit >= 2 && Running(p, s) && Next(p, ANY_MOMENT, s, s')
    requires DeleteStep(p, s, s') && s.tracker.Some? ==> forall d :: d in s.dirs ==> d <= s.tracker.value
    ensures Running(p, s')
  {
    StepTidies(p, s, s');
    if DeleteStep(p, s, s') && s.tracker.Some? && Oldest(s.dirs) == s.tracker.value {
      OnlyOne(s.dirs, s.tracker.value);
      assert false;
    } else if TrainStep(p, s, s') {
      NextMultiple(s.phase.done, p.interval);
    }
  }

  lemma OnlyOne(dirs: Dirs, t: nat)
    requires |dirs| > 0 && Oldest(dirs) == t && forall d :: d in dirs ==> d <= t
    ensures |dirs| == 1
  {
    SubsetSize(dirs.Keys, {t});
    assert |dirs.Keys| == |dirs|;
  }

  ghost predicate NeverBelowLeftover(p: Policy, run: seq<State>)
    requires ValidPolicy(p)
  {
    forall b: nat :: !DeletesBelowLeftover(p, run, b)
  }

  lemma {:induction false} RunningUntilLoss(p: Policy, run: seq<State>, k: nat)
    requires ValidPolicy(p) && p.limit >= 2 && IsRun(Runs(p, ANY_MOMENT), run) && k < |run|
    requires NeverBelowLeftover(p, run)
    ensures Running(p, run[k])
  {
    if k > 0 {
      RunningUntilLoss(p, run, k - 1);
      RunStep(p, run, k);
      assert !DeletesBelowLeftover(p, run, k - 1);
      RunningStays(p, run[k - 1], run[k]);
    }
  }

  lemma {:induction false} TidyRun(p: Policy, run: seq<State>, k: nat)
    requires ValidPolicy(p) && IsRun(Runs(p, ANY_MOMENT), run) && k < |run|
    ensures Tidy(p, run[k])
  {
    if k > 0 {
      TidyRun(p, run, k - 1);
      RunStep(p, run, k);
      StepTidies(p, run[k - 1], run[k]);
    }
  }

  /** Main result, run by run: with two directories kept any run at all keeps the tracked
      checkpoint if and only if no save makes room while a directory above the tracked one is
      on disk. */
  lemma SafeIffNoLeftover(p: Policy, run: seq<State>)
    requires ValidPolicy(p) && p.limit == 2 && IsRun(Runs(p, ANY_MOMENT), run)
    ensures SafeRun(p, run) <==> NeverBelowLeftover(p, run)
  {
    if NeverBelowLeftover(p, run) {
      forall k | 0 <= k < |run| ensures Safe(p, run[k]) {
        RunningUntilLoss(p, run, k);
      }
    } else {
      var b: nat :| DeletesBelowLeftover(p, run, b);
      TidyRun(p, run, b);
      if Safe(p, run[b]) {
        SaveDeletesTracked(p, run[b], run[b + 1]);
      }
    }
  }
}
