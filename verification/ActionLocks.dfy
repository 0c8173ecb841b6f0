/**
  The refcounted keyed mutex around signing. Any number of threads interleave; each step is one
  critical section of actionsMu, one operation on an action lock, or one call made while holding it.
 */
module ActionLocks {

  datatype Stage = Entered | Absent | Signed | Stored

  datatype Thread =
    | Outside
    | Waiting(key: string, lock: nat)
    | Holding(key: string, lock: nat, stage: Stage)
    | Leaving(key: string, lock: nat)

  datatype EngineCall = EngineCall(key: string, durableThen: bool)

  /**
    How ledger.Prepare ends: acknowledged, refused before the write, not written, or written and then reported
    as failed.
   */
  datatype Outcome = Acknowledged | Refused | Unwritten | Unacknowledged

  /**
    `table` is actionLocks, `refs` and `held` the fields of the lock objects. `disk` holds the action keys in the
    ledger file, `known` those of byAction; after a failed write the journal is faulted and writes nothing more.
   */
  datatype State = State(
    threads: map<nat, Thread>, table: map<string, nat>, refs: map<nat, int>, held: set<nat>, next: nat,
    disk: set<string>, known: set<string>, fault: bool, engine: seq<EngineCall>)

  datatype Step =
    | Enter(t: nat, key: string)   // find or create the lock and count this thread in
    | Acquire(t: nat)              // lock.mu.Lock returns
    | Check(t: nat)                // PreparedFor finds no record
    | Sign(t: nat)                 // VerifyAndSign
    | Store(t: nat, outcome: Outcome)  // ledger.Prepare
    | Unlock(t: nat)               // the deferred function starts, on any path
    | Leave(t: nat)                // count this thread out and drop an unused lock
    | Faults                       // another write of the ledger fails
    | Reopen                       // the process dies and reads its maps back from the ledger file

  predicate At(s: State, t: nat, stage: Stage) {
    t in s.threads && s.threads[t].Holding? && s.threads[t].stage == stage
  }

  function Move(s: State, t: nat, stage: Stage): State
    requires t in s.threads && s.threads[t].Holding?
  {
    s.(threads := s.threads[t := s.threads[t].(stage := stage)])
  }

  function Next(s: State, step: Step): State {
    match step
    case Enter(t, key) =>
      if t in s.threads && !s.threads[t].Outside? then s
      else if key in s.table then
        var l := s.table[key];
        s.(threads := s.threads[t := Waiting(key, l)], refs := s.refs[l := (if l in s.refs then s.refs[l] else 0) + 1])
      else
        s.(threads := s.threads[t := Waiting(key, s.next)], table := s.table[key := s.next], refs := s.refs[s.next :=
            1], next := s.next + 1)
    case Acquire(t) =>
      if t in s.threads && s.threads[t].Waiting? && s.threads[t].lock !in s.held
      then s.(threads := s.threads[t := Holding(s.threads[t].key, s.threads[t].lock, Entered)], held :=
          s.held + {s.threads[t].lock}) else s
    case Check(t) => if At(s, t, Entered) && s.threads[t].key !in s.known then Move(s, t, Absent) else s
    case Sign(t) =>
      if At(s, t, Absent)
      then Move(s, t, Signed).(engine := s.engine + [EngineCall(s.threads[t].key, s.threads[t].key in s.disk)]) else s
    case Store(t, outcome) =>
      if !At(s, t, Signed) then s
      else
        var key, v := s.threads[t].key, Move(s, t, Stored);
        if s.fault || outcome.Refused? then v
        else if outcome.Acknowledged? then v.(disk := s.disk + {key}, known := s.known + {key})
        else if outcome.Unwritten? then v.(fault := true)
        else v.(disk := s.disk + {key}, fault := true)
    case Unlock(t) =>
      if t in s.threads && s.threads[t].Holding?
      then s.(threads := s.threads[t := Leaving(s.threads[t].key, s.threads[t].lock)], held :=
          s.held - {s.threads[t].lock}) else s
    case Leave(t) =>
      if t in s.threads && s.threads[t].Leaving? then
        var (key, l) := (s.threads[t].key, s.threads[t].lock);
        var refs := (if l in s.refs then s.refs[l] else 0) - 1;
        s.(threads := s.threads[t := Outside], refs := s.refs[l := refs],
           table := if refs == 0 && key in s.table && s.table[key] == l then s.table - {key} else s.table)
      else s
    case Faults => s.(fault := true)
    case Reopen => State(map[], map[], s.refs, {}, s.next, s.disk, s.disk, false, s.engine)
  }

  function Initial(disk: set<string>): State {
    State(map[], map[], map[], {}, 0, disk, disk, false, [])
  }

  function Run(disk: set<string>, steps: seq<Step>): State {
    if |steps| == 0 then Initial(disk) else Next(Run(disk, steps[..|steps| - 1]), steps[|steps| - 1])
  }

  // ---------- Invariant ----------

  predicate Uses(x: Thread, l: nat) {
    !x.Outside? && x.lock == l
  }

  function Users(threads: map<nat, Thread>, l: nat): set<nat> {
    set t | t in threads && Uses(threads[t], l)
  }

  /** The thread's lock is in the table under the thread's key. */
  predicate Anchored(s: State, x: Thread) {
    !x.Outside? ==> x.key in s.table && s.table[x.key] == x.lock && x.lock < s.next
  }

  predicate Fresh(s: State, x: Thread) {
    x.Holding? && (x.stage == Absent || x.stage == Signed) ==> x.key !in s.known
  }

  predicate Counted(s: State, key: string)
    requires key in s.table
  {
    var l := s.table[key];
    l < s.next && l in s.refs && s.refs[l] == |Users(s.threads, l)| && s.refs[l] > 0
  }

  predicate Exclusive(s: State) {
    && (forall t | t in s.threads && s.threads[t].Holding? :: s.threads[t].lock in s.held)
    && (forall t, u | t in s.threads && u in s.threads && s.threads[t].Holding? && s.threads[u].Holding?
        && s.threads[t].lock == s.threads[u].lock :: t == u)
  }

  /** The table holds exactly the locks in use, one per key. */
  predicate Tabled(s: State) {
    && (forall t | t in s.threads :: Anchored(s, s.threads[t]))
    && (forall key | key in s.table :: Counted(s, key))
    && (forall a, b | a in s.table && b in s.table && s.table[a] == s.table[b] :: a == b)
  }

  /** Memory follows the file, and only a faulted journal lets it lag. */
  predicate Remembered(s: State) {
    && (forall t | t in s.threads :: Fresh(s, s.threads[t]))
    && s.known <= s.disk && (s.known == s.disk || s.fault)
  }

  predicate Inv(s: State) {
    Tabled(s) && Exclusive(s) && Remembered(s)
  }

  lemma UsersAfter(threads: map<nat, Thread>, t: nat, x: Thread, l: nat)
    ensures var before := t in threads && Uses(threads[t], l);
            |Users(threads[t := x], l)| == |Users(threads, l)| - (if before then 1 else 0)
                + (if Uses(x, l) then 1 else 0)
  {
    var rest := Users(threads, l) - {t};
    assert Users(threads, l) == if t in threads && Uses(threads[t], l) then rest + {t} else rest;
    assert Users(threads[t := x], l) == if Uses(x, l) then rest + {t} else rest;
  }

  lemma EnterKeeps(s: State, step: Step)
    requires Tabled(s) && step.Enter?
    ensures Tabled(Next(s, step))
  {
    hide Users;
    var v := Next(s, step);
    var (t, key) := (step.t, step.key);
    if v != s {
      if key !in s.table { NobodyUsesNext(s); }
      forall k | k in v.table ensures Counted(v, k) {
        UsersAfter(s.threads, t, v.threads[t], v.table[k]);
        assert k != key ==> Counted(s, k) && v.table[k] == s.table[k];
        assert key in s.table ==> Counted(s, key);
      }
    }
  }

  lemma NobodyUsesNext(s: State)
    requires Tabled(s)
    ensures Users(s.threads, s.next) == {}
  {
  }

  lemma LeaveKeeps(s: State, step: Step)
    requires Tabled(s) && step.Leave?
    ensures Tabled(Next(s, step))
  {
    hide Users;
    var v := Next(s, step);
    var t := step.t;
    if t in s.threads && s.threads[t].Leaving? {
      var (key, l) := (s.threads[t].key, s.threads[t].lock);
      assert Anchored(s, s.threads[t]) && Counted(s, key);
      UsersAfter(s.threads, t, Outside, l);
      forall k | k in v.table ensures Counted(v, k) {
        UsersAfter(s.threads, t, Outside, v.table[k]);
        assert Counted(s, k);
      }
      forall u | u in v.threads ensures Anchored(v, v.threads[u]) {
        if u != t && key !in v.table { StillUsed(v.threads, u, l); }
      }
    }
  }

  lemma StillUsed(threads: map<nat, Thread>, u: nat, l: nat)
    requires |Users(threads, l)| == 0 && u in threads
    ensures !Uses(threads[u], l)
  {
    assert Uses(threads[u], l) ==> u in Users(threads, l);
  }

  /** A step that only changes how thread `t` uses the lock it already counts for. */
  lemma InsideKeeps(s: State, step: Step)
    requires Tabled(s) && (step.Acquire? || step.Check? || step.Sign? || step.Store? || step.Unlock?)
    ensures Tabled(Next(s, step))
  {
    hide Users;
    var v := Next(s, step);
    var t := step.t;
    if v != s {
      assert Anchored(s, s.threads[t]);
      forall k | k in v.table ensures Counted(v, k) {
        UsersAfter(s.threads, t, v.threads[t], v.table[k]);
        assert Counted(s, k);
      }
    }
  }

  lemma ExclusiveKeeps(s: State, step: Step)
    requires Exclusive(s)
    ensures Exclusive(Next(s, step))
  {
  }

  lemma RememberedKeeps(s: State, step: Step)
    requires Inv(s)
    ensures Remembered(Next(s, step))
  {
    hide Counted, Users;
    var v := Next(s, step);
    if step.Store? && v != s {
      forall u | u in v.threads ensures Fresh(v, v.threads[u]) {
        assert Fresh(s, s.threads[u]) && Anchored(s, s.threads[u]) && Anchored(s, s.threads[step.t]);
      }
    }
  }

  lemma NextKeeps(s: State, step: Step)
    requires Inv(s)
    ensures Inv(Next(s, step))
  {
    hide Tabled, Exclusive, Remembered, Next;
    ExclusiveKeeps(s, step);
    RememberedKeeps(s, step);
    if step.Enter? { EnterKeeps(s, step); } else if step.Leave? { LeaveKeeps(s, step); }
    else if step.Reopen? || step.Faults? { ReopenKeeps(s, step); } else { InsideKeeps(s, step); }
  }

  lemma ReopenKeeps(s: State, step: Step)
    requires Tabled(s) && (step.Reopen? || step.Faults?)
    ensures Tabled(Next(s, step))
  {
  }

  lemma {:induction false} RunKeeps(disk: set<string>, steps: seq<Step>)
    ensures Inv(Run(disk, steps))
  {
    hide Inv, Next;
    if |steps| == 0 {
      InitialInv(disk);
    } else {
      RunKeeps(disk, steps[..|steps| - 1]);
      NextKeeps(Run(disk, steps[..|steps| - 1]), steps[|steps| - 1]);
    }
  }

  lemma InitialInv(disk: set<string>)
    ensures Inv(Initial(disk))
  {
  }

  // ---------- Results over every run ----------

  /** At most one thread is inside the critical section of an action key. */
  lemma MutualExclusion(disk: set<string>, steps: seq<Step>, t: nat, u: nat)
    requires var s := Run(disk, steps);
             t in s.threads && u in s.threads && s.threads[t].Holding? && s.threads[u].Holding?
                 && s.threads[t].key == s.threads[u].key
    ensures t == u
  {
    hide Run;
    RunKeeps(disk, steps);
    var s := Run(disk, steps);
    assert Anchored(s, s.threads[t]) && Anchored(s, s.threads[u]);
  }

  /**
    A lock is in the table under a thread's key, with its refs counting every such thread, while any
    thread awaits, holds or returns it.
   */
  lemma LockIsNeverDropped(disk: set<string>, steps: seq<Step>, t: nat)
    requires var s := Run(disk, steps); t in s.threads && !s.threads[t].Outside?
    ensures var s := Run(disk, steps);
            var x := s.threads[t];
            && x.key in s.table && s.table[x.key] == x.lock
            && x.lock in s.refs && s.refs[x.lock] == |Users(s.threads, x.lock)|
            && forall u | u in Users(s.threads, x.lock) :: s.threads[u].key == x.key
  {
    hide Run;
    RunKeeps(disk, steps);
    var s := Run(disk, steps);
    var x := s.threads[t];
    assert Anchored(s, x) && Counted(s, x.key);
    forall u | u in Users(s.threads, x.lock) ensures s.threads[u].key == x.key { assert Anchored(s, s.threads[u]); }
  }

  /** Conversely nothing leaks: a lock stays in the table only while somebody uses it. */
  lemma NoLeakedLock(disk: set<string>, steps: seq<Step>, key: string)
    requires key in Run(disk, steps).table
    ensures exists t :: t in Run(disk, steps).threads && Uses(Run(disk, steps).threads[t], Run(disk, steps).table[key])
  {
    hide Run;
    RunKeeps(disk, steps);
    var s := Run(disk, steps);
    assert Counted(s, key);
    var t :| t in Users(s.threads, s.table[key]);
    assert t in s.threads && Uses(s.threads[t], s.table[key]);
  }

  // ---------- When the engine signs twice ----------

  /** This step puts `key` into the file and reports a failure. */
  predicate Orphans(s: State, step: Step, key: string) {
    step.Store? && step.outcome.Unacknowledged? && !s.fault && At(s, step.t, Signed) && s.threads[step.t].key == key
  }

  /** Some write of `key` reached the file unacknowledged and the ledger has not been reopened since. */
  predicate Orphaned(disk: set<string>, steps: seq<Step>, key: string) {
    exists j | 0 <= j < |steps| :: Orphans(Run(disk, steps[..j]), steps[j], key)
        && forall m | j < m < |steps| :: !steps[m].Reopen?
  }

  lemma OrphanedStep(disk: set<string>, steps: seq<Step>, key: string)
    requires |steps| > 0
    ensures var n := |steps| - 1;
            Orphaned(disk, steps, key) <==>
              !steps[n].Reopen? && (Orphans(Run(disk, steps[..n]), steps[n], key) || Orphaned(disk, steps[..n], key))
  {
    hide Run;
    var n := |steps| - 1;
    assert forall j | 0 <= j < n :: steps[..n][j] == steps[j] && steps[..n][..j] == steps[..j];
  }

  /** The file holds a key that memory does not know exactly when its write is orphaned. */
  lemma {:induction false} MemoryLagsExactly(disk: set<string>, steps: seq<Step>, key: string)
    ensures var s := Run(disk, steps); (key in s.disk && key !in s.known) <==> Orphaned(disk, steps, key)
  {
    hide Next, Orphans, Inv;
    if |steps| > 0 {
      var before := steps[..|steps| - 1];
      MemoryLagsExactly(disk, before, key);
      OrphanedStep(disk, steps, key);
      RunKeeps(disk, before);
      LagStep(Run(disk, before), steps[|steps| - 1], key);
    }
  }

  lemma LagStep(s: State, step: Step, key: string)
    requires Inv(s)
    ensures var v := Next(s, step);
            (key in v.disk && key !in v.known) <==>
              !step.Reopen? && (Orphans(s, step, key) || (key in s.disk && key !in s.known))
  {
    hide Tabled, Exclusive;
  }

  /**
    The engine is asked to sign an action whose record is already in the ledger file, written by this process or an
    earlier one, exactly when that record's write was reported as failed after it reached the file and the ledger has
    not been reopened since.
   */
  lemma SignsTwiceExactly(disk: set<string>, steps: seq<Step>, t: nat)
    requires At(Run(disk, steps), t, Absent)
    ensures var s := Run(disk, steps);
            var key := s.threads[t].key;
            && Run(disk, steps + [Sign(t)]).engine == s.engine + [EngineCall(key, key in s.disk)]
            && (key in s.disk <==> Orphaned(disk, steps, key))
  {
    hide Orphaned;
    var s := Run(disk, steps);
    RunKeeps(disk, steps);
    MemoryLagsExactly(disk, steps, s.threads[t].key);
    assert Fresh(s, s.threads[t]);
    assert (steps + [Sign(t)])[..|steps|] == steps;
  }

  /** So without such a write the engine never signs an action that has a record. */
  lemma {:induction false} NeverSignsTwice(disk: set<string>, steps: seq<Step>, i: nat)
    requires i < |Run(disk, steps).engine|
    requires forall j | 0 <= j < |steps| && steps[j].Store? :: !steps[j].outcome.Unacknowledged?
    ensures !Run(disk, steps).engine[i].durableThen
  {
    hide Inv;
    if |steps| > 0 {
      var n := |steps| - 1;
      var before := Run(disk, steps[..n]);
      if i < |before.engine| {
        NeverSignsTwice(disk, steps[..n], i);
      } else {
        SignsTwiceExactly(disk, steps[..n], steps[n].t);
      }
    }
  }

  /** Even then the second signature is never written: no step writes a key that is already in the file. */
  lemma OneRecordPerKey(disk: set<string>, steps: seq<Step>, step: Step)
    requires var s := Run(disk, steps);
             step.Store? && At(s, step.t, Signed) && !s.fault
                 && (step.outcome.Acknowledged? || step.outcome.Unacknowledged?)
    ensures var s := Run(disk, steps); s.threads[step.t].key !in s.disk
  {
    hide Run;
    RunKeeps(disk, steps);
    var s := Run(disk, steps);
    assert Fresh(s, s.threads[step.t]);
  }

  lemma RunThen(disk: set<string>, steps: seq<Step>, step: Step)
    ensures Run(disk, steps + [step]) == Next(Run(disk, steps), step)
  {
    hide Next;
    assert (steps + [step])[..|steps|] == steps;
  }

  lemma Follow(disk: set<string>, steps: seq<Step>, more: seq<Step>) returns (s: State)
    requires |more| == 4
    ensures s == Run(disk, steps + more)
    ensures s == Next(Next(Next(Next(Run(disk, steps), more[0]), more[1]), more[2]), more[3])
  {
    hide Next, Run;
    RunThen(disk, steps, more[0]);
    RunThen(disk, steps + more[..1], more[1]);
    RunThen(disk, steps + more[..2], more[2]);
    RunThen(disk, steps + more[..3], more[3]);
    assert steps + more[..1] == steps + [more[0]] && steps + more[..2] == steps + more[..1] + [more[1]];
    assert steps + more[..3] == steps + more[..2] + [more[2]] && steps + more == steps + more[..3] + [more[3]];
    s := Run(disk, steps + more);
  }

  function Attempt(): seq<Step> {
    [Enter(0, "k"), Acquire(0), Check(0), Sign(0)]
  }

  /** The second Leave does nothing: the thread is out already. */
  function FailedStore(): seq<Step> {
    [Store(0, Unacknowledged), Unlock(0), Leave(0), Leave(0)]
  }

  lemma AttemptSigns(s: State)
    requires 0 in s.threads ==> s.threads[0].Outside?
    requires "k" !in s.table && "k" !in s.known && s.next !in s.held
    ensures var v := Next(Next(Next(Next(s, Enter(0, "k")), Acquire(0)), Check(0)), Sign(0));
            v == s.(threads := s.threads[0 := Holding("k", s.next, Signed)], table := s.table["k" := s.next], refs :=
                s.refs[s.next := 1],
                    held := s.held + {s.next}, next := s.next + 1, engine :=
                        s.engine + [EngineCall("k", "k" in s.disk)])
  {
    var s1 := s.(threads := s.threads[0 := Waiting("k", s.next)], table := s.table["k" := s.next], refs :=
        s.refs[s.next := 1],
                 next := s.next + 1);
    assert Next(s, Enter(0, "k")) == s1;
    var s2 := s1.(threads := s.threads[0 := Holding("k", s.next, Entered)], held := s.held + {s.next});
    assert s1.threads[0 := Holding("k", s.next, Entered)] == s2.threads;
    assert Next(s1, Acquire(0)) == s2;
    var s3 := s2.(threads := s.threads[0 := Holding("k", s.next, Absent)]);
    assert s2.threads[0 := Holding("k", s.next, Absent)] == s3.threads;
    assert Next(s2, Check(0)) == s3;
    assert s3.threads[0 := Holding("k", s.next, Signed)] == s.threads[0 := Holding("k", s.next, Signed)];
  }

  lemma StoreFails(s: State, l: nat)
    requires 0 in s.threads && s.threads[0] == Holding("k", l, Signed) && !s.fault && l in s.refs && s.refs[l] == 1
    requires "k" in s.table && s.table["k"] == l
    ensures var v := Next(Next(Next(Next(s, Store(0, Unacknowledged)), Unlock(0)), Leave(0)), Leave(0));
            && v.threads == s.threads[0 := Outside] && v.table == s.table - {"k"} && v.held == s.held - {l}
                && v.next == s.next
            && v.disk == s.disk + {"k"} && v.known == s.known && v.engine == s.engine
  {
    var s1 := s.(threads := s.threads[0 := Holding("k", l, Stored)], disk := s.disk + {"k"}, fault := true);
    assert Next(s, Store(0, Unacknowledged)) == s1;
    var s2 := s1.(threads := s.threads[0 := Leaving("k", l)], held := s.held - {l});
    assert s1.threads[0 := Leaving("k", l)] == s2.threads;
    assert Next(s1, Unlock(0)) == s2;
    var s3 := Next(s2, Leave(0));
    assert s3.threads == s.threads[0 := Outside];
  }

  /**
    It happens: the write of the first attempt reaches the file, its sync fails, and the second attempt signs
    again.
   */
  lemma SignsTwiceWitness()
    ensures Run({}, Attempt() + FailedStore() + Attempt()).engine == [EngineCall("k", false), EngineCall("k", true)]
  {
    hide Run, Next;
    EmptyRun({});
    var s1 := Follow({}, [], Attempt());
    assert [] + Attempt() == Attempt();
    AttemptSigns(Initial({}));
    var s2 := Follow({}, Attempt(), FailedStore());
    StoreFails(s1, 0);
    var s3 := Follow({}, Attempt() + FailedStore(), Attempt());
    AttemptSigns(s2);
  }

  lemma EmptyRun(disk: set<string>)
    ensures Run(disk, []) == Initial(disk)
  {
  }

  // ---------- The lock table as the code keeps it ----------

  function Get(t: map<string, nat>, key: string): nat {
    if key in t then t[key] else 0
  }

  function CountIn(t: map<string, nat>, key: string): map<string, nat> {
    t[key := Get(t, key) + 1]
  }

  function CountOut(t: map<string, nat>, key: string): map<string, nat>
    requires key in t && t[key] > 0
  {
    if t[key] == 1 then t - {key} else t[key := t[key] - 1]
  }

  /** How many threads stand behind each lock of the table. */
  function Counts(s: State): map<string, nat> {
    map key | key in s.table :: |Users(s.threads, s.table[key])|
  }

  class ActionLock {
    var refs: int
    constructor ()
      ensures refs == 0
    {
      refs := 0;
    }
  }

  class LockTable {
    var actionLocks: map<string, ActionLock>

    ghost predicate Valid()
      reads this, actionLocks.Values
    {
      && (forall key | key in actionLocks :: actionLocks[key].refs > 0)
      && (forall a, b | a in actionLocks && b in actionLocks && actionLocks[a] == actionLocks[b] :: a == b)
    }

    ghost function Value(): map<string, nat>
      requires Valid()
      reads this, actionLocks.Values
    {
      map key | key in actionLocks :: actionLocks[key].refs
    }

    constructor ()
      ensures Valid() && Value() == map[]
    {
      actionLocks := map[];
    }

    /** The first critical section of lockAction. */
    method EnterSection(key: string) returns (lock: ActionLock)
      requires Valid()
      modifies this, actionLocks.Values
      ensures Valid() && key in actionLocks && actionLocks[key] == lock && Value() == CountIn(old(Value()), key)
      ensures key in old(actionLocks) ==> lock == old(actionLocks[key])
      ensures key !in old(actionLocks) ==> fresh(lock)
    {
      if key in actionLocks {
        lock := actionLocks[key];
      } else {
        lock := new ActionLock();
        actionLocks := actionLocks[key := lock];
      }
      lock.refs := lock.refs + 1;
    }

    /** The second critical section, run by the thread that unlocked `lock`. */
    method LeaveSection(key: string, lock: ActionLock)
      requires Valid() && key in actionLocks && actionLocks[key] == lock
      modifies this, actionLocks.Values
      ensures Valid() && Value() == CountOut(old(Value()), key)
      ensures actionLocks == if old(lock.refs) == 1 then old(actionLocks) - {key} else old(actionLocks)
    {
      lock.refs := lock.refs - 1;
      if lock.refs == 0 && actionLocks[key] == lock {
        actionLocks := actionLocks - {key};
      }
    }
  }

  lemma EnterCount(s: State, step: Step, k: string)
    requires Tabled(s) && step.Enter? && Next(s, step) != s && k in Next(s, step).table
    ensures var v := Next(s, step);
            |Users(v.threads, v.table[k])|
            == (if k in s.table then |Users(s.threads, s.table[k])| else 0) + (if k == step.key then 1 else 0)
  {
    hide Users;
    var v := Next(s, step);
    UsersAfter(s.threads, step.t, v.threads[step.t], v.table[k]);
    if k !in s.table { NobodyUsesNext(s); }
  }

  /** The table of the state machine changes exactly as the code's first critical section changes it. */
  lemma EnterFollows(s: State, step: Step)
    requires Inv(s) && step.Enter? && Next(s, step) != s
    ensures Counts(Next(s, step)) == CountIn(Counts(s), step.key)
  {
    hide Users, Exclusive, Remembered, Tabled;
    var v := Next(s, step);
    assert v.table.Keys == s.table.Keys + {step.key};
    forall k | k in v.table ensures Counts(v)[k] == CountIn(Counts(s), step.key)[k] { EnterCount(s, step, k); }
  }

  /** And as the second; the code's test that the table still holds this very lock always succeeds. */
  lemma LeaveFollows(s: State, step: Step)
    requires Inv(s) && step.Leave? && step.t in s.threads && s.threads[step.t].Leaving?
    ensures var key := s.threads[step.t].key;
            && key in s.table && s.table[key] == s.threads[step.t].lock && Counts(s)[key] > 0
            && Counts(Next(s, step)) == CountOut(Counts(s), key)
  {
    hide Users, Exclusive, Remembered;
    var v := Next(s, step);
    var key := s.threads[step.t].key;
    assert Anchored(s, s.threads[step.t]) && Counted(s, key);
    UsersAfter(s.threads, step.t, Outside, s.table[key]);
    assert Counts(v).Keys == CountOut(Counts(s), key).Keys;
    forall k | k in v.table ensures Counts(v)[k] == CountOut(Counts(s), key)[k] {
      UsersAfter(s.threads, step.t, Outside, v.table[k]);
    }
  }
}
