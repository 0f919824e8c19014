/**
 Progress: a claim that is PROCESSING can always be brought to READY or
 REVIEW_REQUIRED by stale recovery, whatever was lost before. Also when a row
 can be sent once more, which is why at-most-once sending needs the timing
 assumption.
 */
module ProtocolProgress {
  import opened Options
  import opened ClaimModel
  import opened Protocol
  import opened ProtocolInvariant
  import opened ProtocolTheorems

  // ---- Building runs ------------------------------------------------------

  lemma {:induction false} RunSnoc(cfg: Config, s: State, steps: seq<Step>, t: State, step: Step)
    requires Run(cfg, s, steps, t) && Enabled(cfg, t, step)
    ensures Run(cfg, s, steps + [step], Next(cfg, t, step))
    decreases |steps|
  {
    var all := steps + [step];
    if steps == [] {
      assert Run(cfg, Next(cfg, s, step), [], Next(cfg, s, step));
      assert all[1..] == [];
    } else {
      RunSnoc(cfg, Next(cfg, s, steps[0]), steps[1..], t, step);
      assert all[1..] == steps[1..] + [step];
    }
  }

  lemma {:induction false} Bounded(s: set<nat>) returns (bound: nat)
    ensures forall n :: n in s ==> n < bound
  {
    if s == {} {
      bound := 0;
    } else {
      var x :| x in s;
      var rest := Bounded(s - {x});
      bound := rest + x + 1;
      assert forall n :: n in s ==> n == x || n in s - {x};
    }
  }

  // ---- Three phases of a recovery -----------------------------------------

  /** Time passes until the claim is stale; a recoverer opens a new attempt under `token`. */
  lemma {:induction false} RecoverPhase(cfg: Config, s: State, stale: nat, pid: nat, token: Token, id: Token)
    returns (steps: seq<Step>, t: State)
    requires cfg.hasInbound && 0 < stale
    requires s.sys.db.claim.status == PROCESSING && s.sys.db.claim.updatedAt <= s.sys.now
    requires pid !in s.procs && token !in s.sys.used && id !in s.sys.used && token != id
    ensures Run(cfg, s, steps, t) && t.procs == s.procs
    ensures t.sys.db == OpenAttempt(s.sys.db, PROCESSING, WatchdogRecovery, token, id, s.sys.now + stale)
    ensures t.sys.used == s.sys.used + {token, id}
  {
    var s1 := Next(cfg, s, World(Tick(stale)));
    assert Run(cfg, s, [], s);
    RunSnoc(cfg, s, [], s, World(Tick(stale)));
    var begin := Spawn(pid, BeginRecover(s1.sys.now, stale, false));
    var s2 := Next(cfg, s1, begin);
    RunSnoc(cfg, s, [] + [World(Tick(stale))], s1, begin);
    var commit := Act(pid, Commit(token, id));
    RunSnoc(cfg, s, [] + [World(Tick(stale))] + [begin], s2, commit);
    steps := [] + [World(Tick(stale))] + [begin] + [commit];
    t := Next(cfg, s2, commit);
    assert t.procs == s.procs;
  }

  /** A webhook starts a NEW claim, or an operator retries one in ERROR. */
  lemma {:induction false} StartPhase(cfg: Config, s: State, pid: nat, token: Token, id: Token)
    returns (steps: seq<Step>, t: State)
    requires s.sys.db.claim.status == NEW || Retryable(cfg, s.sys.db.claim)
    requires pid !in s.procs && token !in s.sys.used && id !in s.sys.used && token != id
    ensures Run(cfg, s, steps, t) && t.procs == s.procs && t.sys.now == s.sys.now
    ensures t.sys.db == OpenAttempt(s.sys.db, s.sys.db.claim.status, StartSource(s.sys.db.claim.status), token, id,
                                    s.sys.now)
    ensures t.sys.used == s.sys.used + {token, id} && t.sys.okSends == s.sys.okSends
  {
    assert Run(cfg, s, [], s);
    var begin := Spawn(pid, BeginStart(s.sys.db.claim.status));
    var s1 := Next(cfg, s, begin);
    RunSnoc(cfg, s, [], s, begin);
    var commit := Act(pid, Commit(token, id));
    RunSnoc(cfg, s, [] + [begin], s1, commit);
    steps, t := [] + [begin] + [commit], Next(cfg, s1, commit);
    assert t.procs == s.procs;
  }

  /** A dispatcher sends the message of an outbox row nobody holds. */
  lemma {:induction false} DispatchPhase(cfg: Config, s: State, pid: nat, id: Token, leaseToken: Token, mid: Token)
    returns (steps: seq<Step>, t: State)
    requires id in s.sys.db.outbox && RowLeasable(s.sys.db.outbox[id], s.sys.now - cfg.leaseTimeout)
    requires pid !in s.procs && leaseToken !in s.sys.used && mid !in s.sys.used && leaseToken != mid
    ensures Run(cfg, s, steps, t) && t.procs.Keys == s.procs.Keys + {pid}
    ensures t.sys.db == LeaseRow(s.sys.db, id, leaseToken, s.sys.now, s.sys.now - cfg.leaseTimeout)
    ensures t.sys.now == s.sys.now
    ensures mid in t.sys.queue && t.sys.queue[mid] == Good(RowMessage(s.sys.db.outbox[id]))
    ensures t.sys.used == s.sys.used + {leaseToken, mid}
    ensures t.sys.okSends == s.sys.okSends + multiset{id}
  {
    assert Run(cfg, s, [], s);
    var begin := Spawn(pid, BeginDispatch(s.sys.now, id));
    var s1 := Next(cfg, s, begin);
    RunSnoc(cfg, s, [], s, begin);
    var take := Act(pid, TakeRow(leaseToken));
    var s2 := Next(cfg, s1, take);
    RunSnoc(cfg, s, [] + [begin], s1, take);
    var send := Act(pid, Send(true, true, mid));
    RunSnoc(cfg, s, [] + [begin] + [take], s2, send);
    steps := [] + [begin] + [take] + [send];
    t := Next(cfg, s2, send);
  }

  /** A worker receives the message and finds that it may take the claim's lease. */
  lemma {:induction false} ReceivePhase(cfg: Config, s: State, pid: nat, mid: Token, m: Message)
    returns (steps: seq<Step>, t: State)
    requires LeaseMatches(s.sys.db.claim, m)
    requires mid in s.sys.queue && s.sys.queue[mid] == Good(m) && pid !in s.procs
    ensures Run(cfg, s, steps, t) && t.sys == s.sys && pid in t.procs && t.procs[pid] == Claiming(mid, m, 1)
  {
    var receive := Spawn(pid, BeginReceive(mid, 1));
    assert Run(cfg, s, [], s);
    var s1 := Next(cfg, s, receive);
    RunSnoc(cfg, s, [], s, receive);
    var s2 := Next(cfg, s1, Act(pid, Parse));
    RunSnoc(cfg, s, [] + [receive], s1, Act(pid, Parse));
    RunSnoc(cfg, s, [] + [receive] + [Act(pid, Parse)], s2, Act(pid, Read));
    steps, t := [] + [receive] + [Act(pid, Parse)] + [Act(pid, Read)], Next(cfg, s2, Act(pid, Read));
  }

  /** It takes the lease, extracts and persists. */
  lemma {:induction false} WorkPhase(cfg: Config, s: State, pid: nat, mid: Token, m: Message, e: Extraction)
    returns (steps: seq<Step>, t: State)
    requires LeaseMatches(s.sys.db.claim, m)
    requires mid in s.sys.queue && s.sys.queue[mid] == Good(m) && pid !in s.procs
    ensures Run(cfg, s, steps, t)
    ensures t.sys.db.claim.status == OutcomeStatus(e, cfg.readyConfidence)
    ensures t.sys.db.extractions == s.sys.db.extractions + [e]
  {
    var xs, s1 := ReceivePhase(cfg, s, pid, mid, m);
    var s2 := Next(cfg, s1, Act(pid, TakeClaim));
    RunSnoc(cfg, s, xs, s1, Act(pid, TakeClaim));
    RunSnoc(cfg, s, xs + [Act(pid, TakeClaim)], s2, Act(pid, Persist(e)));
    steps, t := xs + [Act(pid, TakeClaim)] + [Act(pid, Persist(e))], Next(cfg, s2, Act(pid, Persist(e)));
  }

  /**
   From every reachable state whose claim is PROCESSING and has an inbound message, and for every
   extraction, there is a continuation that persists that extraction: also when the worker holding
   the lease has crashed and its message is gone from the queue. So too for a claim that is NEW, or
   in ERROR after a retryable failure.
   */
  lemma {:induction false} AlwaysRecoverable(cfg: Config, s: State, stale: nat, e: Extraction)
    returns (steps: seq<Step>, t: State)
    requires Reachable(cfg, s) && cfg.hasInbound && 0 < stale
    requires s.sys.db.claim.status == PROCESSING || s.sys.db.claim.status == NEW || Retryable(cfg, s.sys.db.claim)
    ensures Run(cfg, s, steps, t)
    ensures t.sys.db.claim.status == OutcomeStatus(e, cfg.readyConfidence)
    ensures t.sys.db.extractions == [e]
  {
    ReachableInv(cfg, s);
    var n := Bounded(s.sys.used);
    var pid := Bounded(s.procs.Keys);
    var xs, s1;
    if s.sys.db.claim.status == PROCESSING {
      xs, s1 := RecoverPhase(cfg, s, stale, pid, n, n + 1);
    } else {
      xs, s1 := StartPhase(cfg, s, pid, n, n + 1);
    }
    var ys, s2 := DeliverPhase(cfg, s1, pid, n + 1, n + 2, e);
    RunConcat(cfg, s, xs, s1, ys, s2);
    steps, t := xs + ys, s2;
  }

  /** From a newly opened attempt: dispatch, then work. */
  lemma {:induction false} DeliverPhase(cfg: Config, s: State, pid: nat, id: Token, unused: Token, e: Extraction)
    returns (steps: seq<Step>, t: State)
    requires s.sys.db.claim.status == PROCESSING && s.sys.db.claim.leaseClaimedAt.None?
    requires id in s.sys.db.outbox && s.sys.db.claim.token.Some?
    requires s.sys.db.outbox[id] == NewRow(s.sys.db.claim.attempt, s.sys.db.claim.token.value)
    requires s.sys.db.extractions == []
    requires pid !in s.procs && pid + 1 !in s.procs && unused !in s.sys.used && unused + 1 !in s.sys.used
    ensures Run(cfg, s, steps, t)
    ensures t.sys.db.claim.status == OutcomeStatus(e, cfg.readyConfidence) && t.sys.db.extractions == [e]
  {
    var ys, s2 := DispatchPhase(cfg, s, pid, id, unused, unused + 1);
    var zs, s3 := WorkPhase(cfg, s2, pid + 1, unused + 1, RowMessage(s.sys.db.outbox[id]), e);
    RunConcat(cfg, s, ys, s2, zs, s3);
    steps, t := ys + zs, s3;
  }

  // ---- Exactly when a claim can still be decided --------------------------

  ghost predicate CanBeDecided(cfg: Config, s: State) {
    exists steps, t :: Run(cfg, s, steps, t) && Decided(t.sys.db.claim.status)
  }

  /** A claim in ERROR after a non-retryable failure stays there: no step of any process moves it. */
  lemma {:induction false} ErrorIsFinal(cfg: Config, s: State, steps: seq<Step>, t: State)
    requires Inv(cfg, s) && Run(cfg, s, steps, t)
    requires s.sys.db.claim.status == ERROR && !Retryable(cfg, s.sys.db.claim)
    ensures t.sys.db.claim == s.sys.db.claim.(updatedAt := t.sys.db.claim.updatedAt)
    decreases |steps|
  {
    if steps != [] {
      StepInv(cfg, s, steps[0]);
      ErrorStep(cfg, s, steps[0]);
      ErrorIsFinal(cfg, Next(cfg, s, steps[0]), steps[1..], t);
    }
  }

  lemma {:induction false} ErrorStep(cfg: Config, s: State, step: Step)
    requires Inv(cfg, s) && Enabled(cfg, s, step)
    requires s.sys.db.claim.status == ERROR && !Retryable(cfg, s.sys.db.claim)
    ensures Next(cfg, s, step).sys.db.claim == s.sys.db.claim.(updatedAt := Next(cfg, s, step).sys.db.claim.updatedAt)
  {
    if step.Act? {
      assert ProcOk(cfg, s.sys, s.procs[step.pid]);
    }
  }

  /**
   With an inbound message, a reachable claim can still be decided iff it is not in ERROR after a non-retryable
   failure.
   */
  lemma {:induction false} DecidableUnlessFatal(cfg: Config, s: State)
    requires Reachable(cfg, s) && cfg.hasInbound
    ensures CanBeDecided(cfg, s) <==>
            !(s.sys.db.claim.status == ERROR && s.sys.db.claim.failure.Some? && !s.sys.db.claim.failure.value.retryable)
  {
    ReachableInv(cfg, s);
    var claim := s.sys.db.claim;
    if claim.status == ERROR && !Retryable(cfg, claim) {
      forall steps, t | Run(cfg, s, steps, t)
        ensures !Decided(t.sys.db.claim.status)
      {
        ErrorIsFinal(cfg, s, steps, t);
      }
    } else if Decided(claim.status) {
      assert Run(cfg, s, [], s);
    } else {
      var steps, t := AlwaysRecoverable(cfg, s, 1, Extraction(0.0, 0));
    }
  }

  // ---- Why at-most-once sending needs the timing assumption ---------------

  /** The row is there undispatched, or a dispatcher already holds it in its hand. */
  ghost predicate Sendable(s: State, id: Token) {
    || (id in s.sys.db.outbox && s.sys.db.outbox[id].dispatchedAt.None?)
    || (exists pid :: pid in s.procs && s.procs[pid].Leased? && s.procs[pid].id == id)
  }

  ghost predicate CanBeSent(cfg: Config, s: State, id: Token) {
    exists steps, t :: Run(cfg, s, steps, t) && t.sys.okSends[id] > s.sys.okSends[id]
  }

  lemma {:induction false} UnsendableAct(cfg: Config, s: State, pid: nat, a: Action, id: Token)
    requires Enabled(cfg, s, Act(pid, a)) && id in s.sys.used && !Sendable(s, id)
    ensures var t := Next(cfg, s, Act(pid, a));
            id in t.sys.used && !Sendable(t, id) && t.sys.okSends[id] == s.sys.okSends[id]
  {
    var t := Next(cfg, s, Act(pid, a));
    assert !(id in t.sys.db.outbox && t.sys.db.outbox[id].dispatchedAt.None?);
    forall q | q in t.procs && t.procs[q].Leased?
      ensures t.procs[q].id != id
    {
      assert q != pid ==> t.procs[q] == s.procs[q];
    }
  }

  lemma {:induction false} UnsendableStep(cfg: Config, s: State, step: Step, id: Token)
    requires Enabled(cfg, s, step) && id in s.sys.used && !Sendable(s, id)
    ensures var t := Next(cfg, s, step);
            id in t.sys.used && !Sendable(t, id) && t.sys.okSends[id] == s.sys.okSends[id]
  {
    if step.Act? {
      UnsendableAct(cfg, s, step.pid, step.action, id);
    }
  }

  lemma {:induction false} UnsendableStays(cfg: Config, s: State, steps: seq<Step>, t: State, id: Token)
    requires Run(cfg, s, steps, t) && id in s.sys.used && !Sendable(s, id)
    ensures t.sys.okSends[id] == s.sys.okSends[id]
    decreases |steps|
  {
    if steps != [] {
      UnsendableStep(cfg, s, steps[0], id);
      UnsendableStays(cfg, Next(cfg, s, steps[0]), steps[1..], t, id);
    }
  }

  /** Time passes until the row's lease is stale; another dispatcher sends it, and has not marked it yet. */
  lemma {:induction false} ResendPhase(cfg: Config, s: State, id: Token) returns (steps: seq<Step>, t: State)
    requires id in s.sys.db.outbox && s.sys.db.outbox[id].dispatchedAt.None?
    ensures Run(cfg, s, steps, t) && t.sys.okSends == s.sys.okSends + multiset{id}
    ensures id in t.sys.db.outbox && t.sys.db.outbox[id].dispatchedAt.None?
  {
    var row := s.sys.db.outbox[id];
    var due := if row.leaseClaimedAt.Some? then row.leaseClaimedAt.value + cfg.leaseTimeout else s.sys.now;
    var wait := World(Tick(if due <= s.sys.now then 0 else due - s.sys.now));
    var s1 := Next(cfg, s, wait);
    assert Run(cfg, s, [], s);
    RunSnoc(cfg, s, [], s, wait);
    var n := Bounded(s.sys.used);
    var pid := Bounded(s.procs.Keys);
    var xs;
    xs, t := DispatchPhase(cfg, s1, pid, id, n, n + 1);
    steps := [] + [wait] + xs;
    RunConcat(cfg, s, [] + [wait], s1, xs, t);
  }

  /**
   Without a bound on its dispatchers' delay, a row is sent once more exactly when it is undispatched or in a
   dispatcher's hand.
   */
  lemma {:induction false} CanBeSentIff(cfg: Config, s: State, id: Token)
    requires id in s.sys.used
    ensures CanBeSent(cfg, s, id) <==> Sendable(s, id)
  {
    if CanBeSent(cfg, s, id) && !Sendable(s, id) {
      var steps, t :| Run(cfg, s, steps, t) && t.sys.okSends[id] > s.sys.okSends[id];
      UnsendableStays(cfg, s, steps, t, id);
    }
    if id in s.sys.db.outbox && s.sys.db.outbox[id].dispatchedAt.None? {
      var steps, t := ResendPhase(cfg, s, id);
    } else if pid :| pid in s.procs && s.procs[pid].Leased? && s.procs[pid].id == id {
      var mid := Bounded(s.sys.used);
      var send := Act(pid, Send(true, true, mid));
      assert Run(cfg, s, [], s);
      RunSnoc(cfg, s, [], s, send);
      assert Next(cfg, s, send).sys.okSends[id] > s.sys.okSends[id];
    }
  }

  /** An undispatched row can be sent any number of times. */
  lemma {:induction false} SendsWithoutBound(cfg: Config, s: State, id: Token, n: nat)
    returns (steps: seq<Step>, t: State)
    requires id in s.sys.db.outbox && s.sys.db.outbox[id].dispatchedAt.None?
    ensures Run(cfg, s, steps, t) && t.sys.okSends[id] == s.sys.okSends[id] + n
    ensures id in t.sys.db.outbox && t.sys.db.outbox[id].dispatchedAt.None?
    decreases n
  {
    if n == 0 {
      steps, t := [], s;
    } else {
      var xs, u := SendsWithoutBound(cfg, s, id, n - 1);
      var ys, v := ResendPhase(cfg, u, id);
      RunConcat(cfg, s, xs, u, ys, v);
      steps, t := xs + ys, v;
    }
  }

  /** So from every initial state a row can be sent twice, its first dispatcher marking too late. */
  lemma {:induction false} SlowDispatcherSendsTwice(cfg: Config, s: State) returns (t: State)
    requires Init(s)
    ensures Reachable(cfg, t) && exists id :: t.sys.okSends[id] == 2
  {
    var xs, s1 := StartPhase(cfg, s, 0, 0, 1);
    var ys;
    ys, t := SendsWithoutBound(cfg, s1, 1, 2);
    RunConcat(cfg, s, xs, s1, ys, t);
    assert t.sys.okSends[1] == 2;
  }
}
