/**
 Timed exclusion of dispatchers. If every dispatcher that takes a row finishes
 its send and its marking write before its captured time plus the lease
 timeout, each outbox row is sent successfully at most once.
 */
module DispatchLease {
  import opened Options
  import opened ClaimModel
  import opened Protocol
  import opened ProtocolInvariant
  import opened ProtocolTheorems

  /** A dispatcher between taking its row and marking it. */
  predicate Holder(pr: Proc) {
    pr.Leased? || pr.SentOk?
  }

  predicate Tokened(pr: Proc) {
    Holder(pr) || pr.SendFailed?
  }

  /** No holder has outlived its lease, which runs from its captured time. */
  ghost predicate Timely(cfg: Config, s: State) {
    forall pid :: pid in s.procs && Holder(s.procs[pid]) ==> s.sys.now < s.procs[pid].at + cfg.leaseTimeout
  }

  /** A run in which every state is timely and no dispatcher dies between its send and its marking write. */
  ghost predicate TimelyRun(cfg: Config, s: State, steps: seq<Step>, t: State)
    decreases |steps|
  {
    && Timely(cfg, s)
    && if steps == [] then s == t
       else
         && Enabled(cfg, s, steps[0])
         && !(steps[0].Crash? && s.procs[steps[0].pid].SentOk?)
         && TimelyRun(cfg, Next(cfg, s, steps[0]), steps[1..], t)
  }

  predicate HolderOk(sys: Sys, pr: Proc)
    requires Holder(pr)
  {
    && HoldsRow(sys.db, pr.id, pr.leaseToken)
    && sys.db.outbox[pr.id].leaseClaimedAt == Some(pr.at)
    && sys.okSends[pr.id] == (if pr.SentOk? then 1 else 0)
  }

  ghost predicate SentBy(s: State, id: Token) {
    exists pid :: pid in s.procs && s.procs[pid].SentOk? && s.procs[pid].id == id
  }

  /** A row sent successfully is dispatched, gone, or about to be marked by the dispatcher that sent it. */
  ghost predicate Accounted(s: State, id: Token) {
    && s.sys.okSends[id] <= 1
    && (id in s.sys.okSends ==> id in s.sys.used)
    && (id in s.sys.okSends && id in s.sys.db.outbox && s.sys.db.outbox[id].dispatchedAt.None? ==> SentBy(s, id))
  }

  ghost predicate LeaseInv(s: State) {
    && (forall pid :: pid in s.procs && Holder(s.procs[pid]) ==> HolderOk(s.sys, s.procs[pid]))
    && (forall p, q :: p in s.procs && q in s.procs && p != q && Tokened(s.procs[p]) && Tokened(s.procs[q])
          ==> s.procs[p].leaseToken != s.procs[q].leaseToken)
    && (forall id :: Accounted(s, id))
  }

  /** Two dispatchers never hold one row. */
  lemma {:induction false} HoldersDiffer(s: State, p: nat, q: nat)
    requires LeaseInv(s) && p in s.procs && q in s.procs && p != q
    requires Holder(s.procs[p]) && Holder(s.procs[q])
    ensures s.procs[p].id != s.procs[q].id
  {
    assert HolderOk(s.sys, s.procs[p]) && HolderOk(s.sys, s.procs[q]);
  }

  // ---- Steps --------------------------------------------------------------

  /** While the lease of a holder runs, no other dispatcher can take its row. */
  lemma {:induction false} NoHolderOnLeasableRow(cfg: Config, s: State, p: nat, q: nat)
    requires Inv(cfg, s) && LeaseInv(s) && Timely(cfg, s)
    requires p in s.procs && s.procs[p].Dispatching? && q in s.procs && Holder(s.procs[q])
    requires CanLeaseRow(s.sys.db, s.procs[p].id, s.procs[p].at - cfg.leaseTimeout)
    ensures s.procs[q].id != s.procs[p].id
  {
    assert HolderOk(s.sys, s.procs[q]);
    assert ProcOk(cfg, s.sys, s.procs[p]);
  }

  lemma {:induction false} TakeRowLease(cfg: Config, s: State, p: nat, leaseToken: Token)
    requires Inv(cfg, s) && LeaseInv(s) && Timely(cfg, s) && Enabled(cfg, s, Act(p, TakeRow(leaseToken)))
    ensures LeaseInv(Next(cfg, s, Act(p, TakeRow(leaseToken))))
  {
    var t := Next(cfg, s, Act(p, TakeRow(leaseToken)));
    forall q | q in t.procs && Holder(t.procs[q])
      ensures HolderOk(t.sys, t.procs[q])
    {
      TakeRowHolder(cfg, s, p, leaseToken, q);
    }
    forall q | q in t.procs && q != p && Tokened(t.procs[q])
      ensures t.procs[q].leaseToken != leaseToken
    {
      assert ProcOk(cfg, s.sys, s.procs[q]);
    }
    forall i
      ensures Accounted(t, i)
    {
      assert Accounted(s, i);
      SentByOther(s, t, p, i);
    }
  }

  lemma {:induction false} TakeRowHolder(cfg: Config, s: State, p: nat, leaseToken: Token, q: nat)
    requires Inv(cfg, s) && LeaseInv(s) && Timely(cfg, s) && Enabled(cfg, s, Act(p, TakeRow(leaseToken)))
    requires var t := Next(cfg, s, Act(p, TakeRow(leaseToken))); q in t.procs && Holder(t.procs[q])
    ensures var t := Next(cfg, s, Act(p, TakeRow(leaseToken))); HolderOk(t.sys, t.procs[q])
  {
    var id := s.procs[p].id;
    if q != p {
      assert HolderOk(s.sys, s.procs[q]);
      if CanLeaseRow(s.sys.db, id, s.procs[p].at - cfg.leaseTimeout) {
        NoHolderOnLeasableRow(cfg, s, p, q);
      }
    } else {
      assert Accounted(s, id);
      if SentBy(s, id) {
        var r :| r in s.procs && s.procs[r].SentOk? && s.procs[r].id == id;
        NoHolderOnLeasableRow(cfg, s, p, r);
      }
    }
  }

  /** A step of a process that is not `SentOk` leaves every `SentOk` process in place. */
  lemma {:induction false} SentByOther(s: State, t: State, p: nat, id: Token)
    requires p in s.procs ==> !s.procs[p].SentOk?
    requires forall q :: q in s.procs && q != p ==> q in t.procs && t.procs[q] == s.procs[q]
    ensures SentBy(s, id) ==> SentBy(t, id)
  {
    if SentBy(s, id) {
      var r :| r in s.procs && s.procs[r].SentOk? && s.procs[r].id == id;
      assert r in t.procs && t.procs[r].SentOk? && t.procs[r].id == id;
    }
  }

  lemma {:induction false} SendLease(cfg: Config, s: State, p: nat, ok: bool, accepted: bool, mid: Token)
    requires Inv(cfg, s) && LeaseInv(s) && Enabled(cfg, s, Act(p, Send(ok, accepted, mid)))
    ensures LeaseInv(Next(cfg, s, Act(p, Send(ok, accepted, mid))))
  {
    var t := Next(cfg, s, Act(p, Send(ok, accepted, mid)));
    var id := s.procs[p].id;
    assert HolderOk(s.sys, s.procs[p]) && ProcOk(cfg, s.sys, s.procs[p]);
    forall q | q in t.procs && Holder(t.procs[q])
      ensures HolderOk(t.sys, t.procs[q])
    {
      assert HolderOk(s.sys, s.procs[q]);
      if q != p {
        HoldersDiffer(s, p, q);
      }
    }
    forall i
      ensures Accounted(t, i)
    {
      assert Accounted(s, i);
      SentByOther(s, t, p, i);
      if ok && i == id {
        assert p in t.procs && t.procs[p].SentOk? && t.procs[p].id == id;
      }
    }
  }

  lemma {:induction false} MarkLease(cfg: Config, s: State, p: nat)
    requires Inv(cfg, s) && LeaseInv(s) && Enabled(cfg, s, Act(p, Mark))
    ensures LeaseInv(Next(cfg, s, Act(p, Mark)))
  {
    var t := Next(cfg, s, Act(p, Mark));
    assert HolderOk(s.sys, s.procs[p]);
    forall q | q in t.procs && Holder(t.procs[q])
      ensures HolderOk(t.sys, t.procs[q])
    {
      assert HolderOk(s.sys, s.procs[q]);
      HoldersDiffer(s, p, q);
    }
    forall i
      ensures Accounted(t, i)
    {
      MarkAccounted(cfg, s, p, i);
    }
  }

  lemma {:induction false} MarkAccounted(cfg: Config, s: State, p: nat, i: Token)
    requires LeaseInv(s) && Enabled(cfg, s, Act(p, Mark))
    ensures Accounted(Next(cfg, s, Act(p, Mark)), i)
  {
    var t := Next(cfg, s, Act(p, Mark));
    assert HolderOk(s.sys, s.procs[p]) && Accounted(s, i);
    if i != s.procs[p].id && SentBy(s, i) {
      var r :| r in s.procs && s.procs[r].SentOk? && s.procs[r].id == i;
      assert r in t.procs && t.procs[r].SentOk? && t.procs[r].id == i;
    }
  }

  lemma {:induction false} ClearLease(cfg: Config, s: State, p: nat)
    requires Inv(cfg, s) && LeaseInv(s) && Enabled(cfg, s, Act(p, Clear))
    ensures LeaseInv(Next(cfg, s, Act(p, Clear)))
  {
    var t := Next(cfg, s, Act(p, Clear));
    forall q | q in t.procs && Holder(t.procs[q])
      ensures HolderOk(t.sys, t.procs[q])
    {
      assert HolderOk(s.sys, s.procs[q]);
    }
    forall i
      ensures Accounted(t, i)
    {
      assert Accounted(s, i);
      SentByOther(s, t, p, i);
    }
  }

  /** Steps that take no lease, send nothing and neither mark nor clear a row. */
  predicate Aside(s: State, step: Step) {
    match step
    case Act(_, action) => !(action.TakeRow? || action.Send? || action.Mark? || action.Clear?)
    case Crash(pid) => pid in s.procs && !s.procs[pid].SentOk?
    case _ => true
  }

  lemma {:induction false} AsideProcs(cfg: Config, s: State, step: Step, q: nat)
    requires Enabled(cfg, s, step) && Aside(s, step)
    ensures var t := Next(cfg, s, step);
            && (q in t.procs && Tokened(t.procs[q]) ==> q in s.procs && s.procs[q] == t.procs[q])
            && (q in s.procs && s.procs[q].SentOk? ==> q in t.procs && t.procs[q] == s.procs[q])
  {
  }

  /** What an aside step leaves of the outbox, on one row. */
  ghost predicate RowAside(a: Sys, b: Sys, id: Token) {
    && b.okSends == a.okSends
    && (id in a.db.outbox && a.db.outbox[id].dispatchedAt.None? ==>
          id in b.db.outbox && b.db.outbox[id] == a.db.outbox[id])
    && (id in b.db.outbox && id in a.used ==> id in a.db.outbox && b.db.outbox[id] == a.db.outbox[id])
  }

  lemma {:induction false} CommitAside(cfg: Config, sys: Sys, pr: Proc, token: Token, made: Token, id: Token)
    requires SysOk(cfg, sys) && ActEnabled(sys, pr, Commit(token, made))
    ensures RowAside(sys, CommitNext(sys, pr, token, made), id)
  {
    FreshIdHasNoRow(sys.db.outbox, sys.history, sys.sent, sys.used, made);
  }

  lemma {:induction false} OtherActAside(cfg: Config, sys: Sys, pr: Proc, a: Action, id: Token)
    requires ActEnabled(sys, pr, a) && !WritesRows(a) && !a.Send?
    ensures RowAside(sys, ActNext(cfg, sys, pr, a).0, id)
  {
    OthersWriteNoRow(cfg, sys, pr, a);
  }

  lemma {:induction false} AsideRows(cfg: Config, s: State, step: Step, id: Token)
    requires Inv(cfg, s) && Enabled(cfg, s, step) && Aside(s, step)
    ensures RowAside(s.sys, Next(cfg, s, step).sys, id)
  {
    if step.Act? {
      if step.action.Commit? {
        CommitAside(cfg, s.sys, s.procs[step.pid], step.action.token, step.action.id, id);
      } else {
        OtherActAside(cfg, s.sys, s.procs[step.pid], step.action, id);
      }
    }
  }

  lemma {:induction false} AsideLease(cfg: Config, s: State, step: Step)
    requires Inv(cfg, s) && LeaseInv(s) && Enabled(cfg, s, step) && Aside(s, step)
    ensures LeaseInv(Next(cfg, s, step))
  {
    var t := Next(cfg, s, step);
    forall q
      ensures q in t.procs && Tokened(t.procs[q]) ==> q in s.procs && s.procs[q] == t.procs[q]
    {
      AsideProcs(cfg, s, step, q);
    }
    forall q | q in t.procs && Holder(t.procs[q])
      ensures HolderOk(t.sys, t.procs[q])
    {
      assert HolderOk(s.sys, s.procs[q]);
      AsideRows(cfg, s, step, s.procs[q].id);
    }
    forall id
      ensures Accounted(t, id)
    {
      AsideAccounted(cfg, s, step, id);
    }
  }

  lemma {:induction false} AsideAccounted(cfg: Config, s: State, step: Step, id: Token)
    requires Inv(cfg, s) && LeaseInv(s) && Enabled(cfg, s, step) && Aside(s, step)
    ensures Accounted(Next(cfg, s, step), id)
  {
    var t := Next(cfg, s, step);
    assert Accounted(s, id);
    AsideRows(cfg, s, step, id);
    StepInv(cfg, s, step);
    if SentBy(s, id) {
      var r :| r in s.procs && s.procs[r].SentOk? && s.procs[r].id == id;
      AsideProcs(cfg, s, step, r);
      assert SentBy(t, id);
    }
  }

  lemma {:induction false} StepLease(cfg: Config, s: State, step: Step)
    requires Inv(cfg, s) && LeaseInv(s) && Timely(cfg, s) && Enabled(cfg, s, step)
    requires !(step.Crash? && s.procs[step.pid].SentOk?)
    ensures LeaseInv(Next(cfg, s, step))
  {
    match step
    case Act(p, TakeRow(leaseToken)) => TakeRowLease(cfg, s, p, leaseToken);
    case Act(p, Send(ok, accepted, mid)) => SendLease(cfg, s, p, ok, accepted, mid);
    case Act(p, Mark) => MarkLease(cfg, s, p);
    case Act(p, Clear) => ClearLease(cfg, s, p);
    case _ => AsideLease(cfg, s, step);
  }

  lemma {:induction false} RunLease(cfg: Config, s: State, steps: seq<Step>, t: State)
    requires Inv(cfg, s) && LeaseInv(s) && TimelyRun(cfg, s, steps, t)
    ensures Inv(cfg, t) && LeaseInv(t)
    decreases |steps|
  {
    if steps != [] {
      StepInv(cfg, s, steps[0]);
      StepLease(cfg, s, steps[0]);
      RunLease(cfg, Next(cfg, s, steps[0]), steps[1..], t);
    }
  }

  /**
   In a timely run from a new claim, every outbox row is sent successfully at most once, and no two
   dispatchers hold one row at the same time.
   */
  lemma {:induction false} SentAtMostOnce(cfg: Config, s: State, steps: seq<Step>, t: State)
    requires Init(s) && TimelyRun(cfg, s, steps, t)
    ensures forall id :: t.sys.okSends[id] <= 1
    ensures forall p, q :: p in t.procs && q in t.procs && p != q && Holder(t.procs[p]) && Holder(t.procs[q])
              ==> t.procs[p].id != t.procs[q].id
  {
    InitInv(cfg, s);
    RunLease(cfg, s, steps, t);
    forall id
      ensures t.sys.okSends[id] <= 1
    {
      assert Accounted(t, id);
    }
    forall p, q | p in t.procs && q in t.procs && p != q && Holder(t.procs[p]) && Holder(t.procs[q])
      ensures t.procs[p].id != t.procs[q].id
    {
      HoldersDiffer(t, p, q);
    }
  }
}
