/**
 The path of one process through the states that others leave.

 A path lists the actions of one process, each with the shared state it is
 taken in. `PathEnd` runs the protocol's process automaton along it, and
 `InterleavedIsRun` turns it into a run of the whole system.
 */
module ProcessPaths {
  import opened Options
  import opened ClaimModel
  import opened Protocol

  // ---- Paths of one process -----------------------------------------------

  /** One action of a process, and the shared state it is taken in. */
  datatype Moment = Moment(at: Sys, action: Action)

  /** Where a path leads: what the process remembers, and the shared state its last action left. */
  datatype End = End(proc: Option<Proc>, left: Option<Sys>, ok: bool)

  function PathEnd(cfg: Config, pr: Option<Proc>, path: seq<Moment>): End {
    if path == [] then End(pr, None, true)
    else
      var n := |path| - 1;
      After(cfg, PathEnd(cfg, pr, path[..n]), path[n])
  }

  function After(cfg: Config, e: End, m: Moment): End {
    if e.ok && e.proc.Some? && ActEnabled(m.at, e.proc.value, m.action) then
      var (next, p) := ActNext(cfg, m.at, e.proc.value, m.action);
      End(p, Some(next), true)
    else End(None, None, false)
  }

  lemma {:induction false} PathSnoc(cfg: Config, pr: Option<Proc>, path: seq<Moment>, m: Moment)
    ensures PathEnd(cfg, pr, path + [m]) == After(cfg, PathEnd(cfg, pr, path), m)
  {
    assert (path + [m])[..|path|] == path;
  }

  /** After the path so far the process remembers `p`. */
  predicate AtProc(cfg: Config, pr: Option<Proc>, soFar: seq<Moment>, p: Proc) {
    PathEnd(cfg, pr, soFar).ok && PathEnd(cfg, pr, soFar).proc == Some(p)
  }

  /** Between the actions of process `pid`, the others run: `gaps[k]` are their steps before the k-th. */
  ghost predicate Interleaved(cfg: Config, s: State, pid: nat, path: seq<Moment>, gaps: seq<seq<Step>>, t: State)
    decreases |path|
  {
    |gaps| == |path|
    && if path == [] then s == t
       else
         exists u :: Before(cfg, s, pid, path[0], gaps[0], u)
                     && Interleaved(cfg, Next(cfg, u, Act(pid, path[0].action)), pid, path[1..], gaps[1..], t)
  }

  /** The steps `gap` lead to the state of the moment, and leave the process alone. */
  predicate Before(cfg: Config, s: State, pid: nat, m: Moment, gap: seq<Step>, u: State) {
    && Run(cfg, s, gap, u) && u.sys == m.at
    && pid in s.procs && pid in u.procs && u.procs[pid] == s.procs[pid]
    && ActEnabled(u.sys, u.procs[pid], m.action)
  }

  /** The process and the shared state stand in `t` as at the end of the path. */
  predicate Stands(t: State, pid: nat, e: End) {
    && e.ok && e.left == Some(t.sys)
    && (pid in t.procs <==> e.proc.Some?) && (pid in t.procs ==> t.procs[pid] == e.proc.value)
  }

  /** A path of one process between the steps of others is a run of the whole system, and ends where the path does. */
  lemma {:induction false} InterleavedIsRun(cfg: Config, s: State, pid: nat, path: seq<Moment>, gaps: seq<seq<Step>>,
                                            t: State)
    returns (steps: seq<Step>)
    requires path != [] && Interleaved(cfg, s, pid, path, gaps, t)
    ensures Run(cfg, s, steps, t)
    ensures pid in s.procs && Stands(t, pid, PathEnd(cfg, Some(s.procs[pid]), path))
    decreases |path|
  {
    var u :| Before(cfg, s, pid, path[0], gaps[0], u)
             && Interleaved(cfg, Next(cfg, u, Act(pid, path[0].action)), pid, path[1..], gaps[1..], t);
    var next, rest := Next(cfg, u, Act(pid, path[0].action)), [];
    FirstStands(cfg, s, pid, path[0], gaps[0], u);
    if |path| == 1 {
      assert path == [path[0]];
    } else {
      rest := InterleavedIsRun(cfg, next, pid, path[1..], gaps[1..], t);
      PathCons(cfg, Some(s.procs[pid]), path);
    }
    steps := gaps[0] + ([Act(pid, path[0].action)] + rest);
    ThenStep(cfg, u, Act(pid, path[0].action), rest, t);
    RunConcat(cfg, s, gaps[0], u, [Act(pid, path[0].action)] + rest, t);
  }

  lemma {:induction false} FirstStands(cfg: Config, s: State, pid: nat, m: Moment, gap: seq<Step>, u: State)
    requires Before(cfg, s, pid, m, gap, u)
    ensures Stands(Next(cfg, u, Act(pid, m.action)), pid, PathEnd(cfg, Some(s.procs[pid]), [m]))
  {
    assert [] + [m] == [m];
    PathSnoc(cfg, Some(s.procs[pid]), [], m);
  }

  /** A path may be walked from its second moment on. */
  lemma {:induction false} PathCons(cfg: Config, pr: Option<Proc>, path: seq<Moment>)
    requires |path| > 1 && PathEnd(cfg, pr, [path[0]]).ok
    ensures PathEnd(cfg, pr, path) == PathEnd(cfg, PathEnd(cfg, pr, [path[0]]).proc, path[1..])
    decreases |path|
  {
    var n, q := |path| - 1, PathEnd(cfg, pr, [path[0]]).proc;
    Middle(path);
    if n == 1 {
      AfterSame(cfg, PathEnd(cfg, pr, path[..1]), PathEnd(cfg, q, []), path[1]);
    } else {
      PathCons(cfg, pr, path[..n]);
    }
    LastOf(cfg, pr, path);
    LastOf(cfg, q, path[1..]);
  }

  lemma {:induction false} Middle<T>(path: seq<T>)
    requires |path| > 1
    ensures path[1..][..|path| - 2] == path[..|path| - 1][1..] && path[..1] == [path[0]]
  {
  }

  lemma {:induction false} LastOf(cfg: Config, pr: Option<Proc>, path: seq<Moment>)
    requires path != []
    ensures PathEnd(cfg, pr, path) == After(cfg, PathEnd(cfg, pr, path[..|path| - 1]), path[|path| - 1])
  {
  }

  /** An action looks at what the process remembers, not at what the last one left. */
  lemma {:induction false} AfterSame(cfg: Config, d: End, e: End, m: Moment)
    requires d.ok && e.ok && d.proc == e.proc
    ensures After(cfg, d, m) == After(cfg, e, m)
  {
  }

  lemma {:induction false} ThenStep(cfg: Config, s: State, step: Step, rest: seq<Step>, t: State)
    requires Enabled(cfg, s, step) && Run(cfg, Next(cfg, s, step), rest, t)
    ensures Run(cfg, s, [step] + rest, t)
  {
    assert ([step] + rest)[1..] == rest;
  }

  // ---- Walking a path -----------------------------------------------------

  /** The path stands at `p`, or is over, and its last action has left `left`. */
  predicate Came(cfg: Config, pr: Option<Proc>, path: seq<Moment>, p: Option<Proc>, left: Sys) {
    PathEnd(cfg, pr, path) == End(p, Some(left), true)
  }

  /** A process that has come to `p` takes its next action in state `at`. */
  lemma {:induction false} Goes(cfg: Config, pr: Option<Proc>, path: seq<Moment>, at: Sys, p: Proc, a: Action)
    requires AtProc(cfg, pr, path, p) && ActEnabled(at, p, a)
    ensures var (next, q) := ActNext(cfg, at, p, a); Came(cfg, pr, path + [Moment(at, a)], q, next)
  {
    PathSnoc(cfg, pr, path, Moment(at, a));
  }

  /** A process takes its first action. */
  lemma {:induction false} Starts(cfg: Config, p: Proc, at: Sys, a: Action)
    requires ActEnabled(at, p, a)
    ensures var (next, q) := ActNext(cfg, at, p, a); Came(cfg, Some(p), [Moment(at, a)], q, next)
  {
    assert [] + [Moment(at, a)] == [Moment(at, a)];
    Goes(cfg, Some(p), [], at, p, a);
  }
}
