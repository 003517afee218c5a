// The semaphore and the active-worker counter of internal/worker/supervisor.go:
// dispatch, the first and last statements of processTask, and Drain.

module WorkerPool {

  // A worker goroutine, from its `go` statement to its last deferred statement.
  datatype Phase =
    | Spawned     // launched with a token, has not run a statement yet
    | Running     // counted as active, holds its token
    | Released    // has put its token back, is still counted as active

  /** `tokens` is the number of elements in the semaphore channel, `active` the
      atomic counter; `workers` are the goroutines there are. */
  datatype Pool = Pool(size: nat, tokens: nat, active: int, workers: map<nat, Phase>)

  datatype Step = Dispatch(w: nat) | Start(w: nat) | Release(w: nat) | Finish(w: nat)

  predicate In(p: Pool, w: nat, phase: Phase) {
    w in p.workers && p.workers[w] == phase
  }

  predicate Can(p: Pool, e: Step) {
    match e
    case Dispatch(w) => p.tokens < p.size && w !in p.workers
    case Start(w) => In(p, w, Spawned)
    case Release(w) => In(p, w, Running) && p.tokens > 0
    case Finish(w) => In(p, w, Released)
  }

  // A step that is not possible yet blocks: it leaves the pool as it is.
  function Next(p: Pool, e: Step): Pool {
    if !Can(p, e) then p
    else match e
      case Dispatch(w) => p.(tokens := p.tokens + 1, workers := p.workers[w := Spawned])
      case Start(w) => p.(active := p.active + 1, workers := p.workers[w := Running])
      case Release(w) => p.(tokens := p.tokens - 1, workers := p.workers[w := Released])
      case Finish(w) => p.(active := p.active - 1, workers := p.workers - {w})
  }

  function After(p: Pool, es: seq<Step>): Pool {
    if es == [] then p else Next(After(p, es[..|es| - 1]), es[|es| - 1])
  }

  function Empty(size: nat): Pool {
    Pool(size, 0, 0, map[])
  }

  function Workers(p: Pool, phase: Phase): set<nat> {
    set w | w in p.workers && p.workers[w] == phase
  }

  /** Tokens belong to workers that have not given theirs back, and the counter
      counts those that have begun and not ended. */
  ghost predicate Conserved(p: Pool) {
    && p.tokens == |Workers(p, Spawned)| + |Workers(p, Running)| <= p.size
    && p.active == |Workers(p, Running)| + |Workers(p, Released)|
  }

  // How one step moves one worker between the phases.
  lemma Moves(p: Pool, e: Step)
    requires Can(p, e)
    ensures var q := Next(p, e);
            match e
            case Dispatch(w) =>
              && Workers(q, Spawned) == Workers(p, Spawned) + {w} && w !in Workers(p, Spawned)
              && Workers(q, Running) == Workers(p, Running) && Workers(q, Released) == Workers(p, Released)
            case Start(w) =>
              && Workers(q, Spawned) == Workers(p, Spawned) - {w} && w in Workers(p, Spawned)
              && Workers(q, Running) == Workers(p, Running) + {w} && w !in Workers(p, Running)
              && Workers(q, Released) == Workers(p, Released)
            case Release(w) =>
              && Workers(q, Running) == Workers(p, Running) - {w} && w in Workers(p, Running)
              && Workers(q, Released) == Workers(p, Released) + {w} && w !in Workers(p, Released)
              && Workers(q, Spawned) == Workers(p, Spawned)
            case Finish(w) =>
              && Workers(q, Released) == Workers(p, Released) - {w} && w in Workers(p, Released)
              && Workers(q, Running) == Workers(p, Running) && Workers(q, Spawned) == Workers(p, Spawned)
  {
  }

  lemma StepConserves(p: Pool, e: Step)
    requires Conserved(p)
    ensures Conserved(Next(p, e)) && Next(p, e).size == p.size
  {
    if Can(p, e) {
      Moves(p, e);
      hide Workers;
    }
  }

  /** In every interleaving: at most PoolSize workers are in their bodies. */
  lemma {:induction false} Conservation(p: Pool, es: seq<Step>)
    requires Conserved(p)
    ensures var q := After(p, es);
            Conserved(q) && q.size == p.size && |Workers(q, Running)| <= p.size
  {
    if es != [] {
      Conservation(p, es[..|es| - 1]);
      StepConserves(After(p, es[..|es| - 1]), es[|es| - 1]);
    }
  }

  /** The channel receive in a worker's last deferred function never blocks. */
  lemma ReleaseNeverBlocks(p: Pool, w: nat)
    requires Conserved(p) && In(p, w, Running)
    ensures Can(p, Release(w))
  {
    assert w in Workers(p, Running);
  }

  lemma {:induction false} Append(p: Pool, es: seq<Step>, fs: seq<Step>)
    ensures After(p, es + fs) == After(After(p, es), fs)
  {
    if fs == [] {
      assert es + fs == es;
    } else {
      var n := |fs| - 1;
      assert (es + fs)[..|es| + n] == es + fs[..n] && (es + fs)[|es| + n] == fs[n];
      Append(p, es, fs[..n]);
    }
  }

  // ---- What Drain's nil means ----

  // No worker is in its body or on its way out.
  lemma NoneActive(p: Pool)
    requires Conserved(p)
    ensures p.active == 0 <==> Workers(p, Running) == {} && Workers(p, Released) == {}
    ensures p.active == 0 ==> p.tokens == |Workers(p, Spawned)| && forall w :: w in p.workers ==> p.workers[w] == Spawned
  {
    assert forall w :: w in p.workers ==> w in Workers(p, p.workers[w]);
  }

  ghost predicate Undispatched(es: seq<Step>) {
    forall i | 0 <= i < |es| :: !es[i].Dispatch?
  }

  // After Run has returned nothing is dispatched: an empty pool stays empty.
  lemma {:induction false} StaysEmpty(p: Pool, es: seq<Step>)
    requires p.workers == map[] && Undispatched(es)
    ensures After(p, es) == p
  {
    if es != [] {
      StaysEmpty(p, es[..|es| - 1]);
    }
  }

  // No body runs any more, however the remaining goroutines are scheduled.
  ghost predicate Quiet(p: Pool) {
    forall es | Undispatched(es) :: Workers(After(p, es), Running) == {}
  }

  /** Drain returns nil on a zero counter, but that is the end of all processing
      exactly when no token is held: a held token is a goroutine that was launched
      and has yet to count itself. */
  lemma DrainIsQuietExactlyWithoutTokens(p: Pool)
    requires Conserved(p) && p.active == 0
    ensures Quiet(p) <==> p.tokens == 0
  {
    NoneActive(p);
    if p.tokens == 0 {
      assert Workers(p, Spawned) == {};
      assert p.workers == map[] by {
        assert forall w :: w in p.workers ==> w in Workers(p, p.workers[w]);
      }
      forall es | Undispatched(es)
        ensures Workers(After(p, es), Running) == {}
      {
        StaysEmpty(p, es);
      }
    } else {
      var w :| w in Workers(p, Spawned);
      assert After(p, [Start(w)]) == Next(After(p, []), Start(w)) by {
        assert [Start(w)][..0] == [];
      }
      assert w in Workers(After(p, [Start(w)]), Running);
      assert Undispatched([Start(w)]);
    }
  }

  // One more worker has released its token and not been discounted.
  function Lingering(from: nat, n: nat): seq<Step> {
    if n == 0 then [] else Lingering(from, n - 1) + [Dispatch(from + n - 1), Start(from + n - 1), Release(from + n - 1)]
  }

  lemma Three(p: Pool, a: Step, b: Step, c: Step)
    ensures After(p, [a, b, c]) == Next(Next(Next(p, a), b), c)
  {
    assert [a, b, c][..2] == [a, b] && [a, b][..1] == [a] && [a][..0] == [];
    assert After(p, [a]) == Next(After(p, []), a);
  }

  lemma {:induction false} LingeringCounts(size: nat, n: nat)
    requires size > 0
    ensures var p := After(Empty(size), Lingering(0, n));
            p.active == n && p.tokens == 0 && p.size == size && forall w: nat :: w in p.workers ==> w < n
  {
    if n > 0 {
      var w := n - 1;
      LingeringCounts(size, w);
      var p := After(Empty(size), Lingering(0, w));
      Append(Empty(size), Lingering(0, w), [Dispatch(w), Start(w), Release(w)]);
      Three(p, Dispatch(w), Start(w), Release(w));
      hide Lingering;
    }
  }

  /** The active-worker gauge itself is not bounded by PoolSize: the token is given
      back before the counter is decremented, so any number of finished workers
      can still be counted. */
  lemma GaugeUnbounded(size: nat, n: nat)
    requires size > 0
    ensures exists es :: After(Empty(size), es).active == n && Conserved(After(Empty(size), es))
  {
    LingeringCounts(size, n);
    assert Workers(Empty(size), Spawned) == {} && Workers(Empty(size), Running) == {} && Workers(Empty(size), Released) == {};
    Conservation(Empty(size), Lingering(0, n));
  }

  // The pool at Drain's k-th look at the counter, the goroutines having taken one
  // burst of steps before each look.
  function Polled(p: Pool, bursts: seq<seq<Step>>, k: nat): Pool
    requires k <= |bursts|
  {
    if k == 0 then p else After(Polled(p, bursts, k - 1), bursts[k - 1])
  }

  class Dispatcher {
    const poolSize: nat
    var tokens: nat
    var activeWorkers: int
    var workers: map<nat, Phase>

    constructor (poolSize: nat)
      ensures State() == Empty(poolSize) && Conserved(State())
    {
      this.poolSize := poolSize;
      tokens, activeWorkers, workers := 0, 0, map[];
      new;
      assert Workers(State(), Spawned) == {} && Workers(State(), Running) == {} && Workers(State(), Released) == {};
    }

    function State(): Pool
      reads this
    {
      Pool(poolSize, tokens, activeWorkers, workers)
    }

    /** dispatch: with a free slot a goroutine is launched; else the caller waits,
        or nacks the task at shutdown. */
    method TryDispatch(w: nat) returns (launched: bool)
      requires w !in workers
      modifies this
      ensures State() == Next(old(State()), Dispatch(w)) && (launched <==> old(tokens) < poolSize)
    {
      launched := tokens < poolSize;
      if launched {
        tokens := tokens + 1;
        workers := workers[w := Spawned];
      }
    }

    // The first statement of processTask.
    method Enter(w: nat)
      requires In(State(), w, Spawned)
      modifies this
      ensures State() == Next(old(State()), Start(w))
    {
      activeWorkers := activeWorkers + 1;
      workers := workers[w := Running];
    }

    // Its last deferred function: first the token, then the counter.
    method ReleaseToken(w: nat)
      requires Conserved(State()) && In(State(), w, Running)
      modifies this
      ensures State() == Next(old(State()), Release(w)) && tokens == old(tokens) - 1
    {
      ReleaseNeverBlocks(State(), w);
      tokens := tokens - 1;
      workers := workers[w := Released];
    }

    method Leave(w: nat)
      requires In(State(), w, Released)
      modifies this
      ensures State() == Next(old(State()), Finish(w))
    {
      activeWorkers := activeWorkers - 1;
      workers := workers - {w};
    }

    // The goroutines run for a while.
    method Others(burst: seq<Step>)
      requires Conserved(State())
      modifies this
      ensures State() == After(old(State()), burst) && Conserved(State())
    {
      var i := 0;
      while i < |burst|
        invariant 0 <= i <= |burst|
        invariant State() == After(old(State()), burst[..i]) && Conserved(State())
      {
        StepConserves(State(), burst[i]);
        assert burst[..i + 1][..i] == burst[..i];
        hide Conserved;
        match burst[i] {
          case Dispatch(w) =>
            if w !in workers {
              var launched := TryDispatch(w);
            }
          case Start(w) =>
            if w in workers && workers[w] == Spawned {
              Enter(w);
            }
          case Release(w) =>
            if w in workers && workers[w] == Running {
              ReleaseToken(w);
            }
          case Finish(w) =>
            if w in workers && workers[w] == Released {
              Leave(w);
            }
        }
        i := i + 1;
      }
      assert burst[..i] == burst;
    }

    /** Drain (and waitForWorkers) until the deadline, the end of `bursts`: it
        returns at the first look that finds the counter at zero, and then no
        worker is in its body, though one may yet start if a token is held. */
    method Drain(bursts: seq<seq<Step>>) returns (drained: bool, looks: nat)
      requires Conserved(State())
      modifies this
      ensures Conserved(State()) && looks <= |bursts| && State() == Polled(old(State()), bursts, looks)
      ensures forall k | 0 <= k < looks :: Polled(old(State()), bursts, k).active != 0
      ensures drained <==> activeWorkers == 0
      ensures !drained ==> looks == |bursts|
      ensures drained ==> Workers(State(), Running) == {} && (Quiet(State()) <==> tokens == 0)
    {
      looks := 0;
      drained := activeWorkers == 0;
      while !drained && looks < |bursts|
        invariant looks <= |bursts| && Conserved(State()) && State() == Polled(old(State()), bursts, looks)
        invariant forall k | 0 <= k < looks :: Polled(old(State()), bursts, k).active != 0
        invariant drained <==> activeWorkers == 0
      {
        hide Conserved, After;
        Others(bursts[looks]);
        looks := looks + 1;
        drained := activeWorkers == 0;
      }
      if drained {
        NoneActive(State());
        DrainIsQuietExactlyWithoutTokens(State());
      }
    }
  }
}
