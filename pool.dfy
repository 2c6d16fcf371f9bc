/** The pooled fan-out shared by both rounds of the question strategy
    (app/src/services/utils/getSuggestionsForQuestions.ts): a task is started
    when it is pushed, and as soon as more than `POOL_SIZE` tasks are pending
    they are all joined and the pool pauses. Waves are modelled as ordered
    batches: each task's queries appear in push order. */
module Pool {
  import opened Seqs
  import opened Suggest

  const POOL_SIZE: nat := 2

  /** A full wave: the flush test is `tasks.length > POOL_SIZE`. */
  const WAVE: nat := POOL_SIZE + 1

  /** The pause after every full wave, in milliseconds. */
  const WAVE_PAUSE: nat := 500

  /** The trace of a pool whose tasks have traces `ts`, in push order: every
      full wave is joined and followed by a pause, and a leftover partial wave
      is joined at the end without one. */
  function PoolTrace(ts: seq<seq<Event>>): seq<Event>
    decreases |ts|
  {
    if ts == [] then []
    else if |ts| > POOL_SIZE then Flatten(ts[..WAVE]) + [Wave(WAVE), Sleep(WAVE_PAUSE)] + PoolTrace(ts[WAVE..])
    else Flatten(ts) + [Wave(|ts|)]
  }

  /** The events still to come when task `k` is the next to start and
      `pending` tasks have started since the last join: the source's loop,
      one pushed task at a time. */
  function PoolFrom(ts: seq<seq<Event>>, k: nat, pending: nat): seq<Event>
    requires k <= |ts|
    decreases |ts| - k
  {
    if k == |ts| then (if pending > 0 then [Wave(pending)] else [])
    else if pending + 1 > POOL_SIZE then ts[k] + [Wave(pending + 1), Sleep(WAVE_PAUSE)] + PoolFrom(ts, k + 1, 0)
    else ts[k] + PoolFrom(ts, k + 1, pending + 1)
  }

  /** With `p` tasks pending before task `k`, their events and the events
      still to come are the pool trace of the tasks from the first pending
      one on. */
  lemma {:induction false} PoolFromSuffix(ts: seq<seq<Event>>, k: nat, p: nat)
    requires p <= k <= |ts| && p <= POOL_SIZE
    ensures Flatten(ts[k - p..k]) + PoolFrom(ts, k, p) == PoolTrace(ts[k - p..])
    decreases |ts| - k
  {
    var s := ts[k - p..];
    if k == |ts| {
      assert ts[k - p..k] == s;
    } else {
      assert ts[k - p..k + 1][..p] == ts[k - p..k];
      assert Flatten(ts[k - p..k + 1]) == Flatten(ts[k - p..k]) + ts[k];
      if p + 1 > POOL_SIZE {
        PoolFromSuffix(ts, k + 1, 0);
        assert ts[k + 1..k + 1] == [];
        assert s[..WAVE] == ts[k - p..k + 1];
        assert s[WAVE..] == ts[k + 1..];
      } else {
        PoolFromSuffix(ts, k + 1, p + 1);
      }
    }
  }

  /** The marks the loop adds once the task after `pending` ones is pushed. */
  function JoinMarks(pending: nat): seq<Event> {
    if pending + 1 > POOL_SIZE then [Wave(pending + 1), Sleep(WAVE_PAUSE)] else []
  }

  /** The number of pending tasks after that push. */
  function NextPending(pending: nat): nat {
    if pending + 1 > POOL_SIZE then 0 else pending + 1
  }

  /** One step of the loop: push task `k`, then join if the wave is full. */
  lemma PoolPush(done: seq<Event>, ts: seq<seq<Event>>, k: nat, p: nat)
    requires k < |ts|
    ensures done + PoolFrom(ts, k, p) == done + ts[k] + JoinMarks(p) + PoolFrom(ts, k + 1, NextPending(p))
  {
  }

  /** The loop's trace, run from the start, is the pool trace. */
  lemma PoolFromStart(ts: seq<seq<Event>>)
    ensures PoolFrom(ts, 0, 0) == PoolTrace(ts)
  {
    PoolFromSuffix(ts, 0, 0);
    assert ts[0..0] == [] && ts[0..] == ts;
  }

  /** The pool's loop invariant before task `k` is pushed: `trace` and
      `joined` are what the pool has produced so far and `pending` holds the
      results of the tasks started since the last join, so that what is
      still to come completes the pool's trace and results. */
  ghost predicate Pooled<T>(ts: seq<seq<Event>>, rs: seq<seq<T>>, k: nat, trace: seq<Event>, joined: seq<T>, pending: seq<seq<T>>) {
    && k <= |ts| && |rs| == |ts| && |pending| <= POOL_SIZE
    && trace + PoolFrom(ts, k, |pending|) == PoolTrace(ts)
    && joined + Flatten(pending) + FlattenFrom(rs, k) == Flatten(rs)
  }

  /** Nothing has run yet. */
  lemma PooledStart<T>(ts: seq<seq<Event>>, rs: seq<seq<T>>)
    requires |rs| == |ts|
    ensures Pooled(ts, rs, 0, [], [], [])
  {
    PoolFromStart(ts);
    FlattenFromSplit(rs, 0);
    assert rs[..0] == [];
  }

  /** Pushing task `k`, whose events are `events` and whose result is `r`,
      and joining the wave when it is full. */
  lemma PooledPush<T>(ts: seq<seq<Event>>, rs: seq<seq<T>>, k: nat, trace: seq<Event>, joined: seq<T>, pending: seq<seq<T>>,
                      events: seq<Event>, r: seq<T>)
    requires Pooled(ts, rs, k, trace, joined, pending) && k < |ts|
    requires events == ts[k] && r == rs[k]
    ensures var pending' := pending + [r];
      if |pending'| > POOL_SIZE
      then Pooled(ts, rs, k + 1, trace + events + [Wave(|pending'|), Sleep(WAVE_PAUSE)], joined + Flatten(pending'), [])
      else Pooled(ts, rs, k + 1, trace + events, joined, pending')
  {
    PoolPush(trace, ts, k, |pending|);
    FlattenPush(joined, pending, rs, k);
  }

  /** After the last task, joining the leftover wave completes the trace and
      the results. */
  lemma PooledEnd<T>(ts: seq<seq<Event>>, rs: seq<seq<T>>, trace: seq<Event>, joined: seq<T>, pending: seq<seq<T>>)
    requires Pooled(ts, rs, |ts|, trace, joined, pending)
    ensures (if |pending| > 0 then trace + [Wave(|pending|)] else trace) == PoolTrace(ts)
    ensures joined + Flatten(pending) == Flatten(rs)
  {
  }

  /** The wave sizes for `n` tasks: full waves of three, then the rest. */
  function ExpectedWaves(n: nat): seq<nat>
    decreases n
  {
    if n == 0 then [] else if n > POOL_SIZE then [WAVE] + ExpectedWaves(n - WAVE) else [n]
  }

  /** There are ceil(n/3) waves; all but the last hold three tasks, the last
      holds the remainder (three when it divides evenly), and together they
      hold every task. */
  lemma {:induction false} ExpectedWavesShape(n: nat)
    ensures |ExpectedWaves(n)| == (n + WAVE - 1) / WAVE
    ensures forall i :: 0 <= i < |ExpectedWaves(n)| - 1 ==> ExpectedWaves(n)[i] == WAVE
    ensures n > 0 ==> ExpectedWaves(n)[|ExpectedWaves(n)| - 1] == (if n % WAVE == 0 then WAVE else n % WAVE)
    ensures SumNat(ExpectedWaves(n)) == n
    decreases n
  {
    if n > POOL_SIZE {
      ExpectedWavesShape(n - WAVE);
      var rest := ExpectedWaves(n - WAVE);
      assert ExpectedWaves(n) == [WAVE] + rest;
      assert ([WAVE] + rest)[1..] == rest;
      if n - WAVE > 0 {
        assert ExpectedWaves(n)[|ExpectedWaves(n)| - 1] == rest[|rest| - 1];
      }
    }
  }

  function SumNat(s: seq<nat>): nat {
    if s == [] then 0 else s[0] + SumNat(s[1..])
  }

  /** The marks the pool adds after the first wave of `n` tasks. */
  function WaveMarks(n: nat): seq<Event> {
    if n > POOL_SIZE then [Wave(WAVE), Sleep(WAVE_PAUSE)] else [Wave(n)]
  }

  /** The number of tasks in the first wave of `n` tasks. */
  function FirstWave(n: nat): nat {
    if n > POOL_SIZE then WAVE else n
  }

  /** Unfolding the first wave of the pool's trace. */
  lemma PoolTraceUnfold(ts: seq<seq<Event>>)
    requires ts != []
    ensures PoolTrace(ts) == Flatten(ts[..FirstWave(|ts|)]) + WaveMarks(|ts|) + PoolTrace(ts[FirstWave(|ts|)..])
  {
    if |ts| <= POOL_SIZE {
      assert ts[..|ts|] == ts && ts[|ts|..] == [];
    }
  }

  /** For tasks whose own traces are queries only, the pool's trace joins the
      expected waves, pauses once per full wave (floor(n/3) times) and issues
      every task's queries. */
  lemma PoolTraceCounts(ts: seq<seq<Event>>)
    requires forall i :: 0 <= i < |ts| ==> QueriesOnly(ts[i])
    ensures WaveSizes(PoolTrace(ts)) == ExpectedWaves(|ts|)
    ensures SleepCount(PoolTrace(ts)) == |ts| / WAVE
    ensures QueryCount(PoolTrace(ts)) == |Flatten(ts)|
  {
    PoolTraceWaves(ts);
    PoolTraceSleeps(ts);
    PoolTraceQueries(ts);
  }

  /** The first wave's tasks, then the marks, then the pool of the rest,
      with the counts that go with them. */
  lemma PoolTraceStep(ts: seq<seq<Event>>)
    requires ts != []
    requires forall i :: 0 <= i < |ts| ==> QueriesOnly(ts[i])
    ensures var k := FirstWave(|ts|);
      && (forall i :: 0 <= i < |ts[k..]| ==> QueriesOnly(ts[k..][i]))
      && WaveSizes(PoolTrace(ts)) == [k] + WaveSizes(PoolTrace(ts[k..]))
      && SleepCount(PoolTrace(ts)) == (if |ts| > POOL_SIZE then 1 else 0) + SleepCount(PoolTrace(ts[k..]))
      && QueryCount(PoolTrace(ts)) == |Flatten(ts[..k])| + QueryCount(PoolTrace(ts[k..]))
  {
    var k := FirstWave(|ts|);
    var head, tail := ts[..k], ts[k..];
    var marks := WaveMarks(|ts|);
    FlattenQueriesOnly(head);
    QueriesOnlyCounts(Flatten(head));
    PoolTraceUnfold(ts);
    CountsAppend(Flatten(head), marks);
    CountsAppend(Flatten(head) + marks, PoolTrace(tail));
    MarksCounts(|ts|);
  }

  lemma {:induction false} PoolTraceWaves(ts: seq<seq<Event>>)
    requires forall i :: 0 <= i < |ts| ==> QueriesOnly(ts[i])
    ensures WaveSizes(PoolTrace(ts)) == ExpectedWaves(|ts|)
    decreases |ts|
  {
    if ts != [] {
      PoolTraceStep(ts);
      PoolTraceWaves(ts[FirstWave(|ts|)..]);
    }
  }

  lemma {:induction false} PoolTraceSleeps(ts: seq<seq<Event>>)
    requires forall i :: 0 <= i < |ts| ==> QueriesOnly(ts[i])
    ensures SleepCount(PoolTrace(ts)) == |ts| / WAVE
    decreases |ts|
  {
    if ts != [] {
      PoolTraceStep(ts);
      PoolTraceSleeps(ts[FirstWave(|ts|)..]);
    }
  }

  lemma {:induction false} PoolTraceQueries(ts: seq<seq<Event>>)
    requires forall i :: 0 <= i < |ts| ==> QueriesOnly(ts[i])
    ensures QueryCount(PoolTrace(ts)) == |Flatten(ts)|
    decreases |ts|
  {
    if ts != [] {
      var k := FirstWave(|ts|);
      PoolTraceStep(ts);
      PoolTraceQueries(ts[k..]);
      assert ts == ts[..k] + ts[k..];
      FlattenAppend(ts[..k], ts[k..]);
    }
  }

  lemma MarksCounts(n: nat)
    requires n > 0
    ensures QueryCount(WaveMarks(n)) == 0
    ensures SleepCount(WaveMarks(n)) == (if n > POOL_SIZE then 1 else 0)
    ensures WaveSizes(WaveMarks(n)) == [FirstWave(n)]
  {
    var m := WaveMarks(n);
    var w: seq<Event> := [Wave(FirstWave(n))];
    assert w[..|w| - 1] == [];
    assert QueryCount(w) == 0 && SleepCount(w) == 0 && WaveSizes(w) == [FirstWave(n)];
    if n > POOL_SIZE {
      assert m[..|m| - 1] == w;
      assert m[|m| - 1] == Sleep(WAVE_PAUSE);
    } else {
      assert m == w;
    }
  }

  lemma {:induction false} FlattenQueriesOnly(ts: seq<seq<Event>>)
    requires forall i :: 0 <= i < |ts| ==> QueriesOnly(ts[i])
    ensures QueriesOnly(Flatten(ts))
  {
    if ts != [] {
      FlattenQueriesOnly(ts[..|ts| - 1]);
    }
  }

  /** Tasks of `k` queries each issue `k` queries per task. */
  lemma {:induction false} FlattenUniformLength(ts: seq<seq<Event>>, k: nat)
    requires forall i :: 0 <= i < |ts| ==> |ts[i]| == k
    ensures |Flatten(ts)| == k * |ts|
  {
    if ts != [] {
      FlattenUniformLength(ts[..|ts| - 1], k);
    }
  }
}
