/** The worker side of a run: unit conversions, the chunk schedule, the calls
    made on the fitting engine with the progress values put on the queue in
    between, and the tagged result the worker hands back. The fitting engine
    itself is a stub: it answers each call with a log string, or raises on one
    chosen call, and finally yields fixed output arrays. */
module FitDispatch {
  import opened Values

  // ---------------------------------------------------------------- units

  /** Seconds to minutes. */
  function Minutes(seconds: real): (m: real)
    ensures m * 60.0 == seconds
  {
    seconds / 60.0
  }

  /** Milliseconds to seconds. */
  function Seconds(ms: real): (s: real)
    ensures s * 1000.0 == ms
  {
    ms / 1000.0
  }

  /** Sample times in minutes: sample i is taken at i * delt seconds. */
  function TimeAxis(n: nat, delt: real): (t: seq<real>)
    ensures |t| == n
  {
    seq(n, i => i as real * delt / 60.0)
  }

  /** The axis starts at zero and its samples are delt / 60 minutes apart. */
  lemma TimeAxisSpacing(n: nat, delt: real)
    ensures forall i :: 0 <= i < n ==> TimeAxis(n, delt)[i] * 60.0 == i as real * delt
    ensures n > 0 ==> TimeAxis(n, delt)[0] == 0.0
    ensures forall i :: 0 <= i < n - 1 ==> TimeAxis(n, delt)[i + 1] - TimeAxis(n, delt)[i] == delt / 60.0
  {
    var t := TimeAxis(n, delt);
    forall i | 0 <= i < n
      ensures t[i] * 60.0 == i as real * delt
    {
      assert t[i] == i as real * delt / 60.0;
    }
    forall i | 0 <= i < n - 1
      ensures t[i + 1] - t[i] == delt / 60.0
    {
      var x := i as real * delt;
      assert (i + 1) as real * delt == x + delt;
    }
  }

  /** Parameter bounds handed to the engine, in the order Ktrans, ve, offset, vp. */
  const Upper: seq<real> := [10.0, 1.0, 0.5, 0.5]
  const Lower: seq<real> := [0.0, 0.05, -0.5, 0.0]

  // ------------------------------------------------------------- schedule

  /** numpy's `around(n / d)`: nearest integer, ties to the even neighbour. */
  function RoundHalfEven(n: nat, d: nat): nat
    requires d > 0
  {
    var q, m := n / d, n % d;
    if 2 * m < d then q
    else if 2 * m > d then q + 1
    else if q % 2 == 0 then q
    else q + 1
  }

  /** The rounded value is within half of n / d, and a tie goes to the even neighbour. */
  lemma RoundHalfEvenNearest(n: nat, d: nat)
    requires d > 0
    ensures var r := RoundHalfEven(n, d);
      -(d as int) <= 2 * (r * d - n) <= d &&
      (2 * (r * d - n) == d || 2 * (r * d - n) == -(d as int) ==> r % 2 == 0)
  {
  }

  /** n / 5 never ends in exactly one half, so `around(n / 5)` is (n + 2) div 5. */
  lemma RoundFifth(n: nat)
    ensures RoundHalfEven(n, 5) == (n + 2) / 5
  {
  }

  /** Voxels per engine call: `max(1, around(N / 5))`. */
  function SizeStep(n: nat): (s: nat)
    ensures s >= 1
  {
    var r := RoundHalfEven(n, 5);
    if r < 1 then 1 else r
  }

  /** Number of engine calls: `around(N / size_step)`. */
  function Steps(n: nat): nat
  {
    RoundHalfEven(n, SizeStep(n))
  }

  /** Every non-empty selection gets at least one and at most seven chunks, and
      the chunks cover N voxels to within half a chunk either way. */
  lemma StepsBounds(n: nat)
    requires n >= 1
    ensures 1 <= Steps(n) <= 7
    ensures -(SizeStep(n) as int) <= 2 * (Steps(n) * SizeStep(n) - n) <= SizeStep(n)
  {
    var s, k := SizeStep(n), Steps(n);
    RoundFifth(n);
    RoundHalfEvenNearest(n, s);
    if (n + 2) / 5 < 1 {
      assert s == 1 && n <= 2;
      assert k == n;
    } else {
      assert s == (n + 2) / 5;
      assert 5 * s <= n + 2 < 5 * s + 5;
      assert -(s as int) <= 2 * (k * s - n) <= s;
      if k >= 8 {
        MulMonotone(8, k, s);
      }
    }
  }

  lemma MulMonotone(a: nat, b: nat, c: nat)
    requires a <= b
    ensures a * c <= b * c
  {
  }

  /** A non-empty selection has at least one chunk. */
  lemma StepsPositive(n: nat)
    requires n >= 1
    ensures Steps(n) >= 1
  {
    StepsBounds(n);
  }

  /** The chunks need not cover exactly N voxels: nine voxels are fitted in four
      chunks of two (one short), eleven in six chunks of two (one over). */
  lemma ScheduleExamples()
    ensures SizeStep(9) == 2 && Steps(9) == 4 && Steps(9) * SizeStep(9) < 9
    ensures SizeStep(11) == 2 && Steps(11) == 6 && Steps(11) * SizeStep(11) > 11
  {
  }

  // --------------------------------------------------------------- engine

  /** One row of the engine's parameter matrix. */
  datatype Params = Params(ktrans: real, ve: real, offset: real, vp: real)

  /** What the engine yields once every chunk has been run. */
  datatype Fit = Fit(residual: seq<real>, curves: seq<seq<real>>, params: seq<Params>)

  /** The fitting engine as a stub: call number i (counting from 0) raises
      `failure` when `failAt == Some(i)` and otherwise returns the log `logs(i)`;
      the getters yield `fit`. */
  datatype Engine = Engine(failAt: Option<nat>, failure: string, logs: nat -> string, fit: Fit)

  /** Calls made on the engine, with the arguments it receives. */
  datatype Call =
    | Construct(time: seq<real>, voxels: seq<seq<real>>, t10: seq<real>)
    | SetBounds(upper: seq<real>, lower: seq<real>)
    | SetParameters(r1: real, r2: real, flipAngle: real, tr: real, te: real, dose: real)
    | Init(model: OptVal, injMinutes: real)
    | RunChunk(size: nat)
    | GetResidual
    | GetFittedCurve
    | GetParameters

  /** What the worker does, in order: call the engine or put a progress value on the queue. */
  datatype Event = Invoke(call: Call) | Put(progress: real)

  /** Everything the worker is started with (times in seconds, TR and TE in milliseconds). */
  datatype WorkerArgs = WorkerArgs(
    voxels: seq<seq<real>>, samples: nat, t10: seq<real>,
    r1: real, r2: real, dt: real, tinj: real, tr: real, te: real, fa: real, dose: real,
    model: OptVal)

  datatype Cause = NoUnmaskedData | Raised(message: string)

  datatype Output = Output(residual: seq<real>, curves: seq<seq<real>>, params: seq<Params>, log: string)

  /** The worker's tuple: `(id, True, outputs)` or `(id, False, error)`. */
  datatype WorkerResult = Succeeded(workerId: nat, output: Output) | Failed(workerId: nat, cause: Cause)

  function Reply(engine: Engine, i: nat): Result<string, string>
  {
    if engine.failAt == Some(i) then Err(engine.failure) else Ok(engine.logs(i))
  }

  /** The engine calls among the events. */
  function Calls(es: seq<Event>): seq<Call>
  {
    if es == [] then []
    else Calls(es[..|es| - 1]) + (if es[|es| - 1].Invoke? then [es[|es| - 1].call] else [])
  }

  /** The progress values among the events: the queue's contents, oldest first. */
  function Puts(es: seq<Event>): seq<real>
  {
    if es == [] then []
    else Puts(es[..|es| - 1]) + (if es[|es| - 1].Put? then [es[|es| - 1].progress] else [])
  }

  lemma {:induction false} CallsAppend(a: seq<Event>, b: seq<Event>)
    ensures Calls(a + b) == Calls(a) + Calls(b)
    decreases |b|
  {
    if b != [] {
      var n := |b| - 1;
      assert (a + b)[..|a + b| - 1] == a + b[..n];
      CallsAppend(a, b[..n]);
    } else {
      assert a + b == a;
    }
  }

  lemma {:induction false} PutsAppend(a: seq<Event>, b: seq<Event>)
    ensures Puts(a + b) == Puts(a) + Puts(b)
    decreases |b|
  {
    if b != [] {
      var n := |b| - 1;
      assert (a + b)[..|a + b| - 1] == a + b[..n];
      PutsAppend(a, b[..n]);
    } else {
      assert a + b == a;
    }
  }

  // ------------------------------------------------------------- protocol

  function Invokes(cs: seq<Call>): seq<Event>
  {
    seq(|cs|, i requires 0 <= i < |cs| => Invoke(cs[i]))
  }

  lemma {:induction false} InvokesCallsPuts(cs: seq<Call>)
    ensures Calls(Invokes(cs)) == cs && Puts(Invokes(cs)) == []
  {
    if cs != [] {
      var n := |cs| - 1;
      assert Invokes(cs)[..n] == Invokes(cs[..n]);
      InvokesCallsPuts(cs[..n]);
    }
  }

  lemma CallsSnoc(es: seq<Event>, e: Event)
    ensures Calls(es + [e]) == Calls(es) + (if e.Invoke? then [e.call] else [])
    ensures Puts(es + [e]) == Puts(es) + (if e.Put? then [e.progress] else [])
  {
    assert (es + [e])[..|es|] == es;
  }

  /** Progress put before chunk ii of steps starts: `ii / steps * 100`. */
  function Progress(ii: nat, steps: nat): real
    requires steps > 0
  {
    ii as real / steps as real * 100.0
  }

  /** Construction, bounds, parameters (TR and TE in seconds) and initialisation
      (injection time in minutes). */
  function SetupCalls(a: WorkerArgs): seq<Call>
  {
    [ Construct(TimeAxis(a.samples, a.dt), a.voxels, a.t10),
      SetBounds(Upper, Lower),
      SetParameters(a.r1, a.r2, a.fa, Seconds(a.tr), Seconds(a.te), a.dose),
      Init(a.model, Minutes(a.tinj)) ]
  }

  /** Chunk ii: every chunk but the first is preceded by its progress value. */
  function ChunkEvents(ii: nat, steps: nat, size: nat): seq<Event>
    requires steps > 0
  {
    (if ii > 0 then [Put(Progress(ii, steps))] else []) + [Invoke(RunChunk(size))]
  }

  /** The first k chunks. */
  function Chunks(k: nat, steps: nat, size: nat): seq<Event>
    requires steps > 0
  {
    if k == 0 then [] else Chunks(k - 1, steps, size) + ChunkEvents(k - 1, steps, size)
  }

  const Getters: seq<Call> := [GetResidual, GetFittedCurve, GetParameters]

  /** The complete run of a worker on a non-empty selection. */
  function Protocol(a: WorkerArgs): seq<Event>
    requires |a.voxels| > 0
  {
    var n := |a.voxels|;
    StepsPositive(n);
    Invokes(SetupCalls(a)) + [Put(1.0)] + Chunks(Steps(n), Steps(n), SizeStep(n))
      + Invokes(Getters) + [Put(100.0)]
  }

  /** The accumulated log: the initialisation log, then each chunk's log. */
  function WorkerLog(engine: Engine, k: nat): string
  {
    if k == 0 then engine.logs(3) else WorkerLog(engine, k - 1) + engine.logs(4 + k - 1)
  }

  lemma {:induction false} ChunksCalls(k: nat, steps: nat, size: nat)
    requires steps > 0
    ensures Calls(Chunks(k, steps, size)) == seq(k, _ => RunChunk(size))
  {
    if k > 0 {
      ChunksCalls(k - 1, steps, size);
      CallsAppend(Chunks(k - 1, steps, size), ChunkEvents(k - 1, steps, size));
      CallsAppend(if k - 1 > 0 then [Put(Progress(k - 1, steps))] else [], [Invoke(RunChunk(size))]);
    }
  }

  lemma {:induction false} ChunksPuts(k: nat, steps: nat, size: nat)
    requires steps > 0 && k > 0
    ensures Puts(Chunks(k, steps, size)) == seq(k - 1, i requires 0 <= i < k - 1 => Progress(i + 1, steps))
  {
    if k > 1 {
      ChunksPuts(k - 1, steps, size);
      PutsAppend(Chunks(k - 1, steps, size), ChunkEvents(k - 1, steps, size));
      PutsAppend([Put(Progress(k - 1, steps))], [Invoke(RunChunk(size))]);
    } else {
      assert Chunks(1, steps, size) == [Invoke(RunChunk(size))];
    }
  }

  /** The engine sees construction, bounds, parameters and initialisation, then
      exactly `steps` chunk calls of `size_step` voxels each, then the three getters. */
  lemma ProtocolCalls(a: WorkerArgs)
    requires |a.voxels| > 0
    ensures Calls(Protocol(a)) ==
      SetupCalls(a) + seq(Steps(|a.voxels|), _ => RunChunk(SizeStep(|a.voxels|))) + Getters
    ensures |Calls(Protocol(a))| == Steps(|a.voxels|) + 7
  {
    var n := |a.voxels|;
    StepsBounds(n);
    var ch := Chunks(Steps(n), Steps(n), SizeStep(n));
    var s := Invokes(SetupCalls(a));
    CallsAppend(s + [Put(1.0)] + ch + Invokes(Getters), [Put(100.0)]);
    CallsAppend(s + [Put(1.0)] + ch, Invokes(Getters));
    CallsAppend(s + [Put(1.0)], ch);
    CallsAppend(s, [Put(1.0)]);
    ChunksCalls(Steps(n), Steps(n), SizeStep(n));
    InvokesCallsPuts(SetupCalls(a));
    InvokesCallsPuts(Getters);
  }

  /** The values put on the queue by a complete run of `steps` chunks. */
  function Queued(steps: nat): seq<real>
    requires steps > 0
  {
    [1.0] + seq(steps - 1, i requires 0 <= i < steps - 1 => Progress(i + 1, steps)) + [100.0]
  }

  /** The queue receives 1, then ii / steps * 100 for ii = 1 .. steps - 1, each
      just before chunk ii runs, then 100 after the outputs are read. */
  lemma ProtocolPuts(a: WorkerArgs)
    requires |a.voxels| > 0
    ensures Steps(|a.voxels|) > 0
    ensures Puts(Protocol(a)) == Queued(Steps(|a.voxels|))
  {
    var n := |a.voxels|;
    StepsPositive(n);
    var ch := Chunks(Steps(n), Steps(n), SizeStep(n));
    InvokesCallsPuts(SetupCalls(a));
    InvokesCallsPuts(Getters);
    BracketPuts(Invokes(SetupCalls(a)), ch, Invokes(Getters));
    ChunksPuts(Steps(n), Steps(n), SizeStep(n));
  }

  /** Puts of the protocol's shape: whatever the setup and getters are, as long
      as they put nothing. */
  lemma BracketPuts(s: seq<Event>, ch: seq<Event>, g: seq<Event>)
    requires Puts(s) == [] && Puts(g) == []
    ensures Puts(s + [Put(1.0)] + ch + g + [Put(100.0)]) == [1.0] + Puts(ch) + [100.0]
  {
    PutsAppend(s + [Put(1.0)] + ch + g, [Put(100.0)]);
    PutsAppend(s + [Put(1.0)] + ch, g);
    PutsAppend(s + [Put(1.0)], ch);
    PutsAppend(s, [Put(1.0)]);
    CallsSnoc([], Put(1.0));
    CallsSnoc([], Put(100.0));
  }

  /** steps + 1 values, each in (0, 100]; the last is 100 and those put inside
      the chunk loop strictly increase. */
  lemma QueuedRange(steps: nat)
    requires steps > 0
    ensures |Queued(steps)| == steps + 1
    ensures forall i :: 0 <= i < |Queued(steps)| ==> 0.0 < Queued(steps)[i] <= 100.0
    ensures Queued(steps)[steps] == 100.0
    ensures forall i, j :: 1 <= i < j <= steps ==> Queued(steps)[i] < Queued(steps)[j]
  {
    var q := Queued(steps);
    var k := steps as real;
    forall i | 1 <= i < steps
      ensures q[i] == Progress(i, steps) && 0.0 < q[i] < 100.0
    {
      assert i as real / k < 1.0;
    }
    forall i, j | 1 <= i < j < steps
      ensures q[i] < q[j]
    {
      DivMonotone(i as real, j as real, k);
    }
  }

  /** With at most seven chunks the first report (1) is below the second
      (100 / steps, or the final 100), so the whole queue is strictly increasing. */
  lemma QueuedIncreasing(n: nat)
    requires n >= 1
    ensures Steps(n) > 0 && |Queued(Steps(n))| == Steps(n) + 1
    ensures forall i, j :: 0 <= i < j <= Steps(n) ==> Queued(Steps(n))[i] < Queued(Steps(n))[j]
  {
    StepsBounds(n);
    QueuedHead(Steps(n));
    QueuedRange(Steps(n));
  }

  lemma QueuedHead(steps: nat)
    requires 1 <= steps <= 7
    ensures Queued(steps)[0] == 1.0 < Queued(steps)[1]
  {
    var q := Queued(steps);
    if steps > 1 {
      var k := steps as real;
      assert q[1] == Progress(1, steps) == 100.0 / k;
      DivMonotone(k, 100.0, k);
      assert k / k == 1.0;
    }
  }

  lemma DivMonotone(x: real, y: real, k: real)
    requires x < y && k > 0.0
    ensures x / k < y / k
  {
    assert y / k - x / k == (y - x) / k;
  }

  /** The engine completes: it raises on none of the protocol's calls. */
  predicate Completes(engine: Engine, a: WorkerArgs)
    requires |a.voxels| > 0
  {
    engine.failAt.None? || engine.failAt.value >= Steps(|a.voxels|) + 7
  }

  /** The engine's construction, bounds, parameters and initialisation; `log`
      is the initialisation log, `raised` the error of the call that raised. */
  method StartEngine(engine: Engine, a: WorkerArgs) returns (events: seq<Event>, log: string, raised: Option<string>)
    ensures events <= Invokes(SetupCalls(a))
    ensures raised.None? ==>
      events == Invokes(SetupCalls(a)) && log == WorkerLog(engine, 0) &&
      (engine.failAt.None? || engine.failAt.value >= 4)
    ensures raised.Some? ==> raised.value == engine.failure && events != [] && engine.failAt == Some(|events| - 1)
  {
    var t := TimeAxis(a.samples, a.dt);
    var injMinutes := Minutes(a.tinj);
    var tr, te := Seconds(a.tr), Seconds(a.te);
    ghost var setup := Invokes(SetupCalls(a));
    events, log, raised := [], "", None;
    events := events + [Invoke(Construct(t, a.voxels, a.t10))];
    var reply := Reply(engine, 0);
    assert events == setup[..1];
    if reply.Err? { raised := Some(reply.error); return; }
    events := events + [Invoke(SetBounds(Upper, Lower))];
    reply := Reply(engine, 1);
    assert events == setup[..2];
    if reply.Err? { raised := Some(reply.error); return; }
    events := events + [Invoke(SetParameters(a.r1, a.r2, a.fa, tr, te, a.dose))];
    reply := Reply(engine, 2);
    assert events == setup[..3];
    if reply.Err? { raised := Some(reply.error); return; }
    events := events + [Invoke(Init(a.model, injMinutes))];
    reply := Reply(engine, 3);
    assert events == setup;
    if reply.Err? { raised := Some(reply.error); return; }
    log := log + reply.value;
  }

  /** The chunk loop: progress for chunk ii (ii > 0) is put before the chunk
      runs; `ran` counts the chunk calls made, the last of which raised if
      `raised` is set. */
  method RunChunks(engine: Engine, steps: nat, size: nat, log0: string)
    returns (events: seq<Event>, ran: nat, log: string, raised: Option<string>)
    requires steps > 0 && log0 == WorkerLog(engine, 0)
    requires engine.failAt.None? || engine.failAt.value >= 4
    ensures ran <= steps && events == Chunks(ran, steps, size)
    ensures raised.None? ==>
      ran == steps && log == WorkerLog(engine, steps) &&
      (engine.failAt.None? || engine.failAt.value >= 4 + steps)
    ensures raised.Some? ==> raised.value == engine.failure && ran >= 1 && engine.failAt == Some(4 + ran - 1)
  {
    events, ran, log, raised := [], 0, log0, None;
    for ii := 0 to steps
      invariant events == Chunks(ii, steps, size) && ran == ii
      invariant engine.failAt.None? || engine.failAt.value >= 4 + ii
      invariant log == WorkerLog(engine, ii)
    {
      if ii > 0 {
        var progress := ii as real / steps as real * 100.0;
        events := events + [Put(progress)];
      }
      events := events + [Invoke(RunChunk(size))];
      ran := ran + 1;
      var reply := Reply(engine, 4 + ii);
      if reply.Err? {
        raised := Some(reply.error);
        return;
      }
      log := log + reply.value;
    }
  }

  /** The three getters, after `done` earlier calls. */
  method ReadOutputs(engine: Engine, done: nat) returns (events: seq<Event>, raised: Option<string>)
    requires engine.failAt.None? || engine.failAt.value >= done
    ensures events <= Invokes(Getters)
    ensures raised.None? ==> events == Invokes(Getters) && (engine.failAt.None? || engine.failAt.value >= done + 3)
    ensures raised.Some? ==> raised.value == engine.failure && events != [] && engine.failAt == Some(done + |events| - 1)
  {
    ghost var getters := Invokes(Getters);
    events, raised := [Invoke(GetResidual)], None;
    var reply := Reply(engine, done);
    assert events == getters[..1];
    if reply.Err? { raised := Some(reply.error); return; }
    events := events + [Invoke(GetFittedCurve)];
    reply := Reply(engine, done + 1);
    assert events == getters[..2];
    if reply.Err? { raised := Some(reply.error); return; }
    events := events + [Invoke(GetParameters)];
    reply := Reply(engine, done + 2);
    assert events == getters;
    if reply.Err? { raised := Some(reply.error); return; }
  }

  /** The calls among a prefix of a run of engine calls are that prefix of the calls. */
  lemma InvokesPrefixCalls(cs: seq<Call>, events: seq<Event>)
    requires events <= Invokes(cs)
    ensures Calls(events) == cs[..|events|]
  {
    assert events == Invokes(cs[..|events|]);
    InvokesCallsPuts(cs[..|events|]);
  }

  lemma PrefixAppend<T>(a: seq<T>, b: seq<T>, c: seq<T>)
    requires a <= b
    ensures a <= b + c
  {
    assert (b + c)[..|a|] == b[..|a|];
  }

  lemma PrefixPrepend<T>(p: seq<T>, a: seq<T>, b: seq<T>)
    requires a <= b
    ensures p + a <= p + b
  {
    assert (p + b)[..|p + a|] == p + b[..|a|];
  }

  /** The events of a run whose setup raised at its last call. */
  lemma SetupFailure(a: WorkerArgs, events: seq<Event>)
    requires |a.voxels| > 0 && events != [] && events <= Invokes(SetupCalls(a))
    ensures events <= Protocol(a) && |Calls(events)| == |events| && events[|events| - 1].Invoke?
  {
    InvokesPrefixCalls(SetupCalls(a), events);
    var n := |a.voxels|;
    StepsPositive(n);
    var rest := [Put(1.0)] + Chunks(Steps(n), Steps(n), SizeStep(n)) + Invokes(Getters) + [Put(100.0)];
    assert Protocol(a) == Invokes(SetupCalls(a)) + rest;
    PrefixAppend(events, Invokes(SetupCalls(a)), rest);
  }

  /** The events before the chunk loop, once the setup succeeded. */
  lemma HeadCalls(a: WorkerArgs)
    ensures Calls(Invokes(SetupCalls(a)) + [Put(1.0)]) == SetupCalls(a)
  {
    InvokesCallsPuts(SetupCalls(a));
    CallsSnoc(Invokes(SetupCalls(a)), Put(1.0));
  }

  /** The events of a run whose `ran`-th chunk raised. */
  lemma ChunkFailure(a: WorkerArgs, ran: nat)
    requires |a.voxels| > 0 && 1 <= ran <= Steps(|a.voxels|)
    ensures
      var n := |a.voxels|;
      var events := Invokes(SetupCalls(a)) + [Put(1.0)] + Chunks(ran, Steps(n), SizeStep(n));
      events <= Protocol(a) && |Calls(events)| == 4 + ran && events[|events| - 1].Invoke?
  {
    var n := |a.voxels|;
    StepsPositive(n);
    var steps, size := Steps(n), SizeStep(n);
    var head := Invokes(SetupCalls(a)) + [Put(1.0)];
    var tail := Invokes(Getters) + [Put(100.0)];
    HeadCalls(a);
    CallsAppend(head, Chunks(ran, steps, size));
    ChunksCalls(ran, steps, size);
    ChunksPrefix(ran, steps, steps, size);
    PrefixAppend(Chunks(ran, steps, size), Chunks(steps, steps, size), tail);
    PrefixPrepend(head, Chunks(ran, steps, size), Chunks(steps, steps, size) + tail);
    Regroup(head, Chunks(steps, steps, size), Invokes(Getters), [Put(100.0)]);
  }

  lemma Regroup<T>(h: seq<T>, c: seq<T>, d: seq<T>, e: seq<T>)
    ensures h + c + d + e == h + (c + (d + e))
  {
  }

  /** The events of a run whose `|last|`-th getter raised. */
  lemma ReadFailure(a: WorkerArgs, last: seq<Event>)
    requires |a.voxels| > 0 && last != [] && last <= Invokes(Getters)
    ensures
      var n := |a.voxels|;
      var events := Invokes(SetupCalls(a)) + [Put(1.0)] + Chunks(Steps(n), Steps(n), SizeStep(n)) + last;
      events <= Protocol(a) && |Calls(events)| == 4 + Steps(n) + |last| && events[|events| - 1].Invoke?
  {
    var n := |a.voxels|;
    StepsPositive(n);
    var steps, size := Steps(n), SizeStep(n);
    var body := Invokes(SetupCalls(a)) + [Put(1.0)] + Chunks(steps, steps, size);
    HeadCalls(a);
    CallsAppend(Invokes(SetupCalls(a)) + [Put(1.0)], Chunks(steps, steps, size));
    ChunksCalls(steps, steps, size);
    CallsAppend(body, last);
    InvokesPrefixCalls(Getters, last);
    PrefixAppend(last, Invokes(Getters), [Put(100.0)]);
    PrefixPrepend(body, last, Invokes(Getters) + [Put(100.0)]);
    assert Protocol(a) == body + (Invokes(Getters) + [Put(100.0)]);
  }

  /** Runs the engine chunk by chunk. An empty selection raises before the engine
      exists; any exception from the engine ends the run right after the call that
      raised and becomes a failure carrying the error instead of propagating. */
  method RunPk(workerId: nat, engine: Engine, a: WorkerArgs) returns (events: seq<Event>, result: WorkerResult)
    ensures result.workerId == workerId
    ensures |a.voxels| == 0 ==> events == [] && result == Failed(workerId, NoUnmaskedData)
    ensures |a.voxels| > 0 ==> events <= Protocol(a)
    ensures |a.voxels| > 0 ==> (result.Succeeded? <==> Completes(engine, a))
    ensures result.Succeeded? ==>
      events == Protocol(a) &&
      result.output == Output(engine.fit.residual, engine.fit.curves, engine.fit.params,
                              WorkerLog(engine, Steps(|a.voxels|)))
    ensures |a.voxels| > 0 && result.Failed? ==>
      result.cause == Raised(engine.failure) &&
      engine.failAt == Some(|Calls(events)| - 1) &&
      events != [] && events[|events| - 1].Invoke?
  {
    if |a.voxels| == 0 {
      events, result := [], Failed(workerId, NoUnmaskedData);
      return;
    }
    var n := |a.voxels|;
    StepsPositive(n);
    var size, steps := SizeStep(n), Steps(n);

    var log, raised;
    events, log, raised := StartEngine(engine, a);
    if raised.Some? {
      SetupFailure(a, events);
      result := Failed(workerId, Raised(raised.value));
      return;
    }

    var more, ran;
    more, ran, log, raised := RunChunks(engine, steps, size, log);
    if raised.Some? {
      ChunkFailure(a, ran);
      events := events + [Put(1.0)] + more;
      result := Failed(workerId, Raised(raised.value));
      return;
    }
    events := events + [Put(1.0)] + more;

    var res, curves, params := engine.fit.residual, engine.fit.curves, engine.fit.params;
    var last;
    last, raised := ReadOutputs(engine, 4 + steps);
    if raised.Some? {
      ReadFailure(a, last);
      events := events + last;
      result := Failed(workerId, Raised(raised.value));
      return;
    }
    events := events + last + [Put(100.0)];
    result := Succeeded(workerId, Output(res, curves, params, log));
  }

  lemma {:induction false} ChunksPrefix(i: nat, j: nat, steps: nat, size: nat)
    requires steps > 0 && i <= j
    ensures Chunks(i, steps, size) <= Chunks(j, steps, size)
    decreases j - i
  {
    if i < j {
      ChunksPrefix(i, j - 1, steps, size);
    }
  }
}
