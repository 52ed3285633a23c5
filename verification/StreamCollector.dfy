/** The two-level collector (wings_control/rag_acc/stream_collector.py): one task per chunk request, a
    combiner, a monitor and the generator that streams to the client, communicating over
    non-blocking queues.  A run is any interleaving of their atomic steps. */
module StreamCollector {
  import opened Common
  import opened NonBlocking

  /** What the environment supplies: the parsed events of each chunk request up to its end or its
      failure, the text of an event, and the combine response for a prompt. */
  datatype Params<!E> = Params(chunks: seq<seq<E>>, onlyCombine: bool, text: E -> string, combine: string -> seq<E>)

  datatype Combiner = Warmup | AwaitDone(index: nat) | Combining(prompt: string, sent: nat) | CombineEnded

  datatype Consumer<E> =
    | TakeChunk(index: nat)
    | Delaying(index: nat, event: E)
    | AwaitMonitor
    | TakeCombine
    | SendDone
    | Gather
    | Ended

  /** What travels on a queue: an event, or the None that ends it. */
  datatype Item<E> = Event(event: E) | End

  datatype Output<E> = Data(event: E) | DoneMark

  /** `produced[i]` counts what task i has put on its queue, the closing None included. */
  datatype State<E> = State(
    queues: seq<Queue<Item<E>>>, buffers: seq<string>, dones: seq<Queue<()>>, produced: seq<nat>,
    combineQueue: Queue<Item<E>>, combineStarted: bool,
    combiner: Combiner, monitorDone: bool, consumer: Consumer<E>, out: seq<Output<E>>)

  datatype Task = Chunk(index: nat) | Combine | Monitor | Stream

  function Empty<T>(): Queue<T> {
    Queue([], false)
  }

  function Init<E>(p: Params<E>): State<E> {
    var n := |p.chunks|;
    State(seq(n, _ => Empty()), seq(n, _ => ""), seq(n, _ => Empty()), seq(n, _ => 0),
          Empty(), false, Warmup, false, TakeChunk(0), [])
  }

  function Join(texts: seq<string>): string {
    if texts == [] then ""
    else if |texts| == 1 then texts[0]
    else Join(texts[..|texts| - 1]) + "\n\n" + texts[|texts| - 1]
  }

  // ---------------------------------------------------------------------------
  // One step of each task; a task that cannot go on leaves the state as it is
  // ---------------------------------------------------------------------------

  predicate Shaped<E>(p: Params<E>, s: State<E>) {
    |s.queues| == |s.buffers| == |s.dones| == |s.produced| == |p.chunks|
  }

  /** `_collect_single_chunk`: the next event goes to the buffer and the queue; at the end None is put
      on the queue and on the done queue. */
  function ChunkStep<E>(p: Params<E>, s: State<E>, i: nat): State<E>
    requires Shaped(p, s)
  {
    if i >= |p.chunks| || s.produced[i] > |p.chunks[i]| then s
    else if s.produced[i] < |p.chunks[i]| then
      var e := p.chunks[i][s.produced[i]];
      s.(buffers := s.buffers[i := s.buffers[i] + p.text(e)],
         queues := s.queues[i := Appended(s.queues[i], Event(e))],
         produced := s.produced[i := s.produced[i] + 1])
    else
      s.(queues := s.queues[i := Appended(s.queues[i], End)],
         dones := s.dones[i := Appended(s.dones[i], ())],
         produced := s.produced[i := s.produced[i] + 1])
  }

  /** `_combine_results`: warm up, wait for every chunk task, ask with the joined buffers, pass the
      answer on. */
  function CombineStep<E>(p: Params<E>, s: State<E>): State<E>
    requires Shaped(p, s)
  {
    match s.combiner
    case Warmup => s.(combiner := AwaitDone(0))
    case AwaitDone(k) =>
      if k < |s.dones| then
        var (q, x) := TryGet(s.dones[k]);
        s.(dones := s.dones[k := q], combiner := if x.Some? then AwaitDone(k + 1) else AwaitDone(k))
      else s.(combiner := Combining(Join(s.buffers), 0))
    case Combining(prompt, j) =>
      var events := p.combine(prompt);
      if j < |events| then
        s.(combineQueue := Appended(s.combineQueue, Event(events[j])), combiner := Combining(prompt, j + 1))
      else
        s.(combineQueue := Appended(s.combineQueue, End), combiner := CombineEnded)
    case CombineEnded => s
  }

  /** `_monitor_combine_start`: look at the first item and leave it where it was. */
  function MonitorStep<E>(s: State<E>): State<E> {
    if s.monitorDone then s
    else
      var (q, x) := TryGet<Item<E>>(s.combineQueue);
      match x
      case None => s.(combineQueue := q)
      case Some(Event(e)) => s.(combineQueue := Prepended(q, Event(e)), combineStarted := true, monitorDone := true)
      case Some(End) => s.(combineQueue := Appended(q, End), monitorDone := true)
  }

  /** `collect_and_stream` with the two generators it drives. */
  function StreamStep<E>(p: Params<E>, s: State<E>): State<E>
    requires Shaped(p, s)
  {
    match s.consumer
    case TakeChunk(i) =>
      if i >= |s.queues| then s.(consumer := AwaitMonitor)
      else
        var (q, x) := TryGet<Item<E>>(s.queues[i]);
        var s1 := s.(queues := s.queues[i := q]);
        match x {
          case None => s1
          case Some(End) => s1.(consumer := TakeChunk(i + 1))
          case Some(Event(e)) => if p.onlyCombine then s1 else s1.(consumer := Delaying(i, e))
        }
    case Delaying(i, e) => s.(out := s.out + [Data(e)], consumer := TakeChunk(i))
    case AwaitMonitor => if s.monitorDone then s.(consumer := TakeCombine) else s
    case TakeCombine =>
      var (q, x) := TryGet<Item<E>>(s.combineQueue);
      var s1 := s.(combineQueue := q);
      match x {
        case None => s1
        case Some(End) => s1.(consumer := SendDone)
        case Some(Event(e)) => s1.(out := s.out + [Data(e)])
      }
    case SendDone => s.(out := s.out + [DoneMark], consumer := Gather)
    case Gather =>
      if s.combiner == CombineEnded && (forall i :: 0 <= i < |p.chunks| ==> s.produced[i] > |p.chunks[i]|)
      then s.(consumer := Ended) else s
    case Ended => s
  }

  function Step<E>(p: Params<E>, s: State<E>, t: Task): (s': State<E>)
    requires Shaped(p, s)
    ensures Shaped(p, s')
  {
    match t
    case Chunk(i) => ChunkStep(p, s, i)
    case Combine => CombineStep(p, s)
    case Monitor => MonitorStep(s)
    case Stream => StreamStep(p, s)
  }

  function Run<E>(p: Params<E>, s: State<E>, ts: seq<Task>): (s': State<E>)
    requires Shaped(p, s)
    ensures Shaped(p, s')
    decreases |ts|
  {
    if ts == [] then s else Run(p, Step(p, s, ts[0]), ts[1..])
  }

  // ---------------------------------------------------------------------------
  // The output every run is meant to have
  // ---------------------------------------------------------------------------

  function Texts<E>(p: Params<E>, events: seq<E>): string {
    if events == [] then "" else Texts(p, events[..|events| - 1]) + p.text(events[|events| - 1])
  }

  function CompleteTexts<E>(p: Params<E>): seq<string> {
    seq(|p.chunks|, i requires 0 <= i < |p.chunks| => Texts(p, p.chunks[i]))
  }

  /** The joined complete texts of all chunk responses. */
  function Prompt<E>(p: Params<E>): string {
    Join(CompleteTexts(p))
  }

  function Answer<E>(p: Params<E>): seq<E> {
    p.combine(Prompt(p))
  }

  function DataOf<E>(events: seq<E>): seq<Output<E>> {
    seq(|events|, i requires 0 <= i < |events| => Data(events[i]))
  }

  /** Events of the first `n` chunks, unless only the combined answer is wanted. */
  function ChunkPart<E>(p: Params<E>, n: nat): seq<Output<E>>
    requires n <= |p.chunks|
  {
    if n == 0 || p.onlyCombine then [] else ChunkPart(p, n - 1) + DataOf(p.chunks[n - 1])
  }

  function Expected<E>(p: Params<E>): seq<Output<E>> {
    ChunkPart(p, |p.chunks|) + DataOf(Answer(p)) + [DoneMark]
  }

  // ---------------------------------------------------------------------------
  // Invariant
  // ---------------------------------------------------------------------------

  /** A queue carries the items from `taken` to `put` of `events` followed by one None. */
  ghost predicate Carries<E>(q: Queue<Item<E>>, events: seq<E>, taken: int, put: int) {
    && q.Valid()
    && 0 <= taken <= put <= |events| + 1 && |q.items| == put - taken
    && forall k :: 0 <= k < |q.items| ==> q.items[k] == if taken + k < |events| then Event(events[taken + k]) else End
  }

  ghost function Taken<E>(s: State<E>, i: nat): int
    requires i < |s.queues| == |s.produced|
  {
    s.produced[i] - |s.queues[i].items|
  }

  ghost function CombinerAt<E>(p: Params<E>, s: State<E>): nat {
    match s.combiner
    case Warmup => 0
    case AwaitDone(k) => k
    case _ => |p.chunks|
  }

  ghost function CombinePut<E>(p: Params<E>, s: State<E>): nat {
    match s.combiner
    case Combining(_, j) => j
    case CombineEnded => |Answer(p)| + 1
    case _ => 0
  }

  ghost function CombineTaken<E>(p: Params<E>, s: State<E>): int {
    CombinePut(p, s) - |s.combineQueue.items|
  }

  /** What a chunk task has done so far. */
  ghost predicate ChunkInv<E>(p: Params<E>, s: State<E>, i: nat)
    requires Shaped(p, s) && i < |p.chunks|
  {
    var events, n := p.chunks[i], s.produced[i];
    && n <= |events| + 1
    && Carries(s.queues[i], events, Taken(s, i), n)
    && s.buffers[i] == Texts(p, events[..if n <= |events| then n else |events|])
    && (CombinerAt(p, s) > i ==> n == |events| + 1)
    && s.dones[i] == if n == |events| + 1 && CombinerAt(p, s) <= i then Queue([()], true) else Empty()
  }

  ghost predicate ChunksInv<E>(p: Params<E>, s: State<E>)
    requires Shaped(p, s)
  {
    forall i :: 0 <= i < |p.chunks| ==> ChunkInv(p, s, i)
  }

  ghost predicate CombineInv<E>(p: Params<E>, s: State<E>) {
    && CombinerAt(p, s) <= |p.chunks|
    && (s.combiner.Combining? ==> s.combiner.prompt == Prompt(p) && s.combiner.sent <= |Answer(p)|)
    && Carries(s.combineQueue, Answer(p), CombineTaken(p, s), CombinePut(p, s))
  }

  /** The first `n` chunk queues are used up; the ones after `n` are untouched. */
  ghost predicate ChunksTaken<E>(p: Params<E>, s: State<E>, n: nat)
    requires Shaped(p, s)
  {
    && n <= |p.chunks|
    && (forall k :: 0 <= k < n ==> Taken(s, k) == |p.chunks[k]| + 1)
    && (forall k :: n < k < |p.chunks| ==> Taken(s, k) == 0)
  }

  function Head<E>(events: seq<E>, n: int): seq<E> {
    if 0 <= n <= |events| then events[..n] else events
  }

  /** The output while chunk `i` is streamed and `n` of its events have been sent. */
  function ChunkOutput<E>(p: Params<E>, i: nat, n: int): seq<Output<E>>
    requires i <= |p.chunks|
  {
    if p.onlyCombine then []
    else if i == |p.chunks| then ChunkPart(p, i) else ChunkPart(p, i) + DataOf(Head(p.chunks[i], n))
  }

  /** How far the stream to the client has come. */
  ghost predicate StreamInv<E>(p: Params<E>, s: State<E>)
    requires Shaped(p, s)
  {
    var n, c := |p.chunks|, CombineTaken(p, s);
    match s.consumer
    case TakeChunk(i) =>
      && ChunksTaken(p, s, i) && c == 0
      && (i < n ==> Taken(s, i) <= |p.chunks[i]|)
      && s.out == ChunkOutput(p, i, if i < n then Taken(s, i) else 0)
    case Delaying(i, e) =>
      && i < n && ChunksTaken(p, s, i) && c == 0 && !p.onlyCombine
      && 1 <= Taken(s, i) <= |p.chunks[i]| && e == p.chunks[i][Taken(s, i) - 1]
      && s.out == ChunkOutput(p, i, Taken(s, i) - 1)
    case AwaitMonitor => ChunksTaken(p, s, n) && c == 0 && s.out == ChunkPart(p, n)
    case TakeCombine =>
      && ChunksTaken(p, s, n) && s.monitorDone && c <= |Answer(p)|
      && s.out == ChunkPart(p, n) + DataOf(Head(Answer(p), c))
    case SendDone =>
      && ChunksTaken(p, s, n) && s.monitorDone && c == |Answer(p)| + 1
      && s.out == ChunkPart(p, n) + DataOf(Answer(p))
    case _ => ChunksTaken(p, s, n) && s.monitorDone && c == |Answer(p)| + 1 && s.out == Expected(p)
  }

  ghost predicate Inv<E>(p: Params<E>, s: State<E>) {
    && Shaped(p, s)
    && ChunksInv(p, s)
    && CombineInv(p, s)
    && StreamInv(p, s)
  }

  lemma InitInv<E>(p: Params<E>)
    ensures Inv(p, Init(p))
  {
    var s := Init(p);
    forall i | 0 <= i < |p.chunks| ensures ChunkInv(p, s, i) {
      assert p.chunks[i][..0] == [];
    }
    if |p.chunks| > 0 {
      assert DataOf(Head(p.chunks[0], 0)) == [];
    }
    assert ChunkPart(p, 0) == [];
  }

  lemma CarriesPut<E>(q: Queue<Item<E>>, events: seq<E>, taken: int, put: int)
    requires Carries(q, events, taken, put) && put <= |events|
    ensures Carries(Appended(q, if put < |events| then Event(events[put]) else End), events, taken, put + 1)
  {}

  lemma CarriesTake<E>(q: Queue<Item<E>>, events: seq<E>, taken: int, put: int)
    requires Carries(q, events, taken, put)
    ensures var (q', x) := TryGet(q);
            if taken == put then x == None && q' == q
            else x == Some(if taken < |events| then Event(events[taken]) else End)
                 && Carries(q', events, taken + 1, put)
  {}

  /** The stream's position is stated in terms of how much of each queue has been taken. */
  lemma StreamFrame<E>(p: Params<E>, s: State<E>, s': State<E>)
    requires Shaped(p, s) && Shaped(p, s') && StreamInv(p, s)
    requires s'.consumer == s.consumer && s'.out == s.out && (s.monitorDone ==> s'.monitorDone)
    requires CombineTaken(p, s') == CombineTaken(p, s)
    requires forall k :: 0 <= k < |p.chunks| ==> Taken(s', k) == Taken(s, k)
    ensures StreamInv(p, s')
  {
    forall n: nat ensures ChunksTaken(p, s, n) ==> ChunksTaken(p, s', n) {}
  }

  lemma ChunkFrame<E>(p: Params<E>, s: State<E>, s': State<E>, k: nat)
    requires Shaped(p, s) && Shaped(p, s') && k < |p.chunks| && ChunkInv(p, s, k)
    requires s'.queues[k] == s.queues[k] && s'.dones[k] == s.dones[k]
             && s'.produced[k] == s.produced[k] && s'.buffers[k] == s.buffers[k]
    requires CombinerAt(p, s') == CombinerAt(p, s)
    ensures ChunkInv(p, s', k) && Taken(s', k) == Taken(s, k)
  {}

  lemma ChunkStepLocal<E>(p: Params<E>, s: State<E>, i: nat)
    requires Shaped(p, s) && i < |p.chunks| && s.produced[i] <= |p.chunks[i]| && ChunkInv(p, s, i)
    ensures var s' := ChunkStep(p, s, i); ChunkInv(p, s', i) && Taken(s', i) == Taken(s, i)
  {
    var events, n := p.chunks[i], s.produced[i];
    CarriesPut(s.queues[i], events, Taken(s, i), n);
    if n < |events| {
      assert events[..n + 1][..n] == events[..n];
    }
  }

  /** A chunk task touches only its own queues and counts. */
  lemma ChunkStepEach<E>(p: Params<E>, s: State<E>, i: nat, k: nat)
    requires Shaped(p, s) && i < |p.chunks| && s.produced[i] <= |p.chunks[i]|
    requires k < |p.chunks| && ChunkInv(p, s, k)
    ensures var s' := ChunkStep(p, s, i); ChunkInv(p, s', k) && Taken(s', k) == Taken(s, k)
  {
    if k == i {
      ChunkStepLocal(p, s, i);
    } else {
      ChunkFrame(p, s, ChunkStep(p, s, i), k);
    }
  }

  lemma ChunkStepChunks<E>(p: Params<E>, s: State<E>, i: nat)
    requires Shaped(p, s) && ChunksInv(p, s) && i < |p.chunks| && s.produced[i] <= |p.chunks[i]|
    ensures var s' := ChunkStep(p, s, i);
            ChunksInv(p, s') && forall k :: 0 <= k < |p.chunks| ==> Taken(s', k) == Taken(s, k)
  {
    var s' := ChunkStep(p, s, i);
    forall k | 0 <= k < |p.chunks| ensures ChunkInv(p, s', k) && Taken(s', k) == Taken(s, k) {
      ChunkStepEach(p, s, i, k);
    }
  }

  lemma CombineFrame<E>(p: Params<E>, s: State<E>, s': State<E>)
    requires CombineInv(p, s) && s'.combiner == s.combiner && s'.combineQueue == s.combineQueue
    ensures CombineInv(p, s') && CombineTaken(p, s') == CombineTaken(p, s)
  {}

  lemma ChunkStepInv<E>(p: Params<E>, s: State<E>, i: nat)
    requires Inv(p, s)
    ensures Inv(p, ChunkStep(p, s, i))
  {
    if i < |p.chunks| && s.produced[i] <= |p.chunks[i]| {
      var s' := ChunkStep(p, s, i);
      ChunkStepChunks(p, s, i);
      CombineFrame(p, s, s');
      StreamFrame(p, s, s');
    }
  }

  /** Steps that leave the chunk tasks and the position of the combiner alone. */
  lemma ChunksFrame<E>(p: Params<E>, s: State<E>, s': State<E>)
    requires Shaped(p, s) && Shaped(p, s')
    requires ChunksInv(p, s)
    requires s'.queues == s.queues && s'.dones == s.dones && s'.produced == s.produced && s'.buffers == s.buffers
    requires CombinerAt(p, s') == CombinerAt(p, s)
    ensures ChunksInv(p, s') && forall i :: 0 <= i < |p.chunks| ==> Taken(s', i) == Taken(s, i)
  {
    forall i | 0 <= i < |p.chunks| ensures ChunkInv(p, s', i) && Taken(s', i) == Taken(s, i) {
      ChunkFrame(p, s, s', i);
    }
  }

  lemma PromptIsJoin<E>(p: Params<E>, s: State<E>)
    requires Inv(p, s) && CombinerAt(p, s) == |p.chunks|
    ensures Join(s.buffers) == Prompt(p)
  {
    forall i | 0 <= i < |p.chunks| ensures s.buffers[i] == Texts(p, p.chunks[i]) {
      assert ChunkInv(p, s, i);
      assert p.chunks[i][..|p.chunks[i]|] == p.chunks[i];
    }
    assert s.buffers == CompleteTexts(p);
  }

  lemma DoneTaken<E>(p: Params<E>, s: State<E>, k: nat, i: nat)
    requires Shaped(p, s) && s.combiner == AwaitDone(k) && k < |p.chunks| && i < |p.chunks|
    requires ChunkInv(p, s, i) && ChunkInv(p, s, k)
    ensures ChunkInv(p, CombineStep(p, s), i) && Taken(CombineStep(p, s), i) == Taken(s, i)
  {}

  lemma AwaitDoneChunks<E>(p: Params<E>, s: State<E>, k: nat)
    requires Shaped(p, s) && s.combiner == AwaitDone(k) && k < |p.chunks| && ChunksInv(p, s)
    ensures var s' := CombineStep(p, s);
            ChunksInv(p, s') && forall i :: 0 <= i < |p.chunks| ==> Taken(s', i) == Taken(s, i)
  {
    var s' := CombineStep(p, s);
    forall i | 0 <= i < |p.chunks| ensures ChunkInv(p, s', i) && Taken(s', i) == Taken(s, i) {
      DoneTaken(p, s, k, i);
    }
  }

  lemma AwaitDoneInv<E>(p: Params<E>, s: State<E>, k: nat)
    requires Inv(p, s) && s.combiner == AwaitDone(k) && k < |p.chunks|
    ensures Inv(p, CombineStep(p, s))
  {
    AwaitDoneChunks(p, s, k);
    StreamFrame(p, s, CombineStep(p, s));
  }

  lemma CombiningLocal<E>(p: Params<E>, s: State<E>)
    requires Shaped(p, s) && CombineInv(p, s) && s.combiner.Combining?
    ensures var s' := CombineStep(p, s); CombineInv(p, s') && CombineTaken(p, s') == CombineTaken(p, s)
  {
    CarriesPut(s.combineQueue, Answer(p), CombineTaken(p, s), CombinePut(p, s));
  }

  lemma CombiningInv<E>(p: Params<E>, s: State<E>)
    requires Inv(p, s) && s.combiner.Combining?
    ensures Inv(p, CombineStep(p, s))
  {
    var s' := CombineStep(p, s);
    ChunksFrame(p, s, s');
    CombiningLocal(p, s);
    StreamFrame(p, s, s');
  }

  lemma AskInv<E>(p: Params<E>, s: State<E>)
    requires Inv(p, s) && (s.combiner == Warmup || s.combiner == AwaitDone(|p.chunks|))
    ensures Inv(p, CombineStep(p, s))
  {
    var s' := CombineStep(p, s);
    ChunksFrame(p, s, s');
    if s.combiner == AwaitDone(|p.chunks|) {
      PromptIsJoin(p, s);
    }
    StreamFrame(p, s, s');
  }

  lemma CombineStepInv<E>(p: Params<E>, s: State<E>)
    requires Inv(p, s)
    ensures Inv(p, CombineStep(p, s))
  {
    match s.combiner
    case AwaitDone(k) => if k < |p.chunks| { AwaitDoneInv(p, s, k); } else { AskInv(p, s); }
    case Warmup => AskInv(p, s);
    case Combining(_, _) => CombiningInv(p, s);
    case CombineEnded =>
  }

  /** The monitor leaves the combine queue exactly as it found it. */
  lemma MonitorKeepsQueue<E>(p: Params<E>, s: State<E>)
    requires Inv(p, s)
    ensures MonitorStep(s).combineQueue == s.combineQueue
    ensures MonitorStep(s).monitorDone <==> s.monitorDone || s.combineQueue.items != []
  {
    var q := s.combineQueue;
    if !s.monitorDone && q.items != [] {
      if q.items[0].Event? {
        GetThenPrepend(q);
      } else {
        assert |q.items| == 1 && q.items == [End];
        assert [] + [End] == q.items;
      }
    }
  }

  lemma MonitorStepInv<E>(p: Params<E>, s: State<E>)
    requires Inv(p, s)
    ensures Inv(p, MonitorStep(s))
  {
    MonitorKeepsQueue(p, s);
    ChunksFrame(p, s, MonitorStep(s));
    CombineFrame(p, s, MonitorStep(s));
    StreamFrame(p, s, MonitorStep(s));
  }

  lemma DataOfSnoc<E>(events: seq<E>, n: nat)
    requires n < |events|
    ensures DataOf(events[..n + 1]) == DataOf(events[..n]) + [Data(events[n])]
  {}

  lemma TakeLocal<E>(p: Params<E>, s: State<E>, s': State<E>, i: nat)
    requires Shaped(p, s) && i < |p.chunks| && ChunkInv(p, s, i) && s.queues[i].items != []
    requires s' == s.(queues := s.queues[i := TryGet(s.queues[i]).0], consumer := s'.consumer)
    ensures ChunkInv(p, s', i) && Taken(s', i) == Taken(s, i) + 1
  {
    CarriesTake(s.queues[i], p.chunks[i], Taken(s, i), s.produced[i]);
  }

  /** Taking from chunk queue `i`: the other queues are not touched. */
  lemma TakeEach<E>(p: Params<E>, s: State<E>, s': State<E>, i: nat)
    requires Shaped(p, s) && i < |p.chunks| && s.queues[i].items != [] && ChunksInv(p, s)
    requires s' == s.(queues := s.queues[i := TryGet(s.queues[i]).0], consumer := s'.consumer)
    ensures ChunksInv(p, s')
    ensures forall k :: 0 <= k < |p.chunks| ==> Taken(s', k) == Taken(s, k) + if k == i then 1 else 0
  {
    forall k | 0 <= k < |p.chunks| ensures ChunkInv(p, s', k) && Taken(s', k) == Taken(s, k) + if k == i then 1 else 0 {
      if k == i { TakeLocal(p, s, s', i); } else { ChunkFrame(p, s, s', k); }
    }
  }

  /** The stream's own part: the item it takes is the next event of chunk `i`, or its end. */
  lemma TakeChunkStream<E>(p: Params<E>, s: State<E>, s': State<E>, i: nat)
    requires Shaped(p, s) && Shaped(p, s') && StreamInv(p, s) && s.consumer == TakeChunk(i) && i < |p.chunks|
    requires CombineTaken(p, s') == CombineTaken(p, s) && s'.out == s.out
    requires forall k :: 0 <= k < |p.chunks| ==> Taken(s', k) == Taken(s, k) + if k == i then 1 else 0
    requires Taken(s, i) >= 0
    requires s'.consumer ==
             if Taken(s, i) == |p.chunks[i]| then TakeChunk(i + 1)
             else if p.onlyCombine then TakeChunk(i)
             else Delaying(i, p.chunks[i][Taken(s, i)])
    ensures StreamInv(p, s')
  {
    var events, n := p.chunks[i], Taken(s, i);
    if n < |events| {
      assert ChunksTaken(p, s', i);
    } else {
      assert events[..n] == events;
      assert ChunksTaken(p, s', i + 1);
      if i + 1 < |p.chunks| {
        assert DataOf(p.chunks[i + 1][..0]) == [];
      }
    }
  }

  /** What the stream does with the item it takes. */
  lemma TakeChunkItem<E>(p: Params<E>, s: State<E>, i: nat)
    requires Shaped(p, s) && s.consumer == TakeChunk(i) && i < |p.chunks|
             && ChunkInv(p, s, i) && s.queues[i].items != []
    ensures var s' := StreamStep(p, s);
            && s' == s.(queues := s.queues[i := TryGet(s.queues[i]).0], consumer := s'.consumer)
            && s'.consumer ==
                 if Taken(s, i) == |p.chunks[i]| then TakeChunk(i + 1)
                 else if p.onlyCombine then TakeChunk(i)
                 else Delaying(i, p.chunks[i][Taken(s, i)])
  {
    CarriesTake(s.queues[i], p.chunks[i], Taken(s, i), s.produced[i]);
  }

  /** An empty queue keeps the stream where it is. */
  lemma TakeChunkWaits<E>(p: Params<E>, s: State<E>, i: nat)
    requires Shaped(p, s) && s.consumer == TakeChunk(i) && i < |p.chunks|
             && ChunkInv(p, s, i) && s.queues[i].items == []
    ensures StreamStep(p, s) == s
  {
    assert s.queues[i := s.queues[i]] == s.queues;
  }

  lemma TakeChunkInv<E>(p: Params<E>, s: State<E>, i: nat)
    requires Inv(p, s) && s.consumer == TakeChunk(i) && i < |p.chunks|
    ensures Inv(p, StreamStep(p, s))
  {
    var s' := StreamStep(p, s);
    assert ChunkInv(p, s, i);
    if s.queues[i].items == [] {
      TakeChunkWaits(p, s, i);
    } else {
      TakeChunkItem(p, s, i);
      TakeEach(p, s, s', i);
      CombineFrame(p, s, s');
      TakeChunkStream(p, s, s', i);
    }
  }

  lemma SameTaken<E>(p: Params<E>, s: State<E>, s': State<E>, n: nat)
    requires Shaped(p, s) && Shaped(p, s') && ChunksTaken(p, s, n)
    requires forall k :: 0 <= k < |p.chunks| ==> Taken(s', k) == Taken(s, k)
    ensures ChunksTaken(p, s', n)
  {}

  lemma DelayingInv<E>(p: Params<E>, s: State<E>)
    requires Inv(p, s) && s.consumer.Delaying?
    ensures Inv(p, StreamStep(p, s))
  {
    var s' := StreamStep(p, s);
    var i := s.consumer.index;
    ChunksFrame(p, s, s');
    CombineFrame(p, s, s');
    SameTaken(p, s, s', i);
    DataOfSnoc(p.chunks[i], Taken(s, i) - 1);
  }

  /** Everything after the chunk queues that takes nothing from the combine queue. */
  lemma TailStream<E>(p: Params<E>, s: State<E>, s': State<E>)
    requires Shaped(p, s) && Shaped(p, s') && StreamInv(p, s) && s' == StreamStep(p, s)
    requires !s.consumer.Delaying? && s.consumer != TakeCombine
    requires s.consumer.TakeChunk? ==> s.consumer.index == |p.chunks|
    requires CombineTaken(p, s') == CombineTaken(p, s)
    requires ChunksTaken(p, s', |p.chunks|)
    ensures StreamInv(p, s')
  {
    assert DataOf(Head(Answer(p), 0)) == [];
  }

  lemma TailInv<E>(p: Params<E>, s: State<E>)
    requires Inv(p, s) && !s.consumer.Delaying? && s.consumer != TakeCombine
    requires s.consumer.TakeChunk? ==> s.consumer.index == |p.chunks|
    ensures Inv(p, StreamStep(p, s))
  {
    var s' := StreamStep(p, s);
    ChunksFrame(p, s, s');
    CombineFrame(p, s, s');
    SameTaken(p, s, s', |p.chunks|);
    TailStream(p, s, s');
  }

  lemma TakeCombineLocal<E>(p: Params<E>, s: State<E>)
    requires Shaped(p, s) && CombineInv(p, s) && s.consumer == TakeCombine && s.combineQueue.items != []
    ensures var s' := StreamStep(p, s); CombineInv(p, s') && CombineTaken(p, s') == CombineTaken(p, s) + 1
  {
    CarriesTake(s.combineQueue, Answer(p), CombineTaken(p, s), CombinePut(p, s));
  }

  lemma TakeCombineStream<E>(p: Params<E>, s: State<E>)
    requires Shaped(p, s) && CombineInv(p, s) && StreamInv(p, s)
             && s.consumer == TakeCombine && s.combineQueue.items != []
    requires CombineTaken(p, StreamStep(p, s)) == CombineTaken(p, s) + 1
    requires ChunksTaken(p, StreamStep(p, s), |p.chunks|)
    ensures StreamInv(p, StreamStep(p, s))
  {
    var events, c := Answer(p), CombineTaken(p, s);
    CarriesTake(s.combineQueue, events, c, CombinePut(p, s));
    if c < |events| {
      DataOfSnoc(events, c);
    } else {
      assert events[..|events|] == events;
    }
  }

  lemma TakeCombineInv<E>(p: Params<E>, s: State<E>)
    requires Inv(p, s) && s.consumer == TakeCombine
    ensures Inv(p, StreamStep(p, s))
  {
    var s' := StreamStep(p, s);
    if s.combineQueue.items == [] {
      assert s' == s;
    } else {
      ChunksFrame(p, s, s');
      SameTaken(p, s, s', |p.chunks|);
      TakeCombineLocal(p, s);
      TakeCombineStream(p, s);
    }
  }

  lemma StepInv<E>(p: Params<E>, s: State<E>, t: Task)
    requires Inv(p, s)
    ensures Inv(p, Step(p, s, t))
  {
    match t
    case Chunk(i) => ChunkStepInv(p, s, i);
    case Combine => CombineStepInv(p, s);
    case Monitor => MonitorStepInv(p, s);
    case Stream =>
      if s.consumer.TakeChunk? && s.consumer.index < |p.chunks| { TakeChunkInv(p, s, s.consumer.index); }
      else if s.consumer.Delaying? { DelayingInv(p, s); }
      else if s.consumer == TakeCombine { TakeCombineInv(p, s); }
      else { TailInv(p, s); }
  }

  lemma {:induction false} RunInv<E>(p: Params<E>, s: State<E>, ts: seq<Task>)
    requires Inv(p, s)
    ensures Inv(p, Run(p, s, ts))
    decreases |ts|
  {
    if ts != [] {
      StepInv(p, s, ts[0]);
      RunInv(p, Step(p, s, ts[0]), ts[1..]);
    }
  }

  // ---------------------------------------------------------------------------
  // The output of every run
  // ---------------------------------------------------------------------------

  lemma {:induction false} ChunkPartGrows<E>(p: Params<E>, i: nat, n: nat)
    requires i <= n <= |p.chunks|
    ensures ChunkPart(p, i) <= ChunkPart(p, n)
    decreases n - i
  {
    if i < n {
      ChunkPartGrows(p, i, n - 1);
    }
  }

  lemma ChunkOutputPrefix<E>(p: Params<E>, i: nat, n: int)
    requires i <= |p.chunks|
    ensures ChunkOutput(p, i, n) <= ChunkPart(p, |p.chunks|)
  {
    if i < |p.chunks| {
      ChunkPartGrows(p, i + 1, |p.chunks|);
      assert DataOf(Head(p.chunks[i], n)) <= DataOf(p.chunks[i]);
    }
  }

  lemma SentIsPrefix<E>(p: Params<E>, s: State<E>)
    requires Inv(p, s)
    ensures s.out <= Expected(p)
  {
    match s.consumer
    case TakeChunk(i) => ChunkOutputPrefix(p, i, if i < |p.chunks| then Taken(s, i) else 0);
    case Delaying(i, e) => ChunkOutputPrefix(p, i, Taken(s, i) - 1);
    case TakeCombine => assert DataOf(Head(Answer(p), CombineTaken(p, s))) <= DataOf(Answer(p));
    case _ =>
  }

  /** For every interleaving, what has been sent is a beginning of: the events of chunk 0, of chunk 1,
      and so on, the combined answer, [DONE]; once the stream has ended it is all of that.  The answer
      is the one to the join of all complete chunk texts. */
  lemma OutputIsPrefix<E>(p: Params<E>, ts: seq<Task>)
    ensures var s := Run(p, Init(p), ts);
            && s.out <= Expected(p)
            && (s.consumer == Ended ==> s.out == Expected(p))
            && (s.combiner.Combining? ==> s.combiner.prompt == Prompt(p))
  {
    InitInv(p);
    RunInv(p, Init(p), ts);
    SentIsPrefix(p, Run(p, Init(p), ts));
  }

  // ---------------------------------------------------------------------------
  // What the prompt is
  // ---------------------------------------------------------------------------

  /** Where text `i` starts when texts are written one after the other, two characters apart. */
  function Offset(texts: seq<string>, i: nat): nat
    requires i <= |texts|
  {
    if i == 0 then 0 else Offset(texts, i - 1) + |texts[i - 1]| + 2
  }

  /** `s` is the texts in order, a blank line between each and the next, and nothing else. */
  ghost predicate Separated(s: string, texts: seq<string>) {
    && (texts == [] ==> s == "")
    && (texts != [] ==> |s| + 2 == Offset(texts, |texts|))
    && (forall i :: 0 <= i < |texts| ==> TextAt(s, texts, i))
  }

  /** Text `i` stands at its place, and a blank line after it unless it is the last. */
  ghost predicate TextAt(s: string, texts: seq<string>, i: nat)
    requires i < |texts|
  {
    var from := Offset(texts, i);
    && from + |texts[i]| <= |s| && s[from..from + |texts[i]|] == texts[i]
    && (i < |texts| - 1 ==>
          from + |texts[i]| + 2 <= |s| && s[from + |texts[i]|..from + |texts[i]| + 2] == "\n\n")
  }

  lemma {:induction false} OffsetOfPrefix(texts: seq<string>, n: nat, i: nat)
    requires i <= n <= |texts|
    ensures Offset(texts[..n], i) == Offset(texts, i)
  {
    if i > 0 {
      OffsetOfPrefix(texts, n, i - 1);
    }
  }

  lemma {:induction false} OffsetsGrow(texts: seq<string>, i: nat, n: nat)
    requires i < n <= |texts|
    ensures Offset(texts, i) + |texts[i]| + 2 <= Offset(texts, n)
    decreases n
  {
    if i < n - 1 {
      OffsetsGrow(texts, i, n - 1);
    }
  }

  /** Adding text to the end leaves what stands before it in place. */
  lemma TextStays(s: string, t: string, texts: seq<string>, last: string, i: nat)
    requires i + 1 < |texts| && TextAt(s, texts, i)
    ensures TextAt(s + t, texts + [last], i)
  {
    OffsetOfPrefix(texts + [last], |texts|, i);
    assert (texts + [last])[..|texts|] == texts;
    var from, n := Offset(texts, i), |texts[i]|;
    assert (s + t)[from..from + n] == s[from..from + n];
    assert (s + t)[from + n..from + n + 2] == s[from + n..from + n + 2];
  }

  /** The text that was last now has a blank line behind it, and the new one follows. */
  lemma TextsJoined(s: string, texts: seq<string>, last: string)
    requires texts != [] && Separated(s, texts)
    ensures Separated(s + "\n\n" + last, texts + [last])
  {
    var all, m := texts + [last], |texts| - 1;
    var tail := "\n\n" + last;
    var r := s + tail;
    Assoc(s, "\n\n", last);
    assert all[..|texts|] == texts;
    OffsetOfPrefix(all, |texts|, m);
    OffsetOfPrefix(all, |texts|, |texts|);
    assert TextAt(s, texts, m);
    var from := Offset(texts, m);
    assert from + |texts[m]| == |s|;
    assert TextAt(r, all, m) by {
      assert r[from..|s|] == s[from..|s|];
      assert r[|s|..|s| + 2] == "\n\n";
    }
    assert TextAt(r, all, |texts|) by {
      assert Offset(all, |texts|) == |s| + 2;
      assert r[|s| + 2..] == last && r[|s| + 2..|s| + 2 + |last|] == r[|s| + 2..];
    }
    forall i | 0 <= i < m ensures TextAt(r, all, i) { TextStays(s, tail, texts, last, i); }
  }

  lemma {:induction false} JoinSeparates(texts: seq<string>)
    ensures Separated(Join(texts), texts)
  {
    if |texts| == 1 {
      assert Offset(texts, 1) == |texts[0]| + 2;
      assert texts[0][..|texts[0]|] == texts[0];
    } else if texts != [] {
      var n := |texts| - 1;
      JoinSeparates(texts[..n]);
      TextsJoined(Join(texts[..n]), texts[..n], texts[n]);
      assert texts[..n] + [texts[n]] == texts;
    }
  }

  /** No other string is the texts in order with blank lines between. */
  lemma SeparatedIsUnique(a: string, b: string, texts: seq<string>)
    requires Separated(a, texts) && Separated(b, texts)
    ensures a == b
  {
    if texts != [] {
      assert |a| == |b|;
      forall k | 0 <= k < |a| ensures a[k] == b[k] {
        var i := PlaceOf(texts, k, |texts|);
        var from, n := Offset(texts, i), |texts[i]|;
        assert TextAt(a, texts, i) && TextAt(b, texts, i);
        if k < from + n {
          assert a[k] == a[from..from + n][k - from] && b[k] == b[from..from + n][k - from];
        } else {
          assert a[k] == a[from + n..from + n + 2][k - from - n] && b[k] == b[from + n..from + n + 2][k - from - n];
        }
      }
    }
  }

  /** The text a position belongs to, its blank line included. */
  lemma {:induction false} PlaceOf(texts: seq<string>, k: nat, n: nat) returns (i: nat)
    requires n <= |texts| && k < Offset(texts, n)
    ensures i < n && Offset(texts, i) <= k < Offset(texts, i) + |texts[i]| + 2
  {
    if k < Offset(texts, n - 1) {
      i := PlaceOf(texts, k, n - 1);
    } else {
      i := n - 1;
    }
  }

  lemma TextsOne<E>(p: Params<E>, e: E)
    ensures Texts(p, [e]) == p.text(e)
  {
    assert [e][..0] == [];
    assert "" + p.text(e) == p.text(e);
  }

  /** The text of a response is the texts of its events one after the other. */
  lemma {:induction false} TextsConcat<E>(p: Params<E>, a: seq<E>, b: seq<E>)
    ensures Texts(p, a + b) == Texts(p, a) + Texts(p, b)
    decreases |b|
  {
    if b == [] {
      assert a + b == a;
    } else {
      var n := |b| - 1;
      TextsConcat(p, a, b[..n]);
      assert (a + b)[..|a| + n] == a + b[..n] && (a + b)[|a| + n] == b[n];
      Assoc(Texts(p, a), Texts(p, b[..n]), p.text(b[n]));
    }
  }

  /** In every run that asks for the combined answer, the question is the complete texts of all chunk
      responses in order, a blank line between each and the next: length and every position. */
  lemma PromptOfRun<E>(p: Params<E>, ts: seq<Task>)
    ensures var s := Run(p, Init(p), ts);
            s.combiner.Combining? ==>
              && Separated(s.combiner.prompt, CompleteTexts(p))
              && forall i :: 0 <= i < |p.chunks| ==> CompleteTexts(p)[i] == Texts(p, p.chunks[i])
  {
    OutputIsPrefix(p, ts);
    JoinSeparates(CompleteTexts(p));
  }

  /** When the stream has ended every task has: all responses have been read to their end. */
  lemma AllTasksFinished<E>(p: Params<E>, ts: seq<Task>)
    ensures var s := Run(p, Init(p), ts);
            s.consumer == Ended ==>
              && s.monitorDone && s.combiner == CombineEnded
              && forall i :: 0 <= i < |p.chunks| ==> s.produced[i] == |p.chunks[i]| + 1 && s.queues[i].items == []
  {
    InitInv(p);
    RunInv(p, Init(p), ts);
    var s := Run(p, Init(p), ts);
    if s.consumer == Ended {
      forall i | 0 <= i < |p.chunks| ensures s.produced[i] == |p.chunks[i]| + 1 && s.queues[i].items == [] {
        assert ChunkInv(p, s, i) && Taken(s, i) == |p.chunks[i]| + 1;
      }
    }
  }

  /** The flag that ends the delays is set exactly when the monitor has seen an event of the answer. */
  ghost predicate FlagIsRight<E>(p: Params<E>, s: State<E>) {
    s.combineStarted <==> s.monitorDone && Answer(p) != []
  }

  lemma FirstOfAnswer<E>(p: Params<E>, s: State<E>)
    requires Inv(p, s) && !s.monitorDone && s.combineQueue.items != []
    ensures s.combineQueue.items[0].Event? <==> Answer(p) != []
  {
    assert CombineTaken(p, s) == 0;
  }

  lemma FlagStep<E>(p: Params<E>, s: State<E>, t: Task)
    requires Shaped(p, s) && FlagIsRight(p, s)
    requires !s.monitorDone && s.combineQueue.items != [] ==> (s.combineQueue.items[0].Event? <==> Answer(p) != [])
    ensures FlagIsRight(p, Step(p, s, t))
  {}

  lemma {:induction false} StartedIff<E>(p: Params<E>, s: State<E>, ts: seq<Task>)
    requires Inv(p, s) && FlagIsRight(p, s)
    ensures FlagIsRight(p, Run(p, s, ts))
    decreases |ts|
  {
    if ts != [] {
      StepInv(p, s, ts[0]);
      assert !s.monitorDone && s.combineQueue.items != [] ==> (s.combineQueue.items[0].Event? <==> Answer(p) != []) by {
        if !s.monitorDone && s.combineQueue.items != [] { FirstOfAnswer(p, s); }
      }
      FlagStep(p, s, ts[0]);
      StartedIff(p, Step(p, s, ts[0]), ts[1..]);
    }
  }

  /** So over all runs. */
  lemma CombineStartedIff<E>(p: Params<E>, ts: seq<Task>)
    ensures FlagIsRight(p, Run(p, Init(p), ts))
  {
    InitInv(p);
    StartedIff(p, Init(p), ts);
  }

  // ---------------------------------------------------------------------------
  // Progress
  // ---------------------------------------------------------------------------

  lemma ChunkCanGoOn<E>(p: Params<E>, s: State<E>, i: nat)
    requires Shaped(p, s) && s.consumer == TakeChunk(i)
    requires i < |p.chunks| ==> ChunkInv(p, s, i) && Taken(s, i) <= |p.chunks[i]|
    ensures StreamStep(p, s) != s || (i < |p.chunks| && ChunkStep(p, s, i) != s)
  {
    if i < |p.chunks| {
      if s.queues[i].items == [] {
        assert ChunkStep(p, s, i).produced[i] == s.produced[i] + 1;
      } else {
        assert |StreamStep(p, s).queues[i].items| < |s.queues[i].items|;
      }
    }
  }

  /** Some task can always go on until the stream has ended. */
  lemma SomeTaskCanGoOn<E>(p: Params<E>, s: State<E>) returns (t: Task)
    requires Inv(p, s) && s.consumer != Ended
    ensures Step(p, s, t) != s
  {
    match s.consumer
    case TakeChunk(i) =>
      if i < |p.chunks| { assert ChunkInv(p, s, i); }
      ChunkCanGoOn(p, s, i);
      t := if StreamStep(p, s) != s then Stream else Chunk(i);
    case AwaitMonitor =>
      if s.monitorDone {
        t := Stream;
      } else if s.combineQueue.items != [] {
        t := Monitor;
        MonitorKeepsQueue(p, s);
      } else {
        t := Combine;
        CombinerCanGoOn(p, s);
      }
    case TakeCombine =>
      if s.combineQueue.items != [] {
        t := Stream;
        assert |StreamStep(p, s).combineQueue.items| < |s.combineQueue.items|;
      } else {
        t := Combine;
        CombinerCanGoOn(p, s);
      }
    case Gather =>
      t := Stream;
      assert s.combiner == CombineEnded;
      forall i | 0 <= i < |p.chunks| ensures s.produced[i] > |p.chunks[i]| { assert ChunkInv(p, s, i); }
    case _ =>
      t := Stream;
  }

  /** Once all chunk queues are used up only the combiner's own end can stop it. */
  lemma CombinerCanGoOn<E>(p: Params<E>, s: State<E>)
    requires Inv(p, s) && ChunksTaken(p, s, |p.chunks|) && s.combiner != CombineEnded
    ensures CombineStep(p, s) != s
  {
    match s.combiner
    case AwaitDone(k) =>
      if k < |p.chunks| {
        assert ChunkInv(p, s, k);
        assert s.dones[k] == Queue([()], true);
        assert CombineStep(p, s).combiner == AwaitDone(k + 1);
      }
    case _ =>
  }

  function Weight<E>(p: Params<E>, s: State<E>, i: nat): int
    requires Shaped(p, s) && i < |p.chunks|
  {
    4 * (|p.chunks[i]| + 1 - s.produced[i]) + 3 * |s.queues[i].items|
  }

  function TotalWeight<E>(p: Params<E>, s: State<E>, n: nat): int
    requires Shaped(p, s) && n <= |p.chunks|
  {
    if n == 0 then 0 else TotalWeight(p, s, n - 1) + Weight(p, s, n - 1)
  }

  function CombineLeft<E>(p: Params<E>, s: State<E>): int {
    match s.combiner
    case Warmup => |p.chunks| + |Answer(p)| + 3
    case AwaitDone(k) => |p.chunks| - k + |Answer(p)| + 2
    case Combining(_, j) => |Answer(p)| + 1 - j
    case CombineEnded => 0
  }

  function Rank<E>(c: Consumer<E>): nat {
    match c
    case Delaying(_, _) => 6
    case TakeChunk(_) => 5
    case AwaitMonitor => 4
    case TakeCombine => 3
    case SendDone => 2
    case Gather => 1
    case Ended => 0
  }

  /** Work left: everything still to be put, taken and sent. */
  function Measure<E>(p: Params<E>, s: State<E>): int
    requires Shaped(p, s)
  {
    TotalWeight(p, s, |p.chunks|) + 4 * CombineLeft(p, s) + 3 * |s.combineQueue.items|
    + (if s.monitorDone then 0 else 1) + Rank(s.consumer)
  }

  lemma {:induction false} WeightChange<E>(p: Params<E>, s: State<E>, s': State<E>, i: nat, n: nat, d: int)
    requires Shaped(p, s) && Shaped(p, s') && i < |p.chunks| && n <= |p.chunks|
    requires forall k :: 0 <= k < |p.chunks| ==> Weight(p, s', k) == Weight(p, s, k) + if k == i then d else 0
    ensures TotalWeight(p, s', n) == TotalWeight(p, s, n) + if i < n then d else 0
  {
    if n > 0 {
      WeightChange(p, s, s', i, n - 1, d);
    }
  }

  lemma {:induction false} WeightFrame<E>(p: Params<E>, s: State<E>, s': State<E>, n: nat)
    requires Shaped(p, s) && Shaped(p, s') && n <= |p.chunks|
    requires s'.queues == s.queues && s'.produced == s.produced
    ensures TotalWeight(p, s', n) == TotalWeight(p, s, n)
  {
    if n > 0 {
      WeightFrame(p, s, s', n - 1);
    }
  }

  lemma {:induction false} WeightNotNegative<E>(p: Params<E>, s: State<E>, n: nat)
    requires Shaped(p, s) && ChunksInv(p, s) && n <= |p.chunks|
    ensures TotalWeight(p, s, n) >= 0
  {
    if n > 0 {
      assert ChunkInv(p, s, n - 1);
      WeightNotNegative(p, s, n - 1);
    }
  }

  lemma MeasureNotNegative<E>(p: Params<E>, s: State<E>)
    requires Inv(p, s)
    ensures Measure(p, s) >= 0
  {
    WeightNotNegative(p, s, |p.chunks|);
  }

  lemma ChunkStepDecreases<E>(p: Params<E>, s: State<E>, i: nat)
    requires Shaped(p, s) && i < |p.chunks| && s.produced[i] <= |p.chunks[i]|
    ensures Measure(p, ChunkStep(p, s, i)) == Measure(p, s) - 1
  {
    var s' := ChunkStep(p, s, i);
    assert |s'.queues[i].items| == |s.queues[i].items| + 1 && s'.produced[i] == s.produced[i] + 1;
    WeightChange(p, s, s', i, |p.chunks|, -1);
  }

  lemma CombineStepDecreases<E>(p: Params<E>, s: State<E>)
    requires Shaped(p, s) && (forall k :: 0 <= k < |p.chunks| ==> s.dones[k].Valid())
    requires s.combiner.Combining? ==> s.combiner.prompt == Prompt(p) && s.combiner.sent <= |Answer(p)|
    requires s.combiner.AwaitDone? && s.combiner.index == |p.chunks| ==> Join(s.buffers) == Prompt(p)
    requires CombinerAt(p, s) <= |p.chunks|
    ensures CombineStep(p, s) == s || Measure(p, CombineStep(p, s)) < Measure(p, s)
  {
    var s' := CombineStep(p, s);
    WeightFrame(p, s, s', |p.chunks|);
    if s.combiner.AwaitDone? && s.combiner.index < |p.chunks| {
      if s.dones[s.combiner.index].items == [] {
        assert s'.dones == s.dones;
      }
    }
  }

  lemma MonitorStepDecreases<E>(p: Params<E>, s: State<E>)
    requires Inv(p, s)
    ensures MonitorStep(s) == s || Measure(p, MonitorStep(s)) < Measure(p, s)
  {
    MonitorKeepsQueue(p, s);
    WeightFrame(p, s, MonitorStep(s), |p.chunks|);
  }

  lemma TakeDecreases<E>(p: Params<E>, s: State<E>, i: nat)
    requires Shaped(p, s) && s.consumer == TakeChunk(i) && i < |p.chunks| && s.queues[i].Valid()
    ensures StreamStep(p, s) == s || Measure(p, StreamStep(p, s)) < Measure(p, s)
  {
    var s' := StreamStep(p, s);
    if s.queues[i].items == [] {
      assert s'.queues == s.queues;
    } else {
      assert |s'.queues[i].items| == |s.queues[i].items| - 1 && s'.produced == s.produced;
      WeightChange(p, s, s', i, |p.chunks|, -3);
      assert CombineLeft(p, s') == CombineLeft(p, s) && Rank(s'.consumer) <= Rank(s.consumer) + 1;
    }
  }

  lemma TakeCombineDecreases<E>(p: Params<E>, s: State<E>)
    requires Shaped(p, s) && s.combineQueue.Valid() && s.consumer == TakeCombine
    ensures StreamStep(p, s) == s || Measure(p, StreamStep(p, s)) < Measure(p, s)
  {
    var s' := StreamStep(p, s);
    WeightFrame(p, s, s', |p.chunks|);
    if s.combineQueue.items != [] {
      assert |s'.combineQueue.items| == |s.combineQueue.items| - 1;
    }
  }

  lemma StreamStepDecreases<E>(p: Params<E>, s: State<E>)
    requires Shaped(p, s) && s.consumer != TakeCombine
    requires s.consumer.TakeChunk? ==> s.consumer.index >= |p.chunks|
    ensures StreamStep(p, s) == s || Measure(p, StreamStep(p, s)) < Measure(p, s)
  {
    var s' := StreamStep(p, s);
    WeightFrame(p, s, s', |p.chunks|);
    assert s'.combineQueue == s.combineQueue && s'.combiner == s.combiner && s'.monitorDone == s.monitorDone;
  }

  lemma StepDecreases<E>(p: Params<E>, s: State<E>, t: Task)
    requires Inv(p, s)
    ensures Step(p, s, t) == s || Measure(p, Step(p, s, t)) < Measure(p, s)
  {
    match t
    case Chunk(i) => if i < |p.chunks| && s.produced[i] <= |p.chunks[i]| { ChunkStepDecreases(p, s, i); }
    case Combine =>
      forall k | 0 <= k < |p.chunks| ensures s.dones[k].Valid() { assert ChunkInv(p, s, k); }
      if CombinerAt(p, s) == |p.chunks| { PromptIsJoin(p, s); }
      CombineStepDecreases(p, s);
    case Monitor => MonitorStepDecreases(p, s);
    case Stream =>
      if s.consumer.TakeChunk? && s.consumer.index < |p.chunks| {
        assert ChunkInv(p, s, s.consumer.index);
        TakeDecreases(p, s, s.consumer.index);
      } else if s.consumer == TakeCombine {
        TakeCombineDecreases(p, s);
      } else {
        StreamStepDecreases(p, s);
      }
  }

  /** How many steps of a schedule change anything. */
  function Effective<E(==)>(p: Params<E>, s: State<E>, ts: seq<Task>): nat
    requires Shaped(p, s)
    decreases |ts|
  {
    if ts == [] then 0
    else (if Step(p, s, ts[0]) == s then 0 else 1) + Effective(p, Step(p, s, ts[0]), ts[1..])
  }

  /** No schedule, however long, changes anything more often than there is work to begin with: the
      tasks cannot go round in circles. */
  lemma {:induction false} BoundedWork<E>(p: Params<E>, s: State<E>, ts: seq<Task>)
    requires Inv(p, s)
    ensures Effective(p, s, ts) <= Measure(p, s)
    decreases |ts|
  {
    if ts == [] {
      MeasureNotNegative(p, s);
    } else {
      StepInv(p, s, ts[0]);
      StepDecreases(p, s, ts[0]);
      BoundedWork(p, Step(p, s, ts[0]), ts[1..]);
    }
  }

  /** No deadlock: a run that no task can continue has delivered everything, in order, and every run
      can be continued to such an end. */
  lemma StuckMeansDelivered<E>(p: Params<E>, ts: seq<Task>)
    requires var s := Run(p, Init(p), ts); forall t :: Step(p, s, t) == s
    ensures Run(p, Init(p), ts).consumer == Ended && Run(p, Init(p), ts).out == Expected(p)
  {
    InitInv(p);
    RunInv(p, Init(p), ts);
    if Run(p, Init(p), ts).consumer != Ended {
      var t := SomeTaskCanGoOn(p, Run(p, Init(p), ts));
    }
  }

  lemma {:induction false} CanBeCompleted<E>(p: Params<E>, s: State<E>) returns (ts: seq<Task>)
    requires Inv(p, s)
    ensures Run(p, s, ts).consumer == Ended && Run(p, s, ts).out == Expected(p)
    decreases Measure(p, s)
  {
    if s.consumer == Ended {
      ts := [];
    } else {
      var t := SomeTaskCanGoOn(p, s);
      StepInv(p, s, t);
      StepDecreases(p, s, t);
      MeasureNotNegative(p, Step(p, s, t));
      var us := CanBeCompleted(p, Step(p, s, t));
      ts := [t] + us;
      assert ts[1..] == us;
    }
  }

  // ---------------------------------------------------------------------------
  // The collector object
  // ---------------------------------------------------------------------------

  ghost predicate Reachable<E>(p: Params<E>, s: State<E>) {
    exists ts: seq<Task> :: Run(p, Init(p), ts) == s
  }

  lemma InitReachable<E>(p: Params<E>)
    ensures Reachable(p, Init(p))
  {
    assert Run(p, Init(p), []) == Init(p);
  }

  lemma {:induction false} RunOneMore<E>(p: Params<E>, s: State<E>, ts: seq<Task>, t: Task)
    requires Shaped(p, s)
    ensures Run(p, s, ts + [t]) == Step(p, Run(p, s, ts), t)
    decreases |ts|
  {
    if ts == [] {
      assert ts + [t] == [t] && [t][1..] == [];
      assert Run(p, Step(p, s, t), []) == Step(p, s, t);
    } else {
      RunOneMore(p, Step(p, s, ts[0]), ts[1..], t);
      assert (ts + [t])[0] == ts[0] && (ts + [t])[1..] == ts[1..] + [t];
    }
  }

  lemma ReachStep<E>(p: Params<E>, s: State<E>, t: Task)
    requires Shaped(p, s) && Reachable(p, s)
    ensures Reachable(p, Step(p, s, t))
  {
    var ts :| Run(p, Init(p), ts) == s;
    RunOneMore(p, Init(p), ts, t);
  }

  lemma ReachableInv<E>(p: Params<E>, s: State<E>)
    requires Shaped(p, s) && Reachable(p, s)
    ensures Inv(p, s)
  {
    var ts :| Run(p, Init(p), ts) == s;
    InitInv(p);
    RunInv(p, Init(p), ts);
  }

  lemma BufferIsText<E>(p: Params<E>, s: State<E>, i: nat)
    requires Shaped(p, s) && Reachable(p, s) && i < |p.chunks|
    ensures s.buffers[i] == Texts(p, Head(p.chunks[i], s.produced[i]))
    ensures s.dones[i].items != [] ==> s.buffers[i] == Texts(p, p.chunks[i])
  {
    ReachableInv(p, s);
    assert ChunkInv(p, s, i);
    assert p.chunks[i][..|p.chunks[i]|] == p.chunks[i];
  }

  lemma PromptIsRight<E>(p: Params<E>, s: State<E>)
    requires Shaped(p, s) && Reachable(p, s)
    ensures s.combiner.Combining? ==> s.combiner.prompt == Prompt(p)
  {
    ReachableInv(p, s);
  }

  lemma ReachableMonitor<E>(p: Params<E>, s: State<E>)
    requires Shaped(p, s) && Reachable(p, s)
    ensures MonitorStep(s).combineQueue == s.combineQueue
    ensures MonitorStep(s).monitorDone <==> s.monitorDone || s.combineQueue.items != []
  {
    ReachableInv(p, s);
    MonitorKeepsQueue(p, s);
  }

  lemma OutputGrows<E>(p: Params<E>, s: State<E>)
    requires Shaped(p, s)
    ensures s.out <= StreamStep(p, s).out
  {}

  lemma ReachableOutput<E>(p: Params<E>, s: State<E>)
    requires Shaped(p, s) && Reachable(p, s)
    ensures s.out <= Expected(p) && (s.consumer == Ended ==> s.out == Expected(p))
  {
    var ts :| Run(p, Init(p), ts) == s;
    OutputIsPrefix(p, ts);
  }

  lemma StreamStepSends<E>(p: Params<E>, s: State<E>)
    requires Shaped(p, s) && Reachable(p, s)
    ensures var s' := StreamStep(p, s);
            && Reachable(p, s') && s.out <= s'.out <= Expected(p)
            && (s'.consumer == Ended ==> s'.out == Expected(p))
  {
    ReachStep(p, s, Stream);
    OutputGrows(p, s);
    assert Shaped(p, Step(p, s, Stream));
    ReachableOutput(p, StreamStep(p, s));
  }

  lemma ReachableDecreases<E>(p: Params<E>, s: State<E>, t: Task)
    requires Shaped(p, s) && Reachable(p, s)
    ensures Step(p, s, t) == s || Measure(p, Step(p, s, t)) < Measure(p, s)
  {
    ReachableInv(p, s);
    StepDecreases(p, s, t);
  }

  lemma ReachableCanGoOn<E>(p: Params<E>, s: State<E>) returns (t: Task)
    requires Shaped(p, s) && Reachable(p, s) && s.consumer != Ended
    ensures Step(p, s, t) != s && (t.Chunk? ==> t.index < |p.chunks|)
  {
    ReachableInv(p, s);
    t := SomeTaskCanGoOn(p, s);
  }

  lemma ReachableMeasure<E>(p: Params<E>, s: State<E>)
    requires Shaped(p, s) && Reachable(p, s)
    ensures Measure(p, s) >= 0
  {
    ReachableInv(p, s);
    MeasureNotNegative(p, s);
  }

  class Collector<E> {
    const p: Params<E>
    var queues: seq<Queue<Item<E>>>
    var buffers: seq<string>
    var dones: seq<Queue<()>>
    var produced: seq<nat>                // where each chunk response stands
    var combineQueue: Queue<Item<E>>
    var combineStarted: bool
    var combiner: Combiner
    var monitorDone: bool
    var consumer: Consumer<E>
    var out: seq<Output<E>>

    ghost function Abs(): State<E>
      reads this
    {
      State(queues, buffers, dones, produced, combineQueue, combineStarted, combiner, monitorDone, consumer, out)
    }

    /** The object is in a state that some run reaches. */
    ghost predicate Valid()
      reads this
    {
      Shaped(p, Abs()) && Reachable(p, Abs())
    }

    /** `__init__` and `_initialize_collectors`. */
    constructor (p: Params<E>)
      ensures this.p == p && Abs() == Init(p) && Valid()
    {
      this.p := p;
      combineQueue, combineStarted, combiner, monitorDone := Empty(), false, Warmup, false;
      consumer, out := TakeChunk(0), [];
      queues, buffers, dones, produced := [], [], [], [];
      new;
      for i := 0 to |p.chunks|
        invariant |queues| == |buffers| == |dones| == |produced| == i
        invariant forall k :: 0 <= k < i ==>
                  queues[k] == Empty() && buffers[k] == "" && dones[k] == Empty() && produced[k] == 0
        invariant combineQueue == Empty() && !combineStarted && combiner == Warmup && !monitorDone
        invariant consumer == TakeChunk(0) && out == []
      {
        queues := queues + [Empty()];
        dones := dones + [Empty()];
        buffers := buffers + [""];
        produced := produced + [0];
      }
      assert Abs() == Init(p);
      InitReachable(p);
    }

    /** `_collect_single_chunk`.  Once the task reports that it is done, its buffer holds the whole text
        of its response. */
    method CollectSingleChunk(i: nat)
      requires Valid() && i < |p.chunks|
      modifies this
      ensures Valid() && Abs() == ChunkStep(p, old(Abs()), i)
      ensures buffers[i] == Texts(p, Head(p.chunks[i], produced[i])) && old(produced[i]) <= produced[i]
      ensures dones[i].items != [] ==> buffers[i] == Texts(p, p.chunks[i])
      ensures out == old(out)
    {
      ReachStep(p, Abs(), Chunk(i));
      BufferIsText(p, ChunkStep(p, Abs(), i), i);
      Collect(i);
    }

    method Collect(i: nat)
      requires Shaped(p, Abs()) && i < |p.chunks|
      modifies this
      ensures Abs() == ChunkStep(p, old(Abs()), i)
    {
      if produced[i] < |p.chunks[i]| {
        var event := p.chunks[i][produced[i]];
        buffers := buffers[i := buffers[i] + p.text(event)];
        queues := queues[i := Appended(queues[i], Event(event))];
        produced := produced[i := produced[i] + 1];
      } else if produced[i] == |p.chunks[i]| {
        queues := queues[i := Appended(queues[i], End)];
        dones := dones[i := Appended(dones[i], ())];
        produced := produced[i := produced[i] + 1];
      }
    }

    /** `_combine_results`.  The prompt it asks with is the join of all complete chunk texts. */
    method CombineResults()
      requires Valid()
      modifies this
      ensures Valid() && Abs() == CombineStep(p, old(Abs()))
      ensures combiner.Combining? ==> combiner.prompt == Prompt(p) && Separated(combiner.prompt, CompleteTexts(p))
      ensures out == old(out)
    {
      ReachStep(p, Abs(), Combine);
      PromptIsRight(p, CombineStep(p, Abs()));
      JoinSeparates(CompleteTexts(p));
      CombineNext();
    }

    method CombineNext()
      requires Shaped(p, Abs())
      modifies this
      ensures Abs() == CombineStep(p, old(Abs()))
    {
      match combiner {
        case Warmup =>
          combiner := AwaitDone(0);
        case AwaitDone(k) =>
          if k < |dones| {
            var (q, x) := TryGet<()>(dones[k]);
            dones := dones[k := q];
            if x.Some? {
              combiner := AwaitDone(k + 1);
            }
          } else {
            combiner := Combining(Join(buffers), 0);
          }
        case Combining(prompt, j) =>
          var events := p.combine(prompt);
          if j < |events| {
            combineQueue := Appended(combineQueue, Event(events[j]));
            combiner := Combining(prompt, j + 1);
          } else {
            combineQueue := Appended(combineQueue, End);
            combiner := CombineEnded;
          }
        case CombineEnded =>
      }
    }

    /** `_monitor_combine_start`.  It never changes what the client will take from the combine queue. */
    method MonitorCombineStart()
      requires Valid()
      modifies this
      ensures Valid() && Abs() == MonitorStep(old(Abs()))
      ensures combineQueue == old(combineQueue)
      ensures monitorDone <==> old(monitorDone) || combineQueue.items != []
    {
      ReachStep(p, Abs(), Monitor);
      ReachableMonitor(p, Abs());
      if monitorDone {
        return;
      }
      var (q, x) := TryGet<Item<E>>(combineQueue);
      combineQueue := q;
      if x.Some? {
        if x.value.Event? {
          combineStarted := true;
          combineQueue := Prepended(combineQueue, x.value);
        } else {
          combineQueue := Appended(combineQueue, End);
        }
        monitorDone := true;
      }
    }

    /** `_stream_chunk_results` */
    method StreamChunkResults()
      requires Valid() && (consumer.TakeChunk? || consumer.Delaying?)
      modifies this
      ensures Valid() && Abs() == StreamStep(p, old(Abs()))
      ensures old(out) <= out <= Expected(p)
    {
      StreamStepSends(p, Abs());
      StreamNextChunkItem();
    }

    method StreamNextChunkItem()
      requires Shaped(p, Abs()) && (consumer.TakeChunk? || consumer.Delaying?)
      modifies this
      ensures Abs() == StreamStep(p, old(Abs()))
    {
      if consumer.Delaying? {
        out := out + [Data(consumer.event)];
        consumer := TakeChunk(consumer.index);
        return;
      }
      var i := consumer.index;
      if i >= |queues| {
        consumer := AwaitMonitor;
        return;
      }
      var (q, x) := TryGet<Item<E>>(queues[i]);
      queues := queues[i := q];
      if x.Some? && x.value.End? {
        consumer := TakeChunk(i + 1);
      } else if x.Some? && !p.onlyCombine {
        consumer := Delaying(i, x.value.event);
      }
    }

    /** `_stream_combine_results` */
    method StreamCombineResults()
      requires Valid() && consumer == TakeCombine
      modifies this
      ensures Valid() && Abs() == StreamStep(p, old(Abs()))
      ensures old(out) <= out <= Expected(p)
    {
      StreamStepSends(p, Abs());
      var (q, x) := TryGet<Item<E>>(combineQueue);
      combineQueue := q;
      if x.Some? {
        if x.value.End? {
          consumer := SendDone;
        } else {
          out := out + [Data(x.value.event)];
        }
      }
    }

    /** `collect_and_stream`, with the two generators it drives: what the client has received only ever
        grows towards the expected output, and is all of it at the end. */
    method CollectAndStream()
      requires Valid()
      modifies this
      ensures Valid() && Abs() == StreamStep(p, old(Abs()))
      ensures old(out) <= out <= Expected(p)
      ensures consumer == Ended ==> out == Expected(p)
    {
      StreamStepSends(p, Abs());
      if consumer.TakeChunk? || consumer.Delaying? {
        StreamChunkResults();
      } else if consumer == TakeCombine {
        StreamCombineResults();
      } else if consumer == AwaitMonitor {
        if monitorDone {
          consumer := TakeCombine;
        }
      } else if consumer == SendDone {
        out := out + [DoneMark];
        consumer := Gather;
      } else if consumer == Gather {
        if combiner == CombineEnded && forall i :: 0 <= i < |p.chunks| ==> produced[i] > |p.chunks[i]| {
          consumer := Ended;
        }
      }
    }

    /** One turn of the event loop for task `t`. */
    method Turn(t: Task)
      requires Valid()
      modifies this
      ensures Valid() && Abs() == Step(p, old(Abs()), t)
      ensures Abs() == old(Abs()) || Measure(p, Abs()) < Measure(p, old(Abs()))
    {
      ReachableDecreases(p, Abs(), t);
      match t
      case Chunk(i) => if i < |p.chunks| { CollectSingleChunk(i); }
      case Combine => CombineResults();
      case Monitor => MonitorCombineStart();
      case Stream => CollectAndStream();
    }

    /** One turn for every task.  Before the end some task gets on with its work. */
    method Round()
      requires Valid() && consumer != Ended
      modifies this
      ensures Valid() && Measure(p, Abs()) < Measure(p, old(Abs()))
    {
      ghost var s := Abs();
      ghost var able := ReachableCanGoOn(p, s);
      for i := 0 to |p.chunks|
        invariant Valid() && WorkDone(p, s, Abs(), able.Chunk? && able.index < i)
      {
        Turn(Chunk(i));
      }
      Turn(Combine);
      Turn(Monitor);
      Turn(Stream);
    }
  }

  /** Since state `s` some work has been done, or nothing has changed and the task that could go on
      has not had its turn yet. */
  ghost predicate WorkDone<E>(p: Params<E>, s: State<E>, now: State<E>, turn: bool)
    requires Shaped(p, s) && Shaped(p, now)
  {
    Measure(p, now) < Measure(p, s) || (now == s && !turn)
  }

  /** Any schedule: the collector object goes through the run the theorems are about. */
  method RunSchedule<E>(p: Params<E>, ts: seq<Task>) returns (c: Collector<E>)
    ensures fresh(c) && c.p == p && c.Abs() == Run(p, Init(p), ts)
    ensures c.out <= Expected(p) && (c.consumer == Ended ==> c.out == Expected(p))
  {
    c := new Collector(p);
    for n := 0 to |ts|
      invariant fresh(c) && c.p == p && c.Valid()
      invariant Run(p, c.Abs(), ts[n..]) == Run(p, Init(p), ts)
    {
      assert ts[n..][1..] == ts[n + 1..];
      c.Turn(ts[n]);
    }
    assert ts[|ts|..] == [];
    ReachableOutput(p, c.Abs());
  }

  /** The event loop itself, task after task: it comes to an end, and the client has received all
      chunk events in order, the combined answer and [DONE]. */
  method Deliver<E>(p: Params<E>) returns (out: seq<Output<E>>)
    ensures out == Expected(p)
  {
    var c := new Collector(p);
    while c.consumer != Ended
      invariant fresh(c) && c.p == p && c.Valid()
      decreases Measure(p, c.Abs())
    {
      ReachableMeasure(p, c.Abs());
      c.Round();
      ReachableMeasure(p, c.Abs());
    }
    ReachableOutput(p, c.Abs());
    out := c.out;
  }
}
