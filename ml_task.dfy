/** The inference task: per captured audio block, tick the envelope, then
    for every sample condition it, enqueue it, track it, poll the engine
    once, and feed any completed frame's arg-max to the debounce machine,
    publishing confirmed labels. Any fault halts the task for good. */
module MlTask {
  import opened Wrappers
  import opened Conditioning
  import opened Reduction
  import opened Debounce
  import opened Envelope
  import opened Publisher
  import opened InferenceEngine

  /** Where a fatal fault came from. */
  datatype FaultCause = AudioReadFault | EnqueueFault | DequeueFault

  /** Running, or stopped for good by a fault. */
  datatype Status = Running | Halted(cause: FaultCause)

  /** What stays fixed while the task runs: the background set, the label
      texts, the publisher queue's capacity and the engine's replies. */
  datatype Config = Config(background: set<int>, labelText: seq<string>, capacity: nat,
                           enqueueReply: seq<real> -> bool, dequeueReply: seq<real> -> DequeueReply)

  /** Every frame the engine can produce has one score per label text. */
  ghost predicate WellFormed(cfg: Config)
  {
    forall h :: cfg.dequeueReply(h).Frame? ==> |cfg.dequeueReply(h).scores| == |cfg.labelText|
  }

  /** Everything the task's steps change, together: debounce and envelope
      state, status, the samples the engine received, and (as history) the
      observations, the published events and the publisher queue. */
  datatype World = World(debounce: DebounceState, envelope: EnvelopeState, status: Status,
                         fed: seq<real>, observations: seq<Observation>, events: seq<nat>,
                         queue: seq<PublisherData>)

  /** The debounce state and the events are those of the machine run from
      its initial state over every observation so far. */
  ghost predicate Consistent(background: set<int>, st: DebounceState, obs: seq<Observation>, events: seq<nat>)
  {
    st == Run(Initial, obs).final && events == Events(Run(Initial, obs).confirms, background)
  }

  /** The message published for a confirmed label. */
  function Message(labelText: seq<string>, index: nat): PublisherData
    requires index < |labelText|
  {
    PublisherData(PublishMqttMsg, labelText[index])
  }

  /** One completed frame's observation: step the debounce machine and, on a
      confirmation outside the background set, record the event and offer
      its message to the queue. */
  function ObserveFrame(cfg: Config, w: World, o: Observation): World
    requires Accepted(o) ==> o.labelIndex < |cfg.labelText|
  {
    var r := Step(w.debounce, o);
    var w1 := w.(debounce := r.next, observations := w.observations + [o]);
    if r.confirmation.None? || r.confirmation.value in cfg.background then w1
    else w1.(events := w.events + [r.confirmation.value],
             queue := Offer(w.queue, cfg.capacity, Message(cfg.labelText, r.confirmation.value)))
  }

  /** One sample: enqueue it (a refusal halts), track it, poll once (an
      error halts, a frame is observed). */
  function SampleStep(cfg: Config, w: World, raw: int16): World
    requires WellFormed(cfg)
  {
    var x := Condition(raw);
    var fed := w.fed + [x];
    if !cfg.enqueueReply(fed) then w.(fed := fed, status := Halted(EnqueueFault))
    else
      var w1 := w.(fed := fed, envelope := Track(w.envelope, x));
      match cfg.dequeueReply(fed)
      case Frame(s) =>
        ScanInRange(s);
        ObserveFrame(cfg, w1, Scan(s))
      case NoData => w1
      case Error => w1.(status := Halted(DequeueFault))
  }

  /** The samples of a block in order, stopping at the first fault. */
  function Feed(cfg: Config, w: World, raws: seq<int16>): World
    requires WellFormed(cfg)
    decreases |raws|
  {
    if raws == [] || w.status.Halted? then w
    else Feed(cfg, SampleStep(cfg, w, raws[0]), raws[1..])
  }

  /** One iteration of the task's loop over a block the audio driver
      delivered (readOk is the driver's status). */
  function BlockModel(cfg: Config, w: World, raws: seq<int16>, readOk: bool): World
    requires WellFormed(cfg)
  {
    if w.status.Halted? then w
    else if !readOk then w.(status := Halted(AudioReadFault))
    else Feed(cfg, w.(envelope := Tick(w.envelope)), raws)
  }

  // ---------------------------------------------------------------------
  // Properties of the block model

  /** One more observation keeps the task consistent with the machine: the
      debounce state takes one step and the event list grows by the step's
      confirmation when it is not a background label. */
  lemma ConsistentStep(background: set<int>, st: DebounceState, obs: seq<Observation>, events: seq<nat>, o: Observation)
    requires Consistent(background, st, obs, events)
    ensures var r := Step(st, o);
            var published := r.confirmation.Some? && r.confirmation.value !in background;
            Consistent(background, r.next, obs + [o], events + (if published then [o.labelIndex] else []))
  {
    RunSnoc(Initial, obs, o);
    var c := Run(Initial, obs).confirms;
    EventsSnoc(c, o.labelIndex, background);
    assert c + [] == c;
  }

  lemma ObserveFrameConsistent(cfg: Config, w: World, o: Observation)
    requires Accepted(o) ==> o.labelIndex < |cfg.labelText|
    requires Consistent(cfg.background, w.debounce, w.observations, w.events)
    ensures var r := ObserveFrame(cfg, w, o);
            Consistent(cfg.background, r.debounce, r.observations, r.events)
  {
    ConsistentStep(cfg.background, w.debounce, w.observations, w.events, o);
    assert w.events + [] == w.events;
  }

  /** Every block keeps the task's debounce state and its events equal to
      those of the debounce machine run over all observations so far. */
  lemma {:induction false} FeedConsistent(cfg: Config, w: World, raws: seq<int16>)
    requires WellFormed(cfg)
    requires Consistent(cfg.background, w.debounce, w.observations, w.events)
    ensures var r := Feed(cfg, w, raws);
            Consistent(cfg.background, r.debounce, r.observations, r.events)
    decreases |raws|
  {
    if raws != [] && w.status.Running? {
      var x := Condition(raws[0]);
      var fed := w.fed + [x];
      if cfg.enqueueReply(fed) {
        var w1 := w.(fed := fed, envelope := Track(w.envelope, x));
        match cfg.dequeueReply(fed)
        case Frame(s) =>
          ScanInRange(s);
          ObserveFrameConsistent(cfg, w1, Scan(s));
        case NoData =>
        case Error =>
      }
      FeedConsistent(cfg, SampleStep(cfg, w, raws[0]), raws[1..]);
    }
  }

  lemma BlockConsistent(cfg: Config, w: World, raws: seq<int16>, readOk: bool)
    requires WellFormed(cfg)
    requires Consistent(cfg.background, w.debounce, w.observations, w.events)
    ensures var r := BlockModel(cfg, w, raws, readOk);
            Consistent(cfg.background, r.debounce, r.observations, r.events)
  {
    if w.status.Running? && readOk {
      FeedConsistent(cfg, w.(envelope := Tick(w.envelope)), raws);
    }
  }

  /** What one sample does to the engine's history and the status. */
  lemma SampleStepFed(cfg: Config, w: World, raw: int16)
    requires WellFormed(cfg)
    ensures var r := SampleStep(cfg, w, raw);
            r.fed == w.fed + [Condition(raw)] &&
            r.status == (if !cfg.enqueueReply(r.fed) then Halted(EnqueueFault)
                         else if cfg.dequeueReply(r.fed) == Error then Halted(DequeueFault)
                         else w.status)
  {
  }

  /** A halted task feeds nothing more. */
  lemma FeedHalted(cfg: Config, w: World, raws: seq<int16>)
    requires WellFormed(cfg)
    ensures w.status.Halted? ==> Feed(cfg, w, raws) == w
  {
  }

  /** Exactly one enqueue per sample, in order: a block that completes hands
      the engine every conditioned sample of the block. */
  lemma {:induction false} FeedCompletes(cfg: Config, w: World, raws: seq<int16>)
    requires WellFormed(cfg) && w.status == Running
    requires Feed(cfg, w, raws).status == Running
    ensures Feed(cfg, w, raws).fed == w.fed + ConditionAll(raws)
    decreases |raws|
  {
    if raws != [] {
      var w1 := SampleStep(cfg, w, raws[0]);
      SampleStepFed(cfg, w, raws[0]);
      assert Feed(cfg, w, raws) == Feed(cfg, w1, raws[1..]);
      FeedHalted(cfg, w1, raws[1..]);
      FeedCompletes(cfg, w1, raws[1..]);
      assert ConditionAll(raws) == [Condition(raws[0])] + ConditionAll(raws[1..]);
    }
  }

  /** A block that faults hands the engine a prefix of its conditioned
      samples ending at the faulting one, and nothing after. */
  lemma {:induction false} FeedStopsAtFault(cfg: Config, w: World, raws: seq<int16>)
    requires WellFormed(cfg) && w.status == Running
    requires Feed(cfg, w, raws).status.Halted?
    ensures var r := Feed(cfg, w, raws);
            var n := |r.fed| - |w.fed|;
            1 <= n <= |raws| && r.fed == w.fed + ConditionAll(raws[..n])
    decreases |raws|
  {
    var w1 := SampleStep(cfg, w, raws[0]);
    SampleStepFed(cfg, w, raws[0]);
    var r := Feed(cfg, w, raws);
    assert r == Feed(cfg, w1, raws[1..]);
    if w1.status.Halted? {
      assert raws[..1][1..] == [];
      assert r.fed == w.fed + ConditionAll(raws[..1]) by {
        assert Feed(cfg, w1, raws[1..]) == w1;
        assert ConditionAll(raws[..1]) == [Condition(raws[0])];
      }
    } else {
      FeedStopsAtFault(cfg, w1, raws[1..]);
      var n1 := |r.fed| - |w1.fed|;
      ConditionPrefixCons(w.fed, raws, n1);
    }
  }

  lemma ConditionPrefixCons(fed: seq<real>, raws: seq<int16>, n: nat)
    requires n < |raws|
    ensures (fed + [Condition(raws[0])]) + ConditionAll(raws[1..][..n]) == fed + ConditionAll(raws[..n + 1])
  {
    assert raws[..n + 1][1..] == raws[1..][..n];
    assert ConditionAll(raws[..n + 1]) == [Condition(raws[0])] + ConditionAll(raws[1..][..n]);
  }

  /** The fault that stops a block is the engine's refusal of the last
      enqueue, or its error reply to the poll that followed it; a fault
      inside a block is never an audio read fault. */
  lemma {:induction false} FeedFaultCause(cfg: Config, w: World, raws: seq<int16>)
    requires WellFormed(cfg) && w.status == Running
    requires Feed(cfg, w, raws).status.Halted?
    ensures var r := Feed(cfg, w, raws);
            r.status != Halted(AudioReadFault) &&
            (r.status == Halted(EnqueueFault) ==> !cfg.enqueueReply(r.fed)) &&
            (r.status == Halted(DequeueFault) ==> cfg.enqueueReply(r.fed) && cfg.dequeueReply(r.fed) == Error)
    decreases |raws|
  {
    var w1 := SampleStep(cfg, w, raws[0]);
    SampleStepFed(cfg, w, raws[0]);
    assert Feed(cfg, w, raws) == Feed(cfg, w1, raws[1..]);
    if w1.status.Halted? {
      assert Feed(cfg, w1, raws[1..]) == w1;
    } else {
      FeedFaultCause(cfg, w1, raws[1..]);
    }
  }

  /** A block whose read fails feeds nothing; a halted task stays halted and
      unchanged; a running block feeds as FeedStopsAtFault says. */
  lemma BlockFeeding(cfg: Config, w: World, raws: seq<int16>, readOk: bool)
    requires WellFormed(cfg)
    ensures var r := BlockModel(cfg, w, raws, readOk);
            var n := |r.fed| - |w.fed|;
            (w.status.Halted? ==> r == w) &&
            (w.status.Running? && !readOk ==> r == w.(status := Halted(AudioReadFault))) &&
            (w.status.Running? && readOk && r.status == Running ==> r.fed == w.fed + ConditionAll(raws)) &&
            (w.status.Running? && readOk && r.status.Halted? ==>
               r.status != Halted(AudioReadFault) &&
               1 <= n <= |raws| && r.fed == w.fed + ConditionAll(raws[..n]))
  {
    if w.status.Running? && readOk {
      var w0 := w.(envelope := Tick(w.envelope));
      if Feed(cfg, w0, raws).status == Running {
        FeedCompletes(cfg, w0, raws);
      } else {
        FeedStopsAtFault(cfg, w0, raws);
        FeedFaultCause(cfg, w0, raws);
      }
    }
  }

  /** History only grows, the queue never exceeds its capacity, and no block
      queues more messages than it publishes events. */
  lemma {:induction false} FeedExtends(cfg: Config, w: World, raws: seq<int16>)
    requires WellFormed(cfg)
    ensures var r := Feed(cfg, w, raws);
            w.events <= r.events && w.observations <= r.observations && w.queue <= r.queue &&
            |r.queue| - |w.queue| <= |r.events| - |w.events| &&
            (|w.queue| <= cfg.capacity ==> |r.queue| <= cfg.capacity)
    decreases |raws|
  {
    if raws != [] && w.status.Running? {
      FeedExtends(cfg, SampleStep(cfg, w, raws[0]), raws[1..]);
    }
  }

  /** The envelope after a block that completes is the envelope of the
      conditioned samples of the block. */
  lemma {:induction false} FeedEnvelope(cfg: Config, w: World, raws: seq<int16>)
    requires WellFormed(cfg) && w.status == Running
    requires Feed(cfg, w, raws).status == Running
    ensures Feed(cfg, w, raws).envelope == TrackAll(w.envelope, ConditionAll(raws))
    decreases |raws|
  {
    if raws != [] {
      var w1 := SampleStep(cfg, w, raws[0]);
      assert w1.status == Running;
      assert w1.envelope == Track(w.envelope, Condition(raws[0]));
      FeedEnvelope(cfg, w1, raws[1..]);
    }
  }

  lemma BlockEnvelope(cfg: Config, w: World, raws: seq<int16>)
    requires WellFormed(cfg) && w.status == Running
    requires BlockModel(cfg, w, raws, true).status == Running
    ensures BlockModel(cfg, w, raws, true).envelope == Envelope.Block(w.envelope, ConditionAll(raws))
  {
    FeedEnvelope(cfg, w.(envelope := Tick(w.envelope)), raws);
  }

  // ---------------------------------------------------------------------
  // The task object

  class InferenceTask {
    /** Labels whose confirmation is not published. */
    const background: set<int>
    /** The engine's label symbols, one per class. */
    const labelText: seq<string>

    var lastSeenLabel: int
    var debounceCounter: int
    var confirmedLabel: int
    var sampleMax: real
    var sampleMaxSlow: real
    var status: Status

    /** Every observation handed to the debounce machine so far. */
    ghost var observations: seq<Observation>
    /** Every confirmed, non-background label handed to the publisher, in order. */
    ghost var events: seq<nat>

    function DebounceOf(): DebounceState
      reads this
    {
      DebounceState(lastSeenLabel, debounceCounter, confirmedLabel)
    }

    function EnvelopeOf(): EnvelopeState
      reads this
    {
      EnvelopeState(sampleMax, sampleMaxSlow)
    }

    ghost predicate Valid()
      reads this
    {
      Consistent(background, DebounceOf(), observations, events)
    }

    constructor (labelText: seq<string>, background: set<int> := DefaultBackground)
      ensures Valid()
      ensures this.labelText == labelText && this.background == background
      ensures DebounceOf() == Initial && EnvelopeOf() == InitialEnvelope && status == Running
      ensures observations == [] && events == []
    {
      this.labelText := labelText;
      this.background := background;
      lastSeenLabel, debounceCounter, confirmedLabel := NoLabel, 0, NoLabel;
      sampleMax, sampleMaxSlow := 0.0, 0.0;
      status := Running;
      observations, events := [], [];
    }

    /** Start of a block. */
    method TickBlock()
      modifies this`sampleMax, this`sampleMaxSlow
      ensures EnvelopeOf() == Tick(old(EnvelopeOf()))
    {
      sampleMaxSlow := sampleMaxSlow - SlowDecay;
      sampleMax := 0.0;
    }

    /** One conditioned sample's contribution to the envelope. */
    method TrackSample(sample: real)
      modifies this`sampleMax, this`sampleMaxSlow
      ensures EnvelopeOf() == Track(old(EnvelopeOf()), sample)
    {
      var sampleAbs := Abs(sample);
      if sampleAbs > sampleMax {
        sampleMax := sampleAbs;
      }
      if sampleMax > sampleMaxSlow {
        sampleMaxSlow := sampleMax;
      }
    }

    /** The debounce part of a frame: count a confident observation into the
        run and confirm its label when the run is long enough. Returns the
        label confirmed, if any. */
    method CountObservation(o: Observation) returns (confirmation: Option<nat>)
      modifies this`lastSeenLabel, this`debounceCounter, this`confirmedLabel
      ensures DebounceOf() == Step(old(DebounceOf()), o).next
      ensures confirmation == Step(old(DebounceOf()), o).confirmation
    {
      confirmation := None;
      if o.confidence >= ConfidenceThreshold {
        if o.labelIndex == lastSeenLabel {
          debounceCounter := debounceCounter + 1;
        } else {
          debounceCounter := 1;
          lastSeenLabel := o.labelIndex;
        }
        if debounceCounter >= DebounceThreshold && confirmedLabel != o.labelIndex {
          confirmedLabel := o.labelIndex;
          debounceCounter := 0;
          confirmation := Some(o.labelIndex);
        }
      }
    }

    /** One completed frame's observation: debounce, and publish a confirmed
        label unless it is a background label. */
    method Observe(o: Observation, queue: PublisherQueue)
      requires Valid() && queue.Valid()
      requires Accepted(o) ==> o.labelIndex < |labelText|
      modifies this`lastSeenLabel, this`debounceCounter, this`confirmedLabel, this`observations, this`events, queue
      ensures Valid() && queue.Valid()
      ensures var r := Step(old(DebounceOf()), o);
              var published := r.confirmation.Some? && r.confirmation.value !in background;
              DebounceOf() == r.next &&
              observations == old(observations) + [o] &&
              events == old(events) + (if published then [o.labelIndex] else []) &&
              queue.items == (if published then Offer(old(queue.items), queue.capacity, Message(labelText, o.labelIndex))
                              else old(queue.items))
    {
      ConsistentStep(background, DebounceOf(), observations, events, o);
      var confirmation := CountObservation(o);
      if confirmation.Some? && confirmation.value !in background {
        var sent := queue.TrySend(PublisherData(PublishMqttMsg, labelText[confirmation.value]));
        events := events + [confirmation.value];
      } else {
        assert events + [] == events;
      }
      observations := observations + [o];
    }

    /** One sample of a block: condition it, enqueue it, fold it into the
        envelope, and count the frame the engine completes, if any. */
    method ProcessSample(raw: int16, labelScores: array<real>, engine: Engine, queue: PublisherQueue)
      requires Valid() && engine.Valid() && queue.Valid() && status == Running
      requires engine.classCount == |labelText| && labelScores.Length == engine.classCount
      modifies this, engine, queue, labelScores
      ensures Valid() && engine.Valid() && queue.Valid()
      ensures WorldOf(this, engine, queue) ==
              SampleStep(ConfigOf(this, engine, queue), old(WorldOf(this, engine, queue)), raw)
    {
      var sample := Condition(raw);
      var ok := engine.Enqueue(sample);
      if !ok {
        status := Halted(EnqueueFault);
      } else {
        TrackSample(sample);
        var reply := engine.Dequeue(labelScores);
        match reply
        case DequeueSuccess =>
          var o := ArgMax(labelScores);
          ScanInRange(labelScores[..]);
          Observe(o, queue);
        case DequeueNoData =>
        case DequeueError =>
          status := Halted(DequeueFault);
      }
    }

    /** One iteration of the task's loop: a block of count samples that the
        audio driver delivered with status readOk. */
    method ProcessBlock(block: array<int16>, count: nat, readOk: bool, engine: Engine, queue: PublisherQueue)
      returns (outcome: Status)
      requires Valid() && engine.Valid() && queue.Valid()
      requires engine.classCount == |labelText|
      requires count <= block.Length
      modifies this, engine, queue
      ensures Valid() && engine.Valid() && queue.Valid()
      ensures WorldOf(this, engine, queue) ==
              BlockModel(ConfigOf(this, engine, queue), old(WorldOf(this, engine, queue)), block[..count], readOk)
      ensures outcome == status
    {
      ghost var cfg := ConfigOf(this, engine, queue);
      ghost var target := BlockModel(cfg, WorldOf(this, engine, queue), block[..count], readOk);
      if status.Halted? {
        outcome := status;
        return;
      }
      if !readOk {
        status := Halted(AudioReadFault);
        outcome := status;
        return;
      }
      TickBlock();
      assert block[0..count] == block[..count];
      var labelScores := new real[engine.classCount];
      var i := 0;
      while i < count && status == Running
        invariant 0 <= i <= count
        invariant Valid() && engine.Valid() && queue.Valid()
        invariant Feed(cfg, WorldOf(this, engine, queue), block[i..count]) == target
        decreases count - i
      {
        ProcessSample(block[i], labelScores, engine, queue);
        assert block[i..count][1..] == block[i + 1..count];
        i := i + 1;
      }
      outcome := status;
    }
  }

  /** The fixed part of the task, its engine and its queue. */
  function ConfigOf(task: InferenceTask, engine: Engine, queue: PublisherQueue): Config
  {
    Config(task.background, task.labelText, queue.capacity, engine.enqueueReply, engine.dequeueReply)
  }

  /** The changing part of the task, its engine and its queue. */
  ghost function WorldOf(task: InferenceTask, engine: Engine, queue: PublisherQueue): World
    reads task, engine, queue
  {
    World(task.DebounceOf(), task.EnvelopeOf(), task.status, engine.fed, task.observations, task.events, queue.items)
  }
}
