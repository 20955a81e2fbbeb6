/** What the bridge's counters count over every run, with failures of memory and files anywhere: the events, the
    commands they matched, the read attempts, and what the two switches turn off.
 */
module BridgeCounters {
  import opened Kv
  import opened ByteCopies
  import opened TensorGate
  import opened BridgeModel
  import opened BridgeLedger
  import SC = ShadowChains

  // ---------- the shadow table ----------

  predicate MatchesNone(cs: seq<Command>, e: Event) {
    forall i :: 0 <= i < |cs| ==> !Matches(cs[i], e)
  }

  function UnmatchedEvents(cs: seq<Command>, es: seq<Event>): nat {
    if es == [] then 0
    else UnmatchedEvents(cs, es[..|es| - 1]) + if MatchesNone(cs, es[|es| - 1]) then 1 else 0
  }

  /** The positions of the records at a location. */
  function RecordsAt(shadows: seq<Shadow>, location: Location): set<int> {
    set i | 0 <= i < |shadows| && shadows[i].location == location
  }

  lemma {:induction false} RecordsAtStep(shadows: seq<Shadow>, location: Location)
    requires shadows != []
    ensures var n := |shadows| - 1; var front := RecordsAt(shadows[..n], location);
      n !in front && RecordsAt(shadows, location) == if shadows[n].location == location then front + {n} else front
  {
    var front := shadows[..|shadows| - 1];
    assert forall i :: 0 <= i < |front| ==> front[i] == shadows[i];
  }

  lemma {:induction false} CountAtIs(shadows: seq<Shadow>, location: Location)
    ensures CountAt(shadows, location) == |RecordsAt(shadows, location)|
  {
    if shadows == [] {
      assert RecordsAt(shadows, location) == {};
    } else {
      RecordsAtStep(shadows, location);
      CountAtIs(shadows[..|shadows| - 1], location);
      hide RecordsAt;
    }
  }

  /** The shadow counters tell the events, the commands they matched and where the records are. */
  ghost predicate ShadowsCounted(cs: seq<Command>, es: seq<Event>, shadows: seq<Shadow>, sh: ShadowStats) {
    && sh.events == |es| && sh.unmatched == UnmatchedEvents(cs, es)
    && sh.matched == sh.transitions == sh.matches + sh.mismatches == |Executed(cs, es)|
    && sh == Recount(shadows, sh)
  }

  lemma {:induction false} LoopKeepsEvents(cfg: Config, e: Event, s: Stepped, n: nat)
    requires n <= |cfg.commands| && Sized(s.state.staging) && TensorsShaped(cfg.SiteOf(e.layer), s.tensors)
    ensures var r := ApplyCommands(cfg, e, s, n).state;
      r.sh.events == s.state.sh.events && r.sh.unmatched == s.state.sh.unmatched
  {
    hide ExecuteIntent, Mutate, FindShadow, CountAt, Sized, TensorsShaped;
    if n > 0 {
      LoopKeepsEvents(cfg, e, s, n - 1);
    }
  }

  lemma {:induction false} EventCounted(cfg: Config, e: Event, s: Stepped, es: seq<Event>)
    requires Sized(s.state.staging) && TensorsShaped(cfg.SiteOf(e.layer), s.tensors)
    requires ShadowsCounted(cfg.commands, es, s.state.shadows, s.state.sh)
    ensures var r := ApplyEvent(cfg, e, s).state; ShadowsCounted(cfg.commands, es + [e], r.shadows, r.sh)
  {
    var n := |cfg.commands|;
    var begun := s.(state := Begin(cfg, e, s.state));
    assert (es + [e])[..|es|] == es;
    SC.EventMismatches(cfg, e, s);
    LoopKeepsEvents(cfg, e, begun, n);
    RecountAfter(cfg, e, s);
    hide ApplyCommands, Recount, Sized, TensorsShaped, SC.Matched, SC.Breaks;
  }

  lemma {:induction false} RecountAfter(cfg: Config, e: Event, s: Stepped)
    requires Sized(s.state.staging) && TensorsShaped(cfg.SiteOf(e.layer), s.tensors)
    requires s.state.sh == Recount(s.state.shadows, s.state.sh)
    ensures var r := ApplyEvent(cfg, e, s).state; r.sh == Recount(r.shadows, r.sh)
  {
    var n := |cfg.commands|;
    var begun := Begin(cfg, e, s.state);
    assert cfg.commands[..n] == cfg.commands;
    SC.MatchedFrom(cfg.commands, e, n);
    var first := FirstMatch(cfg.commands, e);
    if first.Some? {
      SC.SetKeepsOthers(s.state.shadows, e.ShadowKey(), cfg.commands[first.value].source);
    }
    SC.LoopHolds(cfg, e, s.(state := begun), n);
    hide ApplyCommands, CountAt, Sized, TensorsShaped, SC.Slotted, SC.LocationOf, SC.Breaks;
  }

  /** Over every run, with failures anywhere: each event, each match and each record is counted once. */
  lemma {:induction false} RunCounted(cfg: Config, es: seq<Event>, w: World)
    requires WorldShaped(cfg, w) && w.state == FRESH && LayersKnown(w, es)
    ensures var s := Run(cfg, es, w).state; ShadowsCounted(cfg.commands, es, s.shadows, s.sh)
  {
    hide ShadowsCounted, ApplyEvent, TensorsShaped, Sized;
    if es == [] {
      NothingCounted(cfg.commands);
    } else {
      var front, e := es[..|es| - 1], es[|es| - 1];
      assert forall i :: 0 <= i < |front| ==> front[i] == es[i];
      RunCounted(cfg, front, w);
      var p := Run(cfg, front, w);
      assert front + [e] == es;
      EventCounted(cfg, e, Stepped(p.state, p.tensors[e.layer]), front);
    }
  }

  lemma {:induction false} NothingCounted(cs: seq<Command>)
    ensures ShadowsCounted(cs, [], [], ZERO_SHADOWS)
  {
  }

  // ---------- the executor ----------

  function Intended(cs: seq<Command>, intent: Intent): nat {
    if cs == [] then 0 else Intended(cs[..|cs| - 1], intent) + if IntentOf(cs[|cs| - 1]) == intent then 1 else 0
  }

  lemma {:induction false} IntendedAppend(a: seq<Command>, b: seq<Command>, intent: Intent)
    ensures Intended(a + b, intent) == Intended(a, intent) + Intended(b, intent)
  {
    hide IntentOf;
    if b == [] {
      assert a + b == a;
    } else {
      assert (a + b)[..|a + b| - 1] == a + b[..|b| - 1];
      IntendedAppend(a, b[..|b| - 1], intent);
    }
  }

  /** How many commands of each kind have been executed: a read attempt succeeds or counts an error, and the
      other kinds succeed at most as often as they are asked for. */
  ghost predicate ExecCounted(cfg: Config, ms: seq<Command>, ex: ExecStats) {
    && ex.readAttempts == ex.ssdReads + ex.readErrors == Intended(ms, SsdRead)
    && ex.metadataOnly == Intended(ms, Metadata)
    && ex.copies <= Intended(ms, DramToVram) && ex.computes <= Intended(ms, ComputeResident) && ex.evicts <= Intended(ms, SsdWrite)
    && (!cfg.seedMissing ==> ex.lazySeeds == 0 && ex.lazySeedBytes == 0)
  }

  /** The counters that looking for a source never moves. */
  ghost predicate SameWork(cfg: Config, a: ExecStats, b: ExecStats) {
    && b.readAttempts == a.readAttempts && b.ssdReads == a.ssdReads && b.readErrors == a.readErrors && b.metadataOnly == a.metadataOnly
    && b.copies == a.copies && b.computes == a.computes && b.evicts == a.evicts
    && (!cfg.seedMissing ==> b.lazySeeds == a.lazySeeds && b.lazySeedBytes == a.lazySeedBytes)
  }

  lemma {:induction false} FindWork(cfg: Config, s: Executor, c: Command)
    requires Sized(s.staging)
    ensures SameWork(cfg, s.ex, FindOrCreate(s, c).exec.ex)
  {
    hide Sized;
  }

  lemma {:induction false} EnsureWork(cfg: Config, s: Executor, c: Command, io: Io)
    requires Sized(s.staging)
    ensures SameWork(cfg, s.ex, EnsureDram(cfg, s, c, io).exec.ex) && SameWork(cfg, s.ex, EnsureVram(cfg, s, c, io).exec.ex)
  {
    var loaded := ReadBacking(cfg, c, io, false, s.ex);
    FindWork(cfg, s.(ex := loaded.ex), c);
    hide Sized, FindOrCreate, VerifyByteRanges;
  }

  /** What one command with an intent does to the counters of work. */
  ghost predicate Worked(cfg: Config, a: ExecStats, intent: Intent, b: ExecStats) {
    && b.readAttempts == a.readAttempts + One(intent.SsdRead?)
    && b.ssdReads + b.readErrors == a.ssdReads + a.readErrors + One(intent.SsdRead?)
    && b.metadataOnly == a.metadataOnly + One(intent.Metadata?)
    && b.copies <= a.copies + One(intent.DramToVram?)
    && b.computes <= a.computes + One(intent.ComputeResident?)
    && b.evicts <= a.evicts + One(intent.SsdWrite?)
    && (!cfg.seedMissing ==> b.lazySeeds == a.lazySeeds && b.lazySeedBytes == a.lazySeedBytes)
  }

  lemma {:induction false} AssignWork(cfg: Config, s: Executor, c: Command, buffer: seq<Byte>)
    requires Sized(s.staging) && |buffer| == c.size
    ensures SameWork(cfg, s.ex, AssignDram(s, c, buffer).exec.ex)
  {
    FindWork(cfg, s, c);
    hide Sized, FindOrCreate, VerifyByteRanges;
  }

  lemma {:induction false} ReadWorked(cfg: Config, s: Executor, c: Command, io: Io)
    requires Sized(s.staging)
    ensures Worked(cfg, s.ex, SsdRead, ExecuteSsdRead(cfg, s, c, io).ex)
  {
    var tried := s.ex.(readAttempts := s.ex.readAttempts + 1);
    var loaded := ReadBacking(cfg, c, io, true, tried);
    ReadCounted(cfg, c, io, tried);
    if loaded.buffer.Some? {
      AssignWork(cfg, s.(ex := loaded.ex), c, loaded.buffer.value);
    }
    hide Sized, AssignDram, ReadBacking;
  }

  lemma {:induction false} ReadCounted(cfg: Config, c: Command, io: Io, ex: ExecStats)
    ensures var r := ReadBacking(cfg, c, io, true, ex);
      SameWork(cfg, ex.(readErrors := ex.readErrors + One(r.buffer.None?)), r.ex)
  {
    hide Slice;
  }

  lemma {:induction false} CopyWorked(cfg: Config, s: Executor, c: Command, io: Io)
    requires Sized(s.staging)
    ensures Worked(cfg, s.ex, DramToVram, ExecuteDramToVram(cfg, s, c, io).ex)
  {
    EnsureWork(cfg, s, c, io);
    FindWork(cfg, EnsureDram(cfg, s, c, io).exec, c);
    hide Sized, FindOrCreate, VerifyByteRanges, EnsureDram;
  }

  lemma {:induction false} ComputeWorked(cfg: Config, s: Executor, c: Command, io: Io)
    requires Sized(s.staging)
    ensures Worked(cfg, s.ex, ComputeResident, ExecuteCompute(cfg, s, c, io).ex)
  {
    EnsureWork(cfg, s, c, io);
    hide Sized, EnsureVram;
  }

  lemma {:induction false} IntentWorked(cfg: Config, s: Executor, c: Command, io: Io)
    requires Sized(s.staging) && cfg.executorEnabled
    ensures Worked(cfg, s.ex, IntentOf(c), ExecuteIntent(cfg, s, c, io).ex)
  {
    ReadWorked(cfg, s, c, io);
    CopyWorked(cfg, s, c, io);
    ComputeWorked(cfg, s, c, io);
    hide ExecuteSsdRead, ExecuteDramToVram, ExecuteCompute, Sized, IntentOf;
  }

  lemma {:induction false} IntentCounted(cfg: Config, s: Executor, c: Command, io: Io, ms: seq<Command>)
    requires Sized(s.staging) && cfg.executorEnabled && ExecCounted(cfg, ms, s.ex)
    ensures ExecCounted(cfg, ms + [c], ExecuteIntent(cfg, s, c, io).ex)
  {
    assert (ms + [c])[..|ms|] == ms;
    IntentWorked(cfg, s, c, io);
    hide ExecuteIntent, Sized, IntentOf;
  }

  lemma {:induction false} LoopWorks(cfg: Config, e: Event, s: Stepped, ms: seq<Command>, n: nat)
    requires n <= |cfg.commands| && Sized(s.state.staging) && TensorsShaped(cfg.SiteOf(e.layer), s.tensors)
    requires cfg.executorEnabled && ExecCounted(cfg, ms, s.state.ex)
    ensures ExecCounted(cfg, ms + SC.Matched(cfg.commands[..n], e), ApplyCommands(cfg, e, s, n).state.ex)
  {
    hide ExecCounted, Matches, ExecuteIntent, Mutate, Transition, Sized, TensorsShaped;
    if n == 0 {
      assert ms + [] == ms;
    } else {
      LoopWorks(cfg, e, s, ms, n - 1);
      SC.MatchedFrom(cfg.commands, e, n - 1);
      var before, c := ApplyCommands(cfg, e, s, n - 1), cfg.commands[n - 1];
      var front := SC.Matched(cfg.commands[..n - 1], e);
      if Matches(c, e) {
        IntentCounted(cfg, Executor(before.state.staging, before.state.ex), c, e.IoAt(n - 1), ms + front);
        assert ms + (front + [c]) == ms + front + [c];
      } else {
        assert front + [] == front;
      }
    }
  }

  lemma {:induction false} NothingIntended(intent: Intent)
    ensures Intended([], intent) == 0
  {
  }

  lemma {:induction false} NothingWorked(cfg: Config)
    ensures ExecCounted(cfg, [], ZERO_EXEC)
  {
    NothingIntended(SsdRead);
    NothingIntended(Metadata);
    hide Intended;
  }

  /** With the executor on, over every run: each read intent is one attempt that succeeds or counts one error,
      each metadata intent is counted, and no buffer is seeded unless seeding is on. */
  lemma {:induction false} RunWorks(cfg: Config, es: seq<Event>, w: World)
    requires WorldShaped(cfg, w) && w.state == FRESH && LayersKnown(w, es) && cfg.executorEnabled
    ensures ExecCounted(cfg, Executed(cfg.commands, es), Run(cfg, es, w).state.ex)
  {
    hide ExecCounted, ApplyEvent, TensorsShaped, Sized;
    if es == [] {
      NothingWorked(cfg);
    } else {
      var front, e := es[..|es| - 1], es[|es| - 1];
      assert forall i :: 0 <= i < |front| ==> front[i] == es[i];
      RunWorks(cfg, front, w);
      var p := Run(cfg, front, w);
      EventWorks(cfg, e, Stepped(p.state, p.tensors[e.layer]), Executed(cfg.commands, front));
    }
  }

  lemma {:induction false} EventWorks(cfg: Config, e: Event, s: Stepped, ms: seq<Command>)
    requires Sized(s.state.staging) && TensorsShaped(cfg.SiteOf(e.layer), s.tensors)
    requires cfg.executorEnabled && ExecCounted(cfg, ms, s.state.ex)
    ensures ExecCounted(cfg, ms + SC.Matched(cfg.commands, e), ApplyEvent(cfg, e, s).state.ex)
  {
    hide ExecCounted, ApplyCommands, TensorsShaped, Sized;
    assert cfg.commands[..|cfg.commands|] == cfg.commands;
    LoopWorks(cfg, e, s.(state := Begin(cfg, e, s.state)), ms, |cfg.commands|);
  }

  // ---------- bytes ----------

  /** Each count of bytes is the size times the count of reads, copies, computes, evicts and seeds. */
  ghost predicate Weighed(size: int, ex: ExecStats) {
    && Weighs(size, ex.ssdReads, ex.readBytes) && Weighs(size, ex.copies, ex.copyBytes) && Weighs(size, ex.computes, ex.computeBytes)
    && Weighs(size, ex.evicts, ex.evictBytes) && Weighs(size, ex.lazySeeds, ex.lazySeedBytes)
  }

  lemma {:induction false} FindWeighed(s: Executor, c: Command)
    requires Sized(s.staging) && Weighed(c.size, s.ex)
    ensures Weighed(c.size, FindOrCreate(s, c).exec.ex)
  {
    hide Sized, Weighs;
  }

  lemma {:induction false} LoadWeighed(cfg: Config, c: Command, io: Io, counted: bool, ex: ExecStats, size: int)
    requires Weighed(size, ex)
    ensures Weighed(size, ReadBacking(cfg, c, io, counted, ex).ex)
  {
    hide Slice, Weighs;
  }

  lemma {:induction false} EnsureWeighed(cfg: Config, s: Executor, c: Command, io: Io)
    requires Sized(s.staging) && Weighed(c.size, s.ex)
    ensures Weighed(c.size, EnsureDram(cfg, s, c, io).exec.ex) && Weighed(c.size, EnsureVram(cfg, s, c, io).exec.ex)
  {
    WeighsMore(c.size);
    var loaded := ReadBacking(cfg, c, io, false, s.ex);
    LoadWeighed(cfg, c, io, false, s.ex, c.size);
    FindWeighed(s.(ex := loaded.ex), c);
    hide Sized, FindOrCreate, VerifyByteRanges, ReadBacking, Weighs;
  }

  lemma {:induction false} CountWeighed(ex: ExecStats, size: int)
    requires Weighed(size, ex)
    ensures Weighed(size, ex.(ssdReads := ex.ssdReads + 1, readBytes := ex.readBytes + size))
    ensures Weighed(size, ex.(readErrors := ex.readErrors + 1))
  {
    WeighsMore(size);
    hide Weighs;
  }

  lemma {:induction false} AssignWeighed(s: Executor, c: Command, buffer: seq<Byte>)
    requires Sized(s.staging) && |buffer| == c.size && Weighed(c.size, s.ex)
    ensures Weighed(c.size, AssignDram(s, c, buffer).exec.ex)
  {
    FindWeighed(s, c);
    hide Sized, FindOrCreate, VerifyByteRanges, Weighs;
  }

  lemma {:induction false} ReadWeighed(cfg: Config, s: Executor, c: Command, io: Io)
    requires Sized(s.staging) && Weighed(c.size, s.ex)
    ensures Weighed(c.size, ExecuteSsdRead(cfg, s, c, io).ex)
  {
    var tried := s.ex.(readAttempts := s.ex.readAttempts + 1);
    var loaded := ReadBacking(cfg, c, io, true, tried);
    LoadWeighed(cfg, c, io, true, tried, c.size);
    if loaded.buffer.Some? {
      AssignWeighed(s.(ex := loaded.ex), c, loaded.buffer.value);
      CountWeighed(AssignDram(s.(ex := loaded.ex), c, loaded.buffer.value).exec.ex, c.size);
    }
    hide Sized, AssignDram, ReadBacking, Weighed;
  }

  lemma {:induction false} CopyWeighed(cfg: Config, s: Executor, c: Command, io: Io)
    requires Sized(s.staging) && Weighed(c.size, s.ex)
    ensures Weighed(c.size, ExecuteDramToVram(cfg, s, c, io).ex)
  {
    WeighsMore(c.size);
    EnsureWeighed(cfg, s, c, io);
    FindWeighed(EnsureDram(cfg, s, c, io).exec, c);
    hide Sized, FindOrCreate, VerifyByteRanges, EnsureDram, Weighs;
  }

  lemma {:induction false} ComputeWeighed(cfg: Config, s: Executor, c: Command, io: Io)
    requires Sized(s.staging) && Weighed(c.size, s.ex)
    ensures Weighed(c.size, ExecuteCompute(cfg, s, c, io).ex)
  {
    WeighsMore(c.size);
    EnsureWeighed(cfg, s, c, io);
    hide Sized, EnsureVram, Weighs;
  }

  lemma {:induction false} EvictWeighed(s: Executor, c: Command)
    requires Sized(s.staging) && Weighed(c.size, s.ex)
    ensures Weighed(c.size, ExecuteEvict(s, c).ex)
  {
    WeighsMore(c.size);
    hide Sized, Weighs;
  }

  lemma {:induction false} IntentWeighed(cfg: Config, s: Executor, c: Command, io: Io)
    requires Sized(s.staging) && Weighed(c.size, s.ex)
    ensures Weighed(c.size, ExecuteIntent(cfg, s, c, io).ex)
  {
    ReadWeighed(cfg, s, c, io);
    CopyWeighed(cfg, s, c, io);
    ComputeWeighed(cfg, s, c, io);
    EvictWeighed(s, c);
    hide ExecuteSsdRead, ExecuteDramToVram, ExecuteCompute, ExecuteEvict, Sized, IntentOf, Weighs;
  }

  lemma {:induction false} LoopWeighed(cfg: Config, e: Event, s: Stepped, n: nat, size: int)
    requires n <= |cfg.commands| && Sized(s.state.staging) && TensorsShaped(cfg.SiteOf(e.layer), s.tensors)
    requires AllOfSize(cfg.commands, size) && Weighed(size, s.state.ex)
    ensures Weighed(size, ApplyCommands(cfg, e, s, n).state.ex)
  {
    hide Weighed, Matches, ExecuteIntent, Mutate, Transition, Sized, TensorsShaped;
    if n > 0 {
      LoopWeighed(cfg, e, s, n - 1, size);
      var before, c := ApplyCommands(cfg, e, s, n - 1), cfg.commands[n - 1];
      IntentWeighed(cfg, Executor(before.state.staging, before.state.ex), c, e.IoAt(n - 1));
    }
  }

  /** When all commands have one size, with failures anywhere, each count of bytes is that size times the count
      of what it measures. */
  lemma {:induction false} RunWeighed(cfg: Config, es: seq<Event>, w: World, size: int)
    requires WorldShaped(cfg, w) && w.state == FRESH && LayersKnown(w, es) && AllOfSize(cfg.commands, size)
    ensures Weighed(size, Run(cfg, es, w).state.ex)
  {
    hide Weighed, ApplyCommands, TensorsShaped, Sized;
    if es == [] {
      NothingWeighed(size);
    } else {
      var front, e := es[..|es| - 1], es[|es| - 1];
      assert forall i :: 0 <= i < |front| ==> front[i] == es[i];
      RunWeighed(cfg, front, w, size);
      var p := Run(cfg, front, w);
      var s := Stepped(p.state, p.tensors[e.layer]);
      LoopWeighed(cfg, e, s.(state := Begin(cfg, e, s.state)), |cfg.commands|, size);
    }
  }

  lemma {:induction false} NothingWeighed(size: int)
    ensures Weighed(size, ZERO_EXEC)
  {
    WeighsMore(size);
  }

  // ---------- the switches ----------

  /** What a switched-off executor and a switched-off gate leave alone. */
  ghost predicate SwitchedOff(cfg: Config, s: State) {
    && (!cfg.executorEnabled ==> s.staging == [] && s.ex == ZERO_EXEC)
    && (!cfg.executorEnabled || !cfg.mutationEnabled ==> s.mu == ZERO_MUTATIONS)
  }

  lemma {:induction false} LoopSwitchedOff(cfg: Config, e: Event, s: Stepped, n: nat)
    requires n <= |cfg.commands| && Sized(s.state.staging) && TensorsShaped(cfg.SiteOf(e.layer), s.tensors) && SwitchedOff(cfg, s.state)
    ensures var r := ApplyCommands(cfg, e, s, n);
      SwitchedOff(cfg, r.state) && (!cfg.executorEnabled || !cfg.mutationEnabled ==> r.tensors == s.tensors)
  {
    hide Matches, ExecuteSsdRead, ExecuteDramToVram, ExecuteCompute, ExecuteEvict, IntentOf, Transition, Sized, TensorsShaped,
      VerdictOn, Marked, CountCopied, CountRefused, WriteKeys, WriteValues, BlockHash;
    if n > 0 {
      LoopSwitchedOff(cfg, e, s, n - 1);
    }
  }

  /** Over every run: without the executor nothing is staged or counted, and without the executor or the gate
      no tensor changes and no block is ever marked. */
  lemma {:induction false} RunSwitchedOff(cfg: Config, es: seq<Event>, w: World)
    requires WorldShaped(cfg, w) && w.state == FRESH && LayersKnown(w, es)
    ensures SwitchedOff(cfg, Run(cfg, es, w).state)
    ensures !cfg.executorEnabled || !cfg.mutationEnabled ==> Run(cfg, es, w).tensors == w.tensors
  {
    hide SwitchedOff, ApplyCommands, TensorsShaped, Sized;
    if es == [] {
      NothingStaged(cfg);
    } else {
      var front, e := es[..|es| - 1], es[|es| - 1];
      assert forall i :: 0 <= i < |front| ==> front[i] == es[i];
      RunSwitchedOff(cfg, front, w);
      var p := Run(cfg, front, w);
      EventSwitchedOff(cfg, e, Stepped(p.state, p.tensors[e.layer]));
    }
  }

  lemma {:induction false} NothingStaged(cfg: Config)
    ensures SwitchedOff(cfg, FRESH)
  {
  }

  lemma {:induction false} EventSwitchedOff(cfg: Config, e: Event, s: Stepped)
    requires Sized(s.state.staging) && TensorsShaped(cfg.SiteOf(e.layer), s.tensors) && SwitchedOff(cfg, s.state)
    ensures var r := ApplyEvent(cfg, e, s);
      SwitchedOff(cfg, r.state) && (!cfg.executorEnabled || !cfg.mutationEnabled ==> r.tensors == s.tensors)
  {
    hide ApplyCommands, TensorsShaped, Sized;
    LoopSwitchedOff(cfg, e, s.(state := Begin(cfg, e, s.state)), |cfg.commands|);
  }
}
