/** The shadow table of the bridge: how many source mismatches an event records, and why a chained
    command list never records one.
 */
module ShadowChains {
  import opened Kv
  import opened BridgeModel

  /** The commands an event executes, in record order. */
  function Matched(cs: seq<Command>, e: Event): seq<Command> {
    if cs == [] then []
    else Matched(cs[..|cs| - 1], e) + if Matches(cs[|cs| - 1], e) then [cs[|cs| - 1]] else []
  }

  /** The number of commands that do not start where their predecessor ended. */
  function Breaks(ms: seq<Command>): nat {
    if |ms| <= 1 then 0
    else Breaks(ms[..|ms| - 1]) + if ms[|ms| - 1].source == ms[|ms| - 2].target then 0 else 1
  }

  /** Every event finds its commands chained: each one starts where the previous one ended. */
  ghost predicate Chained(cs: seq<Command>) {
    forall e: Event :: Breaks(Matched(cs, e)) == 0
  }

  ghost predicate OnTiers(shadows: seq<Shadow>) {
    forall i :: 0 <= i < |shadows| ==> !shadows[i].location.Elsewhere?
  }

  ghost predicate CommandsOnTiers(cs: seq<Command>) {
    forall i :: 0 <= i < |cs| ==> !cs[i].source.Elsewhere? && !cs[i].target.Elsewhere?
  }

  lemma {:induction false} CountsSum(shadows: seq<Shadow>)
    requires OnTiers(shadows)
    ensures CountAt(shadows, SSD) + CountAt(shadows, DRAM) + CountAt(shadows, VRAM) == |shadows|
  {
    if shadows == [] {
    } else {
      CountsSum(shadows[..|shadows| - 1]);
    }
  }

  lemma {:induction false} MatchedFrom(cs: seq<Command>, e: Event, n: nat)
    requires n <= |cs|
    ensures n < |cs| ==> Matched(cs[..n + 1], e) == Matched(cs[..n], e) + if Matches(cs[n], e) then [cs[n]] else []
    ensures Matched(cs[..n], e) != [] ==>
      var first := FirstMatch(cs, e); first.Some? && first.value < n && Matched(cs[..n], e)[0] == cs[first.value]
    ensures Matched(cs[..n], e) == [] ==> forall j :: 0 <= j < n ==> !Matches(cs[j], e)
  {
    if n < |cs| {
      assert cs[..n + 1][..n] == cs[..n];
    }
    if n == 0 {
    } else {
      MatchedFrom(cs, e, n - 1);
      assert cs[..n][..n - 1] == cs[..n - 1];
    }
  }

  /** The event's own shadow record: present, or absent because the table is full. */
  predicate Slotted(shadows: seq<Shadow>, key: Key) {
    FindShadow(shadows, key).Some? || |shadows| >= MAX_SHADOW_BLOCKS
  }

  function LocationOf(shadows: seq<Shadow>, key: Key): Option<Location> {
    match FindShadow(shadows, key)
    case Some(i) => Some(shadows[i].location)
    case None => None
  }

  lemma MoveKeepsSlot(shadows: seq<Shadow>, key: Key, i: nat, l: Location)
    requires FindShadow(shadows, key) == Some(i)
    ensures FindShadow(shadows[i := shadows[i].(location := l)], key) == Some(i)
  {
    var after := shadows[i := shadows[i].(location := l)];
    assert after[i].key == key;
    forall j | 0 <= j < i ensures after[j].key != key {
      assert after[j] == shadows[j];
    }
  }

  /** One transition in a table that already has the event's slot. */
  lemma TransitionMoves(s: ShadowTable, key: Key, c: Command)
    requires Slotted(s.shadows, key)
    ensures var r := Transition(s, key, c);
      && |r.shadows| == |s.shadows| && Slotted(r.shadows, key)
      && LocationOf(r.shadows, key) == (if LocationOf(s.shadows, key).None? then None else Some(c.target))
      && r.sh.mismatches == s.sh.mismatches + (if LocationOf(s.shadows, key).None? || LocationOf(s.shadows, key) == Some(c.source) then 0 else 1)
  {
    if FindShadow(s.shadows, key).Some? {
      MoveKeepsSlot(s.shadows, key, FindShadow(s.shadows, key).value, c.target);
    }
  }

  /** What the commands `ms` of one event have done to the shadow table. */
  ghost predicate LoopState(ms: seq<Command>, key: Key, before: ShadowTable, now: ShadowTable) {
    && now.sh.matched == before.sh.matched + |ms|
    && now.sh.transitions == before.sh.transitions + |ms|
    && now.sh.matches + now.sh.mismatches == before.sh.matches + before.sh.mismatches + |ms|
    && |now.shadows| == |before.shadows|
    && (if ms == [] then now == before
        else
          && now.sh == Recount(now.shadows, now.sh) && Slotted(now.shadows, key)
          && (if LocationOf(before.shadows, key).Some? then
                && LocationOf(now.shadows, key) == Some(ms[|ms| - 1].target)
                && now.sh.mismatches == before.sh.mismatches + Breaks(ms)
              else LocationOf(now.shadows, key).None? && now.sh.mismatches == before.sh.mismatches))
  }

  lemma LoopStep(ms: seq<Command>, key: Key, before: ShadowTable, now: ShadowTable, c: Command)
    requires LoopState(ms, key, before, now) && Slotted(before.shadows, key)
    requires ms == [] && LocationOf(before.shadows, key).Some? ==> LocationOf(before.shadows, key) == Some(c.source)
    ensures LoopState(ms + [c], key, before, Transition(now, key, c))
  {
    TransitionMoves(now, key, c);
    TransitionCounts(now, key, c);
    BreaksSnoc(ms, c);
    hide Transition, Recount, Slotted, LocationOf, Breaks;
  }

  lemma BreaksSnoc(ms: seq<Command>, c: Command)
    ensures Breaks(ms + [c]) == Breaks(ms) + if ms == [] || c.source == ms[|ms| - 1].target then 0 else 1
  {
    assert (ms + [c])[..|ms|] == ms;
  }

  lemma TransitionCounts(s: ShadowTable, key: Key, c: Command)
    ensures var r := Transition(s, key, c);
      && r.sh.matched == s.sh.matched + 1 && r.sh.transitions == s.sh.transitions + 1
      && r.sh.matches + r.sh.mismatches == s.sh.matches + s.sh.mismatches + 1
      && r.sh == Recount(r.shadows, r.sh)
  {
    hide CountAt;
  }

  ghost predicate Prepared(cfg: Config, e: Event, before: State) {
    FirstMatch(cfg.commands, e).Some? ==>
      && Slotted(before.shadows, e.ShadowKey())
      && (LocationOf(before.shadows, e.ShadowKey()).Some? ==>
            LocationOf(before.shadows, e.ShadowKey()) == Some(cfg.commands[FirstMatch(cfg.commands, e).value].source))
  }

  function Table(s: State): ShadowTable {
    ShadowTable(s.shadows, s.sh)
  }

  lemma CommandMovesTable(cfg: Config, e: Event, s: Stepped, i: nat)
    requires i < |cfg.commands| && Sized(s.state.staging) && TensorsShaped(cfg.SiteOf(e.layer), s.tensors)
    ensures Table(ApplyCommand(cfg, e, s, i).state) == Transition(Table(s.state), e.ShadowKey(), cfg.commands[i])
  {
    hide Transition, ExecuteIntent, Mutate;
  }

  lemma NothingMoved(key: Key, t: ShadowTable)
    ensures LoopState([], key, t, t)
  {
  }

  /** The first matched command starts where the event's record was reset to. */
  lemma LoopPrepared(cfg: Config, e: Event, before: State, n: nat)
    requires n < |cfg.commands| && Matches(cfg.commands[n], e) && Prepared(cfg, e, before)
    ensures Slotted(before.shadows, e.ShadowKey())
    ensures Matched(cfg.commands[..n], e) == [] && LocationOf(before.shadows, e.ShadowKey()).Some? ==>
      LocationOf(before.shadows, e.ShadowKey()) == Some(cfg.commands[n].source)
  {
    LoopFirst(cfg, e, n);
    hide LocationOf, Slotted, Matched, Matches;
  }

  /** One more matched command. */
  lemma LoopNext(cfg: Config, e: Event, before: State, s: Stepped, n: nat)
    requires n < |cfg.commands| && Sized(s.state.staging) && TensorsShaped(cfg.SiteOf(e.layer), s.tensors)
    requires Prepared(cfg, e, before) && Matches(cfg.commands[n], e)
    requires LoopState(Matched(cfg.commands[..n], e), e.ShadowKey(), Table(before), Table(s.state))
    ensures LoopState(Matched(cfg.commands[..n + 1], e), e.ShadowKey(), Table(before), Table(ApplyCommand(cfg, e, s, n).state))
  {
    MatchedFrom(cfg.commands, e, n);
    CommandMovesTable(cfg, e, s, n);
    LoopPrepared(cfg, e, before, n);
    hide ApplyCommand, LoopState, Slotted, Matched, Transition, LocationOf, Prepared, Matches, FirstMatch, Sized, TensorsShaped;
    LoopStep(Matched(cfg.commands[..n], e), e.ShadowKey(), Table(before), Table(s.state), cfg.commands[n]);
  }

  lemma {:induction false} LoopHolds(cfg: Config, e: Event, s: Stepped, n: nat)
    requires n <= |cfg.commands| && Sized(s.state.staging) && TensorsShaped(cfg.SiteOf(e.layer), s.tensors)
    requires Prepared(cfg, e, s.state)
    ensures LoopState(Matched(cfg.commands[..n], e), e.ShadowKey(), Table(s.state), Table(ApplyCommands(cfg, e, s, n).state))
  {
    hide ApplyCommand, LoopState, Prepared, Sized, TensorsShaped;
    if n == 0 {
      NothingMoved(e.ShadowKey(), Table(s.state));
    } else {
      LoopHolds(cfg, e, s, n - 1);
      if Matches(cfg.commands[n - 1], e) {
        LoopNext(cfg, e, s.state, ApplyCommands(cfg, e, s, n - 1), n - 1);
      } else {
        MatchedFrom(cfg.commands, e, n - 1);
        assert Matched(cfg.commands[..n], e) == Matched(cfg.commands[..n - 1], e);
      }
    }
  }

  lemma LoopFirst(cfg: Config, e: Event, n: nat)
    requires n < |cfg.commands| && Matches(cfg.commands[n], e)
    ensures FirstMatch(cfg.commands, e).Some?
    ensures Matched(cfg.commands[..n], e) == [] ==> FirstMatch(cfg.commands, e) == Some(n)
  {
    MatchedFrom(cfg.commands, e, n);
  }

  lemma SetKeepsOthers(shadows: seq<Shadow>, key: Key, l: Location)
    ensures Slotted(SetShadow(shadows, key, l, l), key)
    ensures LocationOf(SetShadow(shadows, key, l, l), key) ==
      if FindShadow(shadows, key).Some? || |shadows| < MAX_SHADOW_BLOCKS then Some(l) else None
    ensures OnTiers(shadows) && !l.Elsewhere? ==> OnTiers(SetShadow(shadows, key, l, l))
  {
    var slot := FindOrCreateShadow(shadows, key, l);
    if slot.at.Some? {
      assert FindShadow(slot.shadows, key) == slot.at by {
        if FindShadow(shadows, key).None? {
          forall j | 0 <= j < |shadows| ensures slot.shadows[j].key != key {
            assert shadows[j].key != key;
          }
        }
      }
      MoveKeepsSlot(slot.shadows, key, slot.at.value, l);
    }
  }

  /** The mismatch count of one event: the breaks in its commands' chain, or none at all when the shadow
      table had no room for the event. */
  lemma EventMismatches(cfg: Config, e: Event, s: Stepped)
    requires Sized(s.state.staging) && TensorsShaped(cfg.SiteOf(e.layer), s.tensors)
    ensures var r, ms := ApplyEvent(cfg, e, s).state, Matched(cfg.commands, e);
      && r.sh.matched == s.state.sh.matched + |ms| && r.sh.transitions == s.state.sh.transitions + |ms|
      && r.sh.matches + r.sh.mismatches == s.state.sh.matches + s.state.sh.mismatches + |ms|
      && r.sh.mismatches == s.state.sh.mismatches +
           (if FindShadow(s.state.shadows, e.ShadowKey()).Some? || |s.state.shadows| < MAX_SHADOW_BLOCKS then Breaks(ms) else 0)
  {
    var n := |cfg.commands|;
    var begun := Begin(cfg, e, s.state);
    assert cfg.commands[..n] == cfg.commands;
    MatchedFrom(cfg.commands, e, n);
    var first := FirstMatch(cfg.commands, e);
    if first.Some? {
      SetKeepsOthers(s.state.shadows, e.ShadowKey(), cfg.commands[first.value].source);
    }
    LoopHolds(cfg, e, s.(state := begun), n);
  }

  /** Shadow records always name a tier, and the last recount added up. */
  ghost predicate Counted(s: State) {
    && OnTiers(s.shadows)
    && s.sh.blocks == |s.shadows| && s.sh.ssd + s.sh.dram + s.sh.vram == s.sh.blocks
  }

  lemma {:induction false} LoopOnTiers(cfg: Config, e: Event, s: Stepped, n: nat)
    requires n <= |cfg.commands| && Sized(s.state.staging) && TensorsShaped(cfg.SiteOf(e.layer), s.tensors)
    requires CommandsOnTiers(cfg.commands) && OnTiers(s.state.shadows)
    ensures OnTiers(ApplyCommands(cfg, e, s, n).state.shadows)
  {
    if n == 0 {
    } else {
      LoopOnTiers(cfg, e, s, n - 1);
    }
  }

  lemma EventKeepsCounted(cfg: Config, e: Event, s: Stepped)
    requires Sized(s.state.staging) && TensorsShaped(cfg.SiteOf(e.layer), s.tensors)
    requires CommandsOnTiers(cfg.commands) && Counted(s.state)
    ensures Counted(ApplyEvent(cfg, e, s).state)
  {
    var n := |cfg.commands|;
    var begun := Begin(cfg, e, s.state);
    assert cfg.commands[..n] == cfg.commands;
    MatchedFrom(cfg.commands, e, n);
    var first := FirstMatch(cfg.commands, e);
    if first.Some? {
      SetKeepsOthers(s.state.shadows, e.ShadowKey(), cfg.commands[first.value].source);
    }
    LoopHolds(cfg, e, s.(state := begun), n);
    LoopOnTiers(cfg, e, s.(state := begun), n);
    CountsSum(ApplyCommands(cfg, e, s.(state := begun), n).state.shadows);
  }

  /** Over any sequence of runtime events, a chained command list never shows a source mismatch; every
      matched command is a transition and a match; the tier counts add up to the table size. */
  lemma {:induction false} NoMismatchEver(cfg: Config, es: seq<Event>, w: World)
    requires Chained(cfg.commands) && CommandsOnTiers(cfg.commands)
    requires WorldShaped(cfg, w) && w.state == FRESH && LayersKnown(w, es)
    ensures var sh := Run(cfg, es, w).state.sh;
      sh.mismatches == 0 && sh.transitions == sh.matches == sh.matched
    ensures Counted(Run(cfg, es, w).state)
  {
    if es == [] {
    } else {
      var front, e := es[..|es| - 1], es[|es| - 1];
      forall i | 0 <= i < |front| ensures front[i].layer in w.tensors {
        assert front[i] == es[i];
      }
      NoMismatchEver(cfg, front, w);
      var p := Run(cfg, front, w);
      var s := Stepped(p.state, p.tensors[e.layer]);
      EventMismatches(cfg, e, s);
      EventKeepsCounted(cfg, e, s);
      assert Breaks(Matched(cfg.commands, e)) == 0;
    }
  }
}
