/** Whole runs of ledgers, and the projection of a ledger's dirty pairs. */
module Run {
  import opened Options
  import opened Keys
  import opened Slices
  import opened Blocks
  import opened Reserves
  import opened Mirror
  import opened Carry
  import opened Reference
  import opened Cache
  import opened Incremental

  /** What the caller passes as the prior state: the very state returned last, a copy of it as after a checkpoint restore,
      or any other state, such as an older one the caller rewinds to. */
  datatype Given = Same | Copy | Other(state: Option<LedgerState>)

  /** One ledger of a run. */
  datatype Ledger = Ledger(cfg: Owned, changes: seq<Change>, seqNum: int, closeTime: Option<int>, given: Given)

  /** The initial prior and every state the caller passes instead are well formed. */
  ghost predicate WellFormedRun(prior: Option<LedgerState>, ledgers: seq<Ledger>) {
    && (prior.Some? ==> WellFormed(prior.value))
    && forall l <- ledgers :: l.given.Other? && l.given.state.Some? ==> WellFormed(l.given.state.value)
  }

  function StateAfter(prior: Option<LedgerState>, outcomes: seq<Outcome>): Option<LedgerState> {
    if outcomes == [] then prior else Some(outcomes[|outcomes| - 1].state)
  }

  /** The content of the prior state a ledger is decoded from. */
  function PriorOf(prior: Option<LedgerState>, outcomes: seq<Outcome>, l: Ledger): Option<LedgerState> {
    if l.given.Other? then l.given.state else StateAfter(prior, outcomes)
  }

  /** The reference reducer over a run. */
  function ReferenceRun(prior: Option<LedgerState>, ledgers: seq<Ledger>): seq<Outcome> {
    if ledgers == [] then []
    else
      var before := ReferenceRun(prior, ledgers[..|ledgers| - 1]);
      var l := ledgers[|ledgers| - 1];
      before + [Decode(l.cfg, PriorOf(prior, before, l), l.changes, l.seqNum, l.closeTime)]
  }

  // ---- the incremental strategy over a run -----------------------------------------------------

  /** The outcomes so far and the mirror carried to the next ledger. */
  datatype Progress = Progress(outcomes: seq<Outcome>, carried: Option<Mirror>)

  predicate Continued(p: Progress, l: Ledger) { p.carried.Some? && l.given.Same? }

  /** The mirror a ledger starts from: the carried one, normalized, or a load of the prior. */
  function StartOf(prior: Option<LedgerState>, p: Progress, l: Ledger): Mirror {
    if Continued(p, l) then NormalizeCarry(p.carried.value) else LoadPrior(PriorOf(prior, p.outcomes, l))
  }

  /** One ledger: a continued call decodes from the carried mirror, any other as the reference does. */
  function Advance(prior: Option<LedgerState>, p: Progress, l: Ledger): Progress {
    var o := if Continued(p, l) then CarriedDecode(p.carried.value, l.cfg, l.changes, l.seqNum, l.closeTime)
             else Decode(l.cfg, PriorOf(prior, p.outcomes, l), l.changes, l.seqNum, l.closeTime);
    Progress(p.outcomes + [o], Some(Built(ApplyAll(l.cfg, StartOf(prior, p, l), l.changes, l.seqNum), l.closeTime)))
  }

  function StrategyRun(prior: Option<LedgerState>, ledgers: seq<Ledger>): Progress {
    if ledgers == [] then Progress([], None)
    else Advance(prior, StrategyRun(prior, ledgers[..|ledgers| - 1]), ledgers[|ledgers| - 1])
  }

  /** The strategy and the state it returned last are where the run says. */
  ghost predicate InStep(s: IncrementalStrategy, last: StateRef?, prior: Option<LedgerState>, p: Progress)
    reads s, s.Repr, s.builder
  {
    && s.Valid()
    && StateOf(last) == StateAfter(prior, p.outcomes)
    && (last != null ==> WellFormed(last.state))
    && (s.builder != null <==> p.carried.Some?)
    && (s.builder != null ==> s.lastOut == last && s.Carried() == p.carried.value)
  }

  /** The object a caller passes as the prior state. Only the very state returned last is that object again. */
  method Pass(last: StateRef?, g: Given) returns (prior: StateRef?)
    ensures StateOf(prior) == if g.Other? then g.state else StateOf(last)
    ensures if g.Same? then prior == last else prior != null ==> fresh(prior)
  {
    prior := last;
    if g.Copy? && last != null {
      prior := new StateRef(last.state);
    } else if g.Other? {
      prior := null;
      if g.state.Some? { prior := new StateRef(g.state.value); }
    }
  }

  /** Passing the last state again continues exactly when there is a carried mirror. */
  lemma PassedContinues(s: IncrementalStrategy, last: StateRef?, given: StateRef?, prior: Option<LedgerState>, p: Progress,
                        l: Ledger)
    requires InStep(s, last, prior, p)
    requires if l.given.Same? then given == last else given == null || given != last
    requires StateOf(given) == if l.given.Other? then l.given.state else StateOf(last)
    requires l.given.Other? && l.given.state.Some? ==> WellFormed(l.given.state.value)
    ensures s.Valid() && (given != null ==> WellFormed(given.state))
    ensures (s.builder != null <==> p.carried.Some?) && (s.builder != null ==> p.carried == Some(s.Carried()))
    ensures s.Continues(given) <==> Continued(p, l)
    ensures s.Start(given) == StartOf(prior, p, l)
    ensures StateOf(given) == PriorOf(prior, p.outcomes, l)
  {
    hide WellFormed, NormalizeCarry, LoadPrior;
  }

  /** One ledger of a run on the strategy. */
  method DecodeLedger(s: IncrementalStrategy, last: StateRef?, ghost prior: Option<LedgerState>, ghost p: Progress, l: Ledger)
    returns (out: StateRef, o: Outcome)
    requires InStep(s, last, prior, p)
    requires l.given.Other? && l.given.state.Some? ==> WellFormed(l.given.state.value)
    modifies s, s.Repr, s.builder
    ensures InStep(s, out, prior, Advance(prior, p, l))
    ensures Advance(prior, p, l).outcomes == p.outcomes + [o]
    ensures fresh(s.Repr - old(s.Repr)) && (s.builder == old(s.builder) || fresh(s.builder)) && s.builder != null
  {
    hide Decode, CarriedDecode, WellFormed, AllDecodable, StartOf, PriorOf, ApplyAll, Built, IncrementalStrategy.Valid,
      IncrementalStrategy.Start, IncrementalStrategy.Continues, InStep;
    var given := Pass(last, l.given);
    PassedContinues(s, last, given, prior, p, l);
    out, o := s.DecodeState(l.cfg, given, l.changes, l.seqNum, l.closeTime);
    DecodedStateWellFormed(s, out);
    StepTaken(s, out, prior, Advance(prior, p, l));
  }

  lemma StepTaken(s: IncrementalStrategy, out: StateRef, prior: Option<LedgerState>, q: Progress)
    requires s.Valid() && s.builder != null && s.lastOut == out && WellFormed(out.state)
    requires q.carried == Some(s.Carried()) && q.outcomes != [] && q.outcomes[|q.outcomes| - 1].state == out.state
    ensures InStep(s, out, prior, q)
  {
    hide IncrementalStrategy.Valid, WellFormed;
  }

  /** A valid strategy's last state is well formed. */
  lemma DecodedStateWellFormed(s: IncrementalStrategy, out: StateRef)
    requires s.Valid() && s.builder != null && s.lastOut == out
    ensures WellFormed(out.state)
  {
  }

  /** Over every run, whatever prior the caller passes at each ledger and whether the carried blobs decode or not, the
      strategy's outcomes are those of the run specification. */
  method IncrementalRun(prior: Option<LedgerState>, ledgers: seq<Ledger>) returns (outcomes: seq<Outcome>)
    requires WellFormedRun(prior, ledgers)
    ensures outcomes == StrategyRun(prior, ledgers).outcomes
  {
    hide WellFormed, InStep, Advance, StrategyRun, IncrementalStrategy.Valid;
    var s := new IncrementalStrategy();
    var last: StateRef? := null;
    if prior.Some? { last := new StateRef(prior.value); }
    StartsInStep(s, last, prior);
    outcomes := [];
    ghost var p := StrategyRun(prior, []);
    for n := 0 to |ledgers|
      invariant fresh(s) && fresh(s.Repr) && (s.builder != null ==> fresh(s.builder))
      invariant InStep(s, last, prior, p) && p == StrategyRun(prior, ledgers[..n]) && outcomes == p.outcomes
    {
      var l := ledgers[n];
      assert l in ledgers;
      var o;
      last, o := DecodeLedger(s, last, prior, p, l);
      NextLedger(prior, ledgers, n);
      outcomes, p := outcomes + [o], Advance(prior, p, l);
    }
    assert ledgers[..|ledgers|] == ledgers;
  }

  lemma NextLedger(prior: Option<LedgerState>, ledgers: seq<Ledger>, n: nat)
    requires n < |ledgers|
    ensures StrategyRun(prior, ledgers[..n + 1]) == Advance(prior, StrategyRun(prior, ledgers[..n]), ledgers[n])
  {
    hide Advance;
    assert ledgers[..n + 1][..n] == ledgers[..n];
  }

  lemma StartsInStep(s: IncrementalStrategy, last: StateRef?, prior: Option<LedgerState>)
    requires s.Valid() && s.builder == null && StateOf(last) == prior && (prior.Some? ==> WellFormed(prior.value))
    ensures InStep(s, last, prior, StrategyRun(prior, [])) && StrategyRun(prior, []).outcomes == []
  {
  }

  // ---- when the two strategies agree -----------------------------------------------------------

  /** The mirror the changes of ledger n leave, in the reference run. */
  function MirrorAfter(prior: Option<LedgerState>, ledgers: seq<Ledger>, n: nat): Mirror
    requires n < |ledgers|
  {
    var l := ledgers[n];
    ApplyAll(l.cfg, LoadPrior(PriorOf(prior, ReferenceRun(prior, ledgers[..n]), l)), l.changes, l.seqNum)
  }

  /** Whenever a call continues the previous one, every Positions blob the previous ledger left decodes. */
  ghost predicate Lossless(prior: Option<LedgerState>, ledgers: seq<Ledger>) {
    forall n :: 0 <= n < |ledgers| - 1 && ledgers[n + 1].given.Same? ==> AllDecodable(MirrorAfter(prior, ledgers, n))
  }

  lemma WellFormedPrefix(prior: Option<LedgerState>, ledgers: seq<Ledger>)
    requires WellFormedRun(prior, ledgers) && ledgers != []
    ensures WellFormedRun(prior, ledgers[..|ledgers| - 1])
    ensures var l := ledgers[|ledgers| - 1]; l.given.Other? && l.given.state.Some? ==> WellFormed(l.given.state.value)
  {
    hide WellFormed;
    assert forall l <- ledgers[..|ledgers| - 1] :: l in ledgers;
    assert ledgers[|ledgers| - 1] in ledgers;
  }

  lemma {:induction false} RunWellFormed(prior: Option<LedgerState>, ledgers: seq<Ledger>)
    requires WellFormedRun(prior, ledgers)
    ensures var s := StateAfter(prior, ReferenceRun(prior, ledgers)); s.Some? ==> WellFormed(s.value)
    decreases |ledgers|
  {
    hide WellFormed, Decode;
    if ledgers != [] {
      var init, l := ledgers[..|ledgers| - 1], ledgers[|ledgers| - 1];
      WellFormedPrefix(prior, ledgers);
      hide WellFormedRun;
      RunWellFormed(prior, init);
      PriorWellFormed(prior, init, l);
      DecodedWellFormed(l.cfg, PriorOf(prior, ReferenceRun(prior, init), l), l.changes, l.seqNum, l.closeTime);
    }
  }

  lemma PriorWellFormed(prior: Option<LedgerState>, init: seq<Ledger>, l: Ledger)
    requires l.given.Other? && l.given.state.Some? ==> WellFormed(l.given.state.value)
    requires var s := StateAfter(prior, ReferenceRun(prior, init)); s.Some? ==> WellFormed(s.value)
    ensures var s := PriorOf(prior, ReferenceRun(prior, init), l); s.Some? ==> WellFormed(s.value)
  {
  }

  /** The prior of the last ledger of a run is well formed. */
  lemma LastPriorWellFormed(prior: Option<LedgerState>, ledgers: seq<Ledger>)
    requires WellFormedRun(prior, ledgers) && ledgers != []
    ensures var init, l := ledgers[..|ledgers| - 1], ledgers[|ledgers| - 1];
            var s := PriorOf(prior, ReferenceRun(prior, init), l); s.Some? ==> WellFormed(s.value)
  {
    hide WellFormed, ReferenceRun, WellFormedRun, PriorOf, StateAfter;
    WellFormedPrefix(prior, ledgers);
    RunWellFormed(prior, ledgers[..|ledgers| - 1]);
    PriorWellFormed(prior, ledgers[..|ledgers| - 1], ledgers[|ledgers| - 1]);
  }

  /** A run of the strategy that agrees with the reference also carries the reference's mirror. */
  ghost predicate Agrees(prior: Option<LedgerState>, ledgers: seq<Ledger>) {
    var p := StrategyRun(prior, ledgers);
    && p.outcomes == ReferenceRun(prior, ledgers)
    && p.carried == if ledgers == [] then None
                    else Some(Built(MirrorAfter(prior, ledgers, |ledgers| - 1), ledgers[|ledgers| - 1].closeTime))
  }

  lemma LosslessPrefix(prior: Option<LedgerState>, ledgers: seq<Ledger>)
    requires Lossless(prior, ledgers) && ledgers != []
    ensures Lossless(prior, ledgers[..|ledgers| - 1])
    ensures |ledgers| > 1 && ledgers[|ledgers| - 1].given.Same? ==>
              AllDecodable(MirrorAfter(prior, ledgers[..|ledgers| - 1], |ledgers| - 2))
  {
    hide AllDecodable, ReferenceRun, LoadPrior, ApplyAll, PriorOf;
    var init := ledgers[..|ledgers| - 1];
    forall n | 0 <= n < |init|
      ensures MirrorAfter(prior, init, n) == MirrorAfter(prior, ledgers, n)
    {
      assert init[..n] == ledgers[..n];
    }
  }

  /** A lossless run: the strategy returns at every ledger what the reference returns. */
  lemma {:induction false} LosslessRunsAgree(prior: Option<LedgerState>, ledgers: seq<Ledger>)
    requires WellFormedRun(prior, ledgers) && Lossless(prior, ledgers)
    ensures StrategyRun(prior, ledgers).outcomes == ReferenceRun(prior, ledgers)
    ensures Agrees(prior, ledgers)
    decreases |ledgers|
  {
    hide WellFormed, WellFormedRun, Lossless, AllDecodable, Decode, CarriedDecode, ApplyAll, LoadPrior, Built, NormalizeCarry;
    if ledgers != [] {
      var init, l := ledgers[..|ledgers| - 1], ledgers[|ledgers| - 1];
      LosslessPrefix(prior, ledgers);
      WellFormedPrefix(prior, ledgers);
      LosslessRunsAgree(prior, init);
      LosslessStep(prior, ledgers);
    }
  }

  lemma LosslessStep(prior: Option<LedgerState>, ledgers: seq<Ledger>)
    requires ledgers != [] && WellFormedRun(prior, ledgers) && Agrees(prior, ledgers[..|ledgers| - 1])
    requires |ledgers| > 1 && ledgers[|ledgers| - 1].given.Same? ==>
               AllDecodable(MirrorAfter(prior, ledgers[..|ledgers| - 1], |ledgers| - 2))
    ensures Agrees(prior, ledgers)
  {
    hide WellFormed, WellFormedRun, AllDecodable, Decode, CarriedDecode, ApplyAll, LoadPrior, Built, NormalizeCarry;
    var init, l := ledgers[..|ledgers| - 1], ledgers[|ledgers| - 1];
    if init != [] && l.given.Same? {
      WellFormedPrefix(prior, ledgers);
      LastPriorWellFormed(prior, init);
      ContinuedStep(prior, init, l);
    }
  }

  /** Continuing after a lossless ledger of an agreeing run. */
  lemma ContinuedStep(prior: Option<LedgerState>, init: seq<Ledger>, l: Ledger)
    requires init != [] && l.given.Same? && Agrees(prior, init)
    requires AllDecodable(MirrorAfter(prior, init, |init| - 1))
    requires var before := init[..|init| - 1];
      var s := PriorOf(prior, ReferenceRun(prior, before), init[|init| - 1]); s.Some? ==> WellFormed(s.value)
    ensures var p := StrategyRun(prior, init);
      && CarriedDecode(p.carried.value, l.cfg, l.changes, l.seqNum, l.closeTime)
         == Decode(l.cfg, PriorOf(prior, p.outcomes, l), l.changes, l.seqNum, l.closeTime)
      && NormalizeCarry(p.carried.value) == LoadPrior(PriorOf(prior, p.outcomes, l))
  {
    hide WellFormed, AllDecodable, Decode, CarriedDecode, ApplyAll, LoadPrior, Built, NormalizeCarry, PublishAll, Coherent;
    var last := init[|init| - 1];
    var before := PriorOf(prior, ReferenceRun(prior, init[..|init| - 1]), last);
    var b := MirrorAfter(prior, init, |init| - 1);
    ReferenceState(last.cfg, before, last.changes, last.seqNum, last.closeTime);
    LosslessCarryAgrees(b, last.closeTime, l.cfg, l.changes, l.seqNum, l.closeTime);
  }

  /** What the reference publishes for a ledger, and the mirror behind it. */
  lemma ReferenceState(cfg: Owned, prior: Option<LedgerState>, changes: seq<Change>, seqNum: int, closeTime: Option<int>)
    requires prior.Some? ==> WellFormed(prior.value)
    ensures var b := ApplyAll(cfg, LoadPrior(prior), changes, seqNum);
            && Coherent(b)
            && Decode(cfg, prior, changes, seqNum, closeTime).state == PublishAll(Built(b, closeTime))
            && WellFormed(PublishAll(Built(b, closeTime)))
  {
    hide WellFormed, Decode, ApplyAll, LoadPrior, Built, PublishAll, Coherent, NormalizeCarry, AllDecodable, DecodeFrom;
    LoadCoherent(prior);
    ReferenceDecodesFrom(cfg, prior, changes, seqNum, closeTime);
    Ready(cfg, LoadPrior(prior), changes, seqNum, closeTime);
  }

  /** The reference never needs its prior conditions restated: what it publishes is well formed. */
  lemma DecodedWellFormed(cfg: Owned, prior: Option<LedgerState>, changes: seq<Change>, seqNum: int, closeTime: Option<int>)
    requires prior.Some? ==> WellFormed(prior.value)
    ensures WellFormed(Decode(cfg, prior, changes, seqNum, closeTime).state)
  {
    hide Coherent, WellFormed, LoadPrior, ApplyAll, Built, PublishAll, RemapDirty, Diagnostics, DirtyList, BackstopDirty,
      TemporaryList, PriorIndexes;
    LoadCoherent(prior);
    ApplyAllStep(cfg, LoadPrior(prior), changes, seqNum);
    PublishedWellFormed(ApplyAll(cfg, LoadPrior(prior), changes, seqNum), closeTime);
  }

  /** What a caller can check of its input: when no Positions value of a run fails to decode, the run is lossless. */
  lemma DecodablePositionsAreLossless(prior: Option<LedgerState>, ledgers: seq<Ledger>)
    requires WellFormedRun(prior, ledgers)
    requires forall i :: 0 <= i < |ledgers| ==> PositionsDecode(ledgers[i].changes)
    ensures Lossless(prior, ledgers)
  {
    hide WellFormed, PositionsDecode, AllDecodable, ApplyAll, LoadPrior, Decode, ReferenceRun, PriorOf;
    forall n | 0 <= n < |ledgers| - 1 ensures AllDecodable(MirrorAfter(prior, ledgers, n)) {
      var l, head := ledgers[n], ledgers[..n + 1];
      assert head[..n] == ledgers[..n];
      assert forall k <- head :: k in ledgers;
      LastPriorWellFormed(prior, head);
      var before := PriorOf(prior, ReferenceRun(prior, ledgers[..n]), l);
      LoadCoherent(before);
      ApplyAllDecodable(l.cfg, LoadPrior(before), l.changes, l.seqNum);
    }
  }

  // ---- exactly when a carried mirror decodes as a reloaded one ---------------------------------

  /** No next ledger, whatever its changes, tells the carried mirror from the reloaded state. */
  ghost predicate CarryAgrees(m: Mirror, s: LedgerState) {
    forall cfg, changes, seqNum, closeTime ::
      CarriedDecode(m, cfg, changes, seqNum, closeTime) == Decode(cfg, Some(s), changes, seqNum, closeTime)
  }

  /** The condition under which the incremental strategy may continue its mirror is exact: carried and reloaded mirrors
      give the same outcome on every next ledger just when every carried Positions blob decodes. */
  lemma CarryAgreesExactly(b: Mirror, closeTime: Option<int>)
    requires Coherent(b)
    ensures CarryAgrees(Built(b, closeTime), PublishAll(Built(b, closeTime))) <==> AllDecodable(b)
  {
    hide Coherent, AllDecodable, Built, PublishAll, CarriedDecode, Decode, WellFormed;
    var m, s := Built(b, closeTime), PublishAll(Built(b, closeTime));
    PublishedWellFormed(b, closeTime);
    if AllDecodable(b) {
      forall cfg, changes, seqNum, t ensures CarriedDecode(m, cfg, changes, seqNum, t) == Decode(cfg, Some(s), changes, seqNum, t) {
        LosslessCarryAgrees(b, closeTime, cfg, changes, seqNum, t);
      }
    } else {
      var cfg: Owned := Owned({}, {}, {});
      LossyCarryShows(b, closeTime, cfg, 0, None);
    }
  }

  ghost predicate SameOutcomes(prior: Option<LedgerState>, ledgers: seq<Ledger>) {
    StrategyRun(prior, ledgers).outcomes == ReferenceRun(prior, ledgers)
  }

  /** After a lossless run, every ledger the strategy may continue with is decoded as the reference does just when the
      last ledger left only blobs that decode. */
  lemma RunContinuesExactly(prior: Option<LedgerState>, ledgers: seq<Ledger>)
    requires WellFormedRun(prior, ledgers) && Lossless(prior, ledgers) && ledgers != []
    ensures (forall next: Ledger :: next.given.Same? ==> SameOutcomes(prior, ledgers + [next]))
            <==> AllDecodable(MirrorAfter(prior, ledgers, |ledgers| - 1))
  {
    hide Coherent, AllDecodable, Built, PublishAll, CarriedDecode, Decode, WellFormed, WellFormedRun, Lossless,
      NormalizeCarry, ApplyAll, LoadPrior;
    var last := ledgers[|ledgers| - 1];
    var b := MirrorAfter(prior, ledgers, |ledgers| - 1);
    LosslessRunsAgree(prior, ledgers);
    LastPriorWellFormed(prior, ledgers);
    ReferenceState(last.cfg, PriorOf(prior, ReferenceRun(prior, ledgers[..|ledgers| - 1]), last), last.changes, last.seqNum,
                   last.closeTime);
    forall next: Ledger | next.given.Same?
      ensures SameOutcomes(prior, ledgers + [next]) <==> OutcomesAgree(b, last.closeTime, next)
    {
      ContinuedOutcomes(prior, ledgers, next);
    }
    CarryAgreesExactly(b, last.closeTime);
    if AllDecodable(b) {
      assert CarryAgrees(Built(b, last.closeTime), PublishAll(Built(b, last.closeTime)));
    } else {
      var next := Ledger(last.cfg, [], 0, None, Same);
      LossyCarryShows(b, last.closeTime, last.cfg, 0, None);
      assert !OutcomesAgree(b, last.closeTime, next);
    }
  }

  /** A ledger decoded from the mirror carried past b, and from the state published for b. */
  ghost predicate OutcomesAgree(b: Mirror, closeTime: Option<int>, next: Ledger) {
    CarriedDecode(Built(b, closeTime), next.cfg, next.changes, next.seqNum, next.closeTime)
    == Decode(next.cfg, Some(PublishAll(Built(b, closeTime))), next.changes, next.seqNum, next.closeTime)
  }

  lemma ContinuedOutcomes(prior: Option<LedgerState>, ledgers: seq<Ledger>, next: Ledger)
    requires ledgers != [] && next.given.Same? && Agrees(prior, ledgers)
    requires var outcomes := ReferenceRun(prior, ledgers);
      var b := MirrorAfter(prior, ledgers, |ledgers| - 1);
      outcomes[|outcomes| - 1].state == PublishAll(Built(b, ledgers[|ledgers| - 1].closeTime))
    ensures SameOutcomes(prior, ledgers + [next])
       <==> OutcomesAgree(MirrorAfter(prior, ledgers, |ledgers| - 1), ledgers[|ledgers| - 1].closeTime, next)
  {
    hide Built, PublishAll, CarriedDecode, Decode, MirrorAfter, NormalizeCarry, ApplyAll;
    var p, all := StrategyRun(prior, ledgers), ledgers + [next];
    var x := CarriedDecode(p.carried.value, next.cfg, next.changes, next.seqNum, next.closeTime);
    var y := Decode(next.cfg, StateAfter(prior, p.outcomes), next.changes, next.seqNum, next.closeTime);
    assert all[..|all| - 1] == ledgers;
    assert StrategyRun(prior, all).outcomes == p.outcomes + [x];
    assert ReferenceRun(prior, all) == p.outcomes + [y];
    assert (p.outcomes + [x])[|p.outcomes|] == x && (p.outcomes + [y])[|p.outcomes|] == y;
  }

  lemma PublishedParts(b: Mirror, closeTime: Option<int>)
    ensures PublishAll(Built(b, closeTime)) == Publish(Built(b, closeTime), Users(Built(b, closeTime)), Slice(b.pending))
  {
    hide Built, Publish, Users, Slice;
    BuiltPending(b, closeTime);
  }

  lemma LosslessCarryAgrees(b: Mirror, closeTime: Option<int>, cfg: Owned, changes: seq<Change>, seqNum: int,
                            next: Option<int>)
    requires Coherent(b) && AllDecodable(b) && WellFormed(PublishAll(Built(b, closeTime)))
    ensures CarriedDecode(Built(b, closeTime), cfg, changes, seqNum, next)
         == Decode(cfg, Some(PublishAll(Built(b, closeTime))), changes, seqNum, next)
    ensures NormalizeCarry(Built(b, closeTime)) == LoadPrior(Some(PublishAll(Built(b, closeTime))))
  {
    hide Coherent, AllDecodable, Built, PublishAll, Decode, WellFormed, NormalizeCarry, Publish, Load, Users, Slice,
      DecodeFrom;
    PublishedParts(b, closeTime);
    CarryEqualsReload(b, closeTime, Users(Built(b, closeTime)));
    ReferenceDecodesFrom(cfg, Some(PublishAll(Built(b, closeTime))), changes, seqNum, next);
  }

  lemma EmptyLedger(cfg: Owned, b: Mirror, seqNum: int)
    ensures ApplyAll(cfg, b, [], seqNum) == b
  {
  }

  lemma ExposedPending(b: Mirror, dirty: set<Key>, seqNum: int, closeTime: Option<int>)
    ensures Expose(b, dirty, seqNum, closeTime).state.pending == Slice(b.pending)
  {
    hide Built, Slice, Users, Diagnostics, DirtyList, BackstopDirty, TemporaryList;
    BuiltPending(b, closeTime);
  }

  /** An empty ledger gives a lost blob away: the carried mirror still publishes it. */
  lemma LossyCarryShows(b: Mirror, closeTime: Option<int>, cfg: Owned, seqNum: int, next: Option<int>)
    requires Coherent(b) && !AllDecodable(b) && WellFormed(PublishAll(Built(b, closeTime)))
    ensures CarriedDecode(Built(b, closeTime), cfg, [], seqNum, next).state.pending
         != Decode(cfg, Some(PublishAll(Built(b, closeTime))), [], seqNum, next).state.pending
  {
    hide Coherent, Built, PublishAll, WellFormed, ApplyAll, RemapDirty, IndexMap, Expose, Publish, Load, Users, Slice,
      PriorIndexes, Collect;
    var m, s := Built(b, closeTime), PublishAll(Built(b, closeTime));
    PublishedParts(b, closeTime);
    BuiltPending(b, closeTime);
    LoadedPendingOf(m, Users(m), Slice(b.pending));
    CoherentPending(b);
    PendingReload(b.pending);
    LoadCoherent(Some(s));
    CoherentPending(Load(s));
    var n := NormalizeCarry(m);
    EmptyLedger(cfg, n, seqNum);
    EmptyLedger(cfg, Load(s), seqNum);
    ExposedPending(n, n.dirtyUsers + RemapDirty(IndexMap(n.pools), n), seqNum, next);
    ExposedPending(Load(s), Load(s).dirtyUsers + RemapDirty(PriorIndexes(Some(s)), Load(s)), seqNum, next);
    IndexOfSlice(b.pending, PendingKey);
    IndexOfSlice(Load(s).pending, PendingKey);
  }

  // ---- an undecodable archived blob separates the strategies -----------------------------------

  function LostArchive(): Change {
    Change("P", Some(PositionsKey("U")), Undecodable, false, None, false)
  }

  /** Without the decodability condition the claim is false. An evicted Positions entry that was never seen and whose
      value does not decode is stored with an empty blob: the live mirror keeps it, a reload drops it. */
  lemma LossyArchiveSeparates(cfg: Owned, seqNum: int, closeTime: Option<int>, users: seq<Row>)
    requires "P" !in cfg.feeds && "P" !in cfg.assets
    ensures var b := Apply(cfg, EMPTY_MIRROR, LostArchive(), seqNum);
            var c := Built(b, closeTime);
            var s := Publish(c, users, Slice(b.pending));
            && NormalizeCarry(c) != Load(s)
            && Pair("U", "P") in NormalizeCarry(c).pending && Pair("U", "P") !in Load(s).pending
  {
    hide Apply, DeletePositions, Coherent, Built, ApplyDelete, AllDecodable, Publish, Collect;
    var b := Apply(cfg, EMPTY_MIRROR, LostArchive(), seqNum);
    var c := Built(b, closeTime);
    LostArchiveStored(cfg, seqNum);
    BuiltPending(b, closeTime);
    CarryEqualsReload(b, closeTime, users);
    CoherentPending(b);
    PendingReload(b.pending);
    LoadedPendingOf(c, users, Slice(b.pending));
  }

  /** One ledger with that eviction, then one without changes, each passing the state returned last. */
  function LostRun(cfg: Owned, seqNum: int, closeTime: Option<int>, nextSeq: int, nextClose: Option<int>): seq<Ledger> {
    [Ledger(cfg, [LostArchive()], seqNum, closeTime, Same), Ledger(cfg, [], nextSeq, nextClose, Same)]
  }

  /** On that run the two strategies agree on the first ledger and return different pending positions for the second. */
  lemma LostRunOutcomesDiffer(cfg: Owned, seqNum: int, closeTime: Option<int>, nextSeq: int, nextClose: Option<int>)
    requires "P" !in cfg.feeds && "P" !in cfg.assets
    ensures var run := LostRun(cfg, seqNum, closeTime, nextSeq, nextClose);
            var mine, theirs := StrategyRun(None, run).outcomes, ReferenceRun(None, run);
            && |mine| == |theirs| == 2
            && mine[0] == theirs[0]
            && mine[1].state.pending != theirs[1].state.pending
  {
    hide Apply, ApplyAll, Coherent, Built, AllDecodable, Decode, CarriedDecode, PublishAll, WellFormed, NormalizeCarry;
    var run := LostRun(cfg, seqNum, closeTime, nextSeq, nextClose);
    var o := Decode(cfg, None, [LostArchive()], seqNum, closeTime);
    TwoLedgers(run[0], run[1], o);
    var b := Apply(cfg, EMPTY_MIRROR, LostArchive(), seqNum);
    OneChange(cfg, LostArchive(), seqNum);
    LostArchiveStored(cfg, seqNum);
    ReferenceState(cfg, None, [LostArchive()], seqNum, closeTime);
    assert o.state == PublishAll(Built(b, closeTime));
    LossyCarryShows(b, closeTime, cfg, nextSeq, nextClose);
  }

  lemma OneChange(cfg: Owned, c: Change, seqNum: int)
    ensures ApplyAll(cfg, EMPTY_MIRROR, [c], seqNum) == Apply(cfg, EMPTY_MIRROR, c, seqNum)
    ensures LoadPrior(None) == EMPTY_MIRROR
  {
    hide Apply;
    assert [c][..0] == [];
    assert ApplyAll(cfg, EMPTY_MIRROR, [], seqNum) == EMPTY_MIRROR;
  }

  /** A run of two ledgers from nothing, the second passing on the first's state. */
  lemma TwoLedgers(a: Ledger, c: Ledger, o: Outcome)
    requires a.given.Same? && c.given.Same? && o == Decode(a.cfg, None, a.changes, a.seqNum, a.closeTime)
    ensures var m := Built(ApplyAll(a.cfg, LoadPrior(None), a.changes, a.seqNum), a.closeTime);
            StrategyRun(None, [a, c]).outcomes == [o, CarriedDecode(m, c.cfg, c.changes, c.seqNum, c.closeTime)]
    ensures ReferenceRun(None, [a, c]) == [o, Decode(c.cfg, Some(o.state), c.changes, c.seqNum, c.closeTime)]
  {
    hide Decode, CarriedDecode, Built, LoadPrior, ApplyAll, NormalizeCarry;
    var run, first := [a, c], [a];
    assert run[..1] == first && first[..0] == [];
    assert StrategyRun(None, []) == Progress([], None) && ReferenceRun(None, []) == [];
    assert StrategyRun(None, first).outcomes == [o] && ReferenceRun(None, first) == [o];
  }

  lemma LostArchiveStored(cfg: Owned, seqNum: int)
    requires "P" !in cfg.feeds && "P" !in cfg.assets
    ensures var b, k := Apply(cfg, EMPTY_MIRROR, LostArchive(), seqNum), Pair("U", "P");
            Coherent(b) && !AllDecodable(b) && k in b.pending && b.pending[k].blob.None?
  {
    EmptyCoherent();
    ApplyStep(cfg, EMPTY_MIRROR, LostArchive(), seqNum);
    ApplyDecodable(cfg, EMPTY_MIRROR, LostArchive(), seqNum);
    assert Apply(cfg, EMPTY_MIRROR, LostArchive(), seqNum) == DeletePositions(EMPTY_MIRROR, LostArchive(), "U", seqNum);
  }

  lemma LoadedPendingOf(c: Mirror, users: seq<Row>, pending: seq<Pending>)
    ensures Load(Publish(c, users, pending)).pending == Collect(pending, PendingKey, PendingOf)
  {
    hide Collect, Slice;
  }

  // ---- the rows of a ledger's dirty pairs ------------------------------------------------------

  function PairsOf(dirty: seq<DirtyPosition>): seq<Key> { seq(|dirty|, i requires 0 <= i < |dirty| => dirty[i].pair) }

  /** The rows whose owner is wanted, in order. */
  function Wanted(rows: seq<Row>, want: set<Key>): seq<Row> {
    if rows == [] then []
    else
      var r := rows[|rows| - 1];
      Wanted(rows[..|rows| - 1], want) + if RowOwner(r) in want then [r] else []
  }

  /** dirtyPositionRows without a cache: one scan of all users. */
  method ScanRows(users: seq<Row>, dirty: seq<DirtyPosition>) returns (rows: seq<Row>)
    ensures rows == Wanted(users, set p | p in PairsOf(dirty))
  {
    var want: set<Key> := {};
    for n := 0 to |dirty|
      invariant want == set p | p in PairsOf(dirty)[..n]
    {
      assert PairsOf(dirty)[..n + 1] == PairsOf(dirty)[..n] + [dirty[n].pair];
      want := want + {dirty[n].pair};
    }
    assert PairsOf(dirty)[..|dirty|] == PairsOf(dirty);
    rows := [];
    for n := 0 to |users|
      invariant rows == Wanted(users[..n], want)
    {
      assert users[..n + 1][..n] == users[..n];
      if RowOwner(users[n]) in want { rows := rows + [users[n]]; }
    }
    assert users[..|users|] == users;
  }

  /** The published rows a strategy's cache answers for: none before the first ledger. */
  ghost function LastUsers(s: IncrementalStrategy): seq<Row>
    reads s, s.Repr, s.builder
    requires s.Valid()
  {
    if s.builder == null then [] else s.lastOut.state.users
  }

  ghost function LastBlocks(s: IncrementalStrategy): map<Key, seq<Row>>
    reads s, s.builder
  {
    if s.builder == null then map[] else SortedBlocks(s.Carried())
  }

  /** userPositions: the cached block of one pair is what a scan of the last published users finds. */
  method UserPositions(s: IncrementalStrategy, address: string, pool: string) returns (rows: seq<Row>)
    requires s.Valid()
    ensures rows == RowsOf(LastUsers(s), RowOwner, Pair(address, pool))
    ensures rows == BlockAt(LastBlocks(s), Pair(address, pool))
  {
    var k := Pair(address, pool);
    hide Users, TotalLen, Listed, Resolved;
    if s.builder != null {
      ScanUsers(s.Carried(), k);
      SortedBlockAt(s.Carried(), k);
    }
    assert forall j :: j in s.Blocks() <==> j in s.index;
    rows := if k in s.index then s.index[k].block else [];
  }

  /** One cached lookup per pair, in the order of the list. */
  method LookupRows(s: IncrementalStrategy, dirty: seq<DirtyPosition>) returns (rows: seq<Row>)
    requires s.Valid()
    requires forall d :: d in dirty ==> d.pair.Pair?
    ensures rows == Flatten(PairsOf(dirty), LastBlocks(s))
  {
    hide IncrementalStrategy.Valid, LastBlocks, LastUsers, RowsOf, BlockAt;
    ghost var blocks := LastBlocks(s);
    rows := [];
    for n := 0 to |dirty|
      invariant s.Valid() && LastBlocks(s) == blocks
      invariant rows == Flatten(PairsOf(dirty)[..n], blocks)
    {
      assert dirty[n] in dirty;
      var k := dirty[n].pair;
      var block := UserPositions(s, k.address, k.pool);
      FlattenNext(PairsOf(dirty), n, blocks);
      rows := rows + block;
    }
    assert PairsOf(dirty)[..|dirty|] == PairsOf(dirty);
  }

  /** Leaving out the pairs without rows, the list is strictly in (address, pool) order. */
  ghost predicate InOrder(dirty: seq<DirtyPosition>, blocks: map<Key, seq<Row>>) {
    Ascends(Selected(PairsOf(dirty), Filled(blocks)))
  }

  function Filled(blocks: map<Key, seq<Row>>): set<Key> { set k | k in blocks && blocks[k] != [] }

  /** dirtyPositionRows: a strategy with a cache is asked pair by pair, whatever state is passed, any other has the state's
      users scanned. On the strategy's last output the lookups find what the scan finds, in the same order, just when the
      pairs with rows are listed once each and in order. */
  method DirtyPositionRows(s: IncrementalStrategy?, users: seq<Row>, dirty: seq<DirtyPosition>) returns (rows: seq<Row>)
    requires s != null ==> s.Valid()
    requires forall d :: d in dirty ==> d.pair.Pair?
    ensures var scanned := Wanted(users, set p | p in PairsOf(dirty));
      if s == null then rows == scanned
      else
        && rows == Flatten(PairsOf(dirty), LastBlocks(s))
        && (users == LastUsers(s) ==> (rows == scanned <==> InOrder(dirty, LastBlocks(s))))
  {
    hide Wanted, Flatten, InOrder, LastBlocks, LastUsers, IncrementalStrategy.Valid;
    if s != null {
      rows := LookupRows(s, dirty);
      LookupAgrees(s, dirty);
    } else {
      rows := ScanRows(users, dirty);
    }
  }

  lemma LookupAgrees(s: IncrementalStrategy, dirty: seq<DirtyPosition>)
    requires s.Valid()
    ensures Flatten(PairsOf(dirty), LastBlocks(s)) == Wanted(LastUsers(s), set p | p in PairsOf(dirty))
       <==> InOrder(dirty, LastBlocks(s))
  {
    hide Wanted, Flatten, InOrder, SortedBlocks, Users, Resolved;
    if s.builder == null {
      NothingPublished(dirty);
    } else {
      LookupIsScanExactly(s.Carried(), dirty);
    }
  }

  lemma NothingPublished(dirty: seq<DirtyPosition>)
    ensures Flatten(PairsOf(dirty), map[]) == Wanted([], set p | p in PairsOf(dirty)) == [] && InOrder(dirty, map[])
  {
    hide Selected, Flatten;
    assert Filled(map[]) == {};
    NoneSelected(PairsOf(dirty));
  }

  lemma {:induction false} NoneSelected(ks: seq<Key>)
    ensures Selected(ks, {}) == [] && Flatten<Row>(ks, map[]) == []
  {
    if ks != [] { NoneSelected(ks[..|ks| - 1]); }
  }

  function Selected(ks: seq<Key>, want: set<Key>): seq<Key> {
    if ks == [] then []
    else Selected(ks[..|ks| - 1], want) + if ks[|ks| - 1] in want then [ks[|ks| - 1]] else []
  }

  lemma {:induction false} SelectedAscends(ks: seq<Key>, want: set<Key>)
    requires Ascends(ks)
    ensures Ascends(Selected(ks, want))
    ensures forall k :: k in Selected(ks, want) <==> k in ks && k in want
  {
    hide KeyLess;
    if ks != [] {
      var t, k := ks[..|ks| - 1], ks[|ks| - 1];
      AscendsInit(ks);
      SelectedAscends(t, want);
      assert ks == t + [k];
      var s := Selected(t, want);
      assert forall i :: 0 <= i < |s| ==> s[i] in s;
    }
  }

  lemma {:induction false} WantedAppend(a: seq<Row>, b: seq<Row>, want: set<Key>)
    ensures Wanted(a + b, want) == Wanted(a, want) + Wanted(b, want)
  {
    if b == [] {
      assert a + b == a;
    } else {
      assert (a + b)[..|a + b| - 1] == a + b[..|b| - 1];
      WantedAppend(a, b[..|b| - 1], want);
    }
  }

  lemma {:induction false} WantedBlock(rows: seq<Row>, owner: Key, want: set<Key>)
    requires forall r :: r in rows ==> RowOwner(r) == owner
    ensures Wanted(rows, want) == if owner in want then rows else []
  {
    if rows != [] {
      var init, last := rows[..|rows| - 1], rows[|rows| - 1];
      assert rows == init + [last];
      hide RowOwner;
      WantedBlock(init, owner, want);
    }
  }

  lemma {:induction false} WantedBlocks(ks: seq<Key>, blocks: map<Key, seq<Row>>, want: set<Key>)
    requires OwnedBy(blocks, RowOwner)
    ensures Wanted(Flatten(ks, blocks), want) == Flatten(Selected(ks, want), blocks)
  {
    if ks != [] {
      var t, k := ks[..|ks| - 1], ks[|ks| - 1];
      WantedBlocks(t, blocks, want);
      WantedAppend(Flatten(t, blocks), BlockAt(blocks, k), want);
      WantedBlock(BlockAt(blocks, k), k, want);
      assert Selected(t, want) + [] == Selected(t, want);
      FlattenAppend(Selected(t, want), [k], blocks);
      FlattenOne(k, blocks);
    }
  }

  /** Keys without rows add nothing. */
  lemma {:induction false} SkipEmpty(ks: seq<Key>, blocks: map<Key, seq<Row>>)
    ensures Flatten(ks, blocks) == Flatten(Selected(ks, Filled(blocks)), blocks)
  {
    if ks != [] {
      var t, k := ks[..|ks| - 1], ks[|ks| - 1];
      SkipEmpty(t, blocks);
      assert k !in Filled(blocks) ==> BlockAt(blocks, k) == [];
      hide Filled, BlockAt;
      assert Selected(t, Filled(blocks)) + [] == Selected(t, Filled(blocks));
      FlattenAppend(Selected(t, Filled(blocks)), [k], blocks);
      FlattenOne(k, blocks);
    }
  }

  lemma LastRow(ks: seq<Key>, blocks: map<Key, seq<Row>>)
    requires OwnedBy(blocks, RowOwner) && ks != [] && ks[|ks| - 1] in Filled(blocks)
    ensures var rows := Flatten(ks, blocks);
            rows != [] && RowOwner(rows[|rows| - 1]) == ks[|ks| - 1]
  {
    var block := blocks[ks[|ks| - 1]];
    assert block[|block| - 1] in block;
  }

  lemma DropLastBlock(t: seq<Key>, u: seq<Key>, k: Key, blocks: map<Key, seq<Row>>)
    requires Flatten(t + [k], blocks) == Flatten(u + [k], blocks)
    ensures Flatten(t, blocks) == Flatten(u, blocks)
  {
    hide Flatten;
    FlattenAppend(t, [k], blocks);
    FlattenAppend(u, [k], blocks);
    var f, g, h := Flatten(t, blocks), Flatten(u, blocks), Flatten([k], blocks);
    assert (f + h)[..|f|] == f && (g + h)[..|g|] == g;
  }

  /** Owned, non-empty blocks can be read off their concatenation. */
  lemma {:induction false} FlattenInjective(ks: seq<Key>, js: seq<Key>, blocks: map<Key, seq<Row>>)
    requires OwnedBy(blocks, RowOwner)
    requires (forall k <- ks :: k in Filled(blocks)) && (forall k <- js :: k in Filled(blocks))
    requires Flatten(ks, blocks) == Flatten(js, blocks)
    ensures ks == js
    decreases |ks|
  {
    hide OwnedBy, Filled, RowOwner;
    if ks != [] { LastRow(ks, blocks); }
    if js != [] { LastRow(js, blocks); }
    hide Flatten;
    if ks != [] && js != [] {
      var t, u, k := ks[..|ks| - 1], js[..|js| - 1], ks[|ks| - 1];
      assert ks == t + [k] && js == u + [k];
      DropLastBlock(t, u, k, blocks);
      FlattenInjective(t, u, blocks);
    } else {
      NoBlocks(blocks);
    }
  }

  lemma NoBlocks(blocks: map<Key, seq<Row>>)
    ensures Flatten([], blocks) == []
  {
  }

  /** Scanning the users for a set of pairs finds the filled blocks of the set, in order. */
  lemma ScanIsBlocks(b: Mirror, want: set<Key>)
    requires Resolved(b)
    ensures Wanted(Users(b), want) == Flatten(Ascending(want * Filled(SortedBlocks(b))), SortedBlocks(b))
  {
    hide Users, Resolved, SortedBlocks, KeyLess, OwnedBy;
    var ks, blocks := Ascending(b.pending.Keys), SortedBlocks(b);
    BlocksAreTheGlobalSort(b);
    SortedBlockFacts(b);
    WantedBlocks(ks, blocks, want);
    SelectedAscends(ks, want);
    SkipEmpty(Selected(ks, want), blocks);
    SelectedAscends(Selected(ks, want), Filled(blocks));
    BlockKeys(b);
    AscendsUnique(Selected(Selected(ks, want), Filled(blocks)), Ascending(want * Filled(blocks)));
  }

  lemma {:induction false} SelectedMembers(ks: seq<Key>, want: set<Key>)
    ensures forall k :: k in Selected(ks, want) <==> k in ks && k in want
  {
    if ks != [] {
      var t, k := ks[..|ks| - 1], ks[|ks| - 1];
      assert ks == t + [k];
      SelectedMembers(t, want);
    }
  }

  /** For any list, the lookups find what the scan finds, in the same order, just when the pairs that have rows are listed
      once each and in order. */
  lemma LookupIsScanExactly(b: Mirror, dirty: seq<DirtyPosition>)
    requires Resolved(b)
    ensures Flatten(PairsOf(dirty), SortedBlocks(b)) == Wanted(Users(b), set p | p in PairsOf(dirty))
       <==> InOrder(dirty, SortedBlocks(b))
  {
    hide Users, Resolved, SortedBlocks, KeyLess, OwnedBy, Wanted, Filled, Ascends;
    var ps, blocks := PairsOf(dirty), SortedBlocks(b);
    var filled := Filled(blocks);
    var want := set p | p in ps;
    ScanIsBlocks(b, want);
    SkipEmpty(ps, blocks);
    SelectedMembers(ps, filled);
    SortedBlockFacts(b);
    var listed, sorted := Selected(ps, filled), Ascending(want * filled);
    if Flatten(ps, blocks) == Wanted(Users(b), want) {
      FlattenInjective(listed, sorted, blocks);
    }
    if Ascends(listed) {
      AscendsUnique(listed, sorted);
    }
  }

  /** For the dirty list of a ledger, looking the pairs up in the cache and scanning all users give the same rows in the
      same order. */
  lemma LookupIsScan(b: Mirror, dirty: set<Key>, live: set<Key>)
    requires Resolved(b)
    ensures var ds := DirtyList(dirty, live);
            && InOrder(ds, SortedBlocks(b))
            && Flatten(PairsOf(ds), SortedBlocks(b)) == Wanted(Users(b), set p | p in PairsOf(ds))
  {
    hide Users, Resolved, SortedBlocks, KeyLess, Wanted, Filled;
    var ds := DirtyList(dirty, live);
    assert PairsOf(ds) == Ascending(dirty);
    SelectedAscends(Ascending(dirty), Filled(SortedBlocks(b)));
    LookupIsScanExactly(b, ds);
  }

  lemma BlockKeys(b: Mirror)
    ensures SortedBlocks(b).Keys == b.pending.Keys
  {
  }
}
