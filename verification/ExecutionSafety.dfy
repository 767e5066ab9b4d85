/** What holds over every run of the submission protocol: at most one fill per order id, the order
    of statuses, and when automatic reconciliation tells the truth. */
module ExecutionSafety {
  import opened Common
  import opened ExecutionStore
  import opened BrokerTags
  import opened ExecutionProtocol

  /** For the records the engine writes, the dictionary store and the table store agree. */
  lemma PutsAgree(m: Records, r: Record, now: int)
    requires WellKeyed(m)
    requires r.createdAt.Some? ==> r.clientOrderId in m && r.createdAt == m[r.clientOrderId].createdAt
    ensures InMemoryPut(m, r, now) == SqlitePut(m, r, now)
    ensures WellKeyed(SqlitePut(m, r, now))
  {
  }

  // ----- the order of statuses -------------------------------------------------------------

  /** What may become of the record of one id in one step; `submits` says whose step it is. */
  ghost predicate LegalMove(before: Records, after: Records, id: string, submits: bool) {
    && (id in before ==> id in after && after[id].createdAt == before[id].createdAt)
    && (id in after && (id !in before || after[id] != before[id]) ==>
          if submits then
            && (id in before ==> before[id].status == RESOLVED_NOT_FOUND)
            && after[id].status in {FILLED, UNKNOWN}
          else
            && id in before && before[id].status == UNKNOWN
            && after[id].status in {UNKNOWN, RESOLVED_FILLED, RESOLVED_NOT_FOUND})
  }

  /** A reconciliation pass only turns UNKNOWN records into RESOLVED_FILLED, each with the ticket
      of a listed position that carries its tag. */
  ghost predicate Reconciled(before: Records, after: Records, positions: seq<BrokerPosition>, crc: Checksum) {
    && after.Keys == before.Keys
    && forall id :: id in before && after[id] != before[id] ==>
         && before[id].status == UNKNOWN && after[id].status == RESOLVED_FILLED
         && after[id].clientOrderId == id && after[id].createdAt == before[id].createdAt
         && after[id].ticket.Some? && BrokerPosition(after[id].ticket.value, Tag(id, crc)) in positions
  }

  lemma {:induction false} ReconcileOnlyAdopts(
      store: Records, ids: seq<string>, positions: seq<BrokerPosition>, audits: nat, now: int, crc: Checksum)
    ensures Reconciled(store, Sweep(store, ids, positions, audits, now, crc).store, positions, crc)
  {
    if ids != [] {
      var m := Match(store, ids[0], positions, crc);
      if m.None? {
        ReconcileOnlyAdopts(store, ids[1..], positions, audits, now, crc);
      } else {
        ByTagFinds(positions, Tag(ids[0], crc));
        assert m.value == BrokerPosition(m.value.ticket, Tag(ids[0], crc));
        var store' := Adopt(store, ids[0], m.value.ticket, now);
        if audits != 0 {
          ReconcileOnlyAdopts(store', ids[1..], positions, audits - 1, now, crc);
        }
      }
    }
  }

  /** One iteration of a pass, at position i of its list of ids. */
  lemma SweepStep(
      store: Records, ids: seq<string>, i: nat, positions: seq<BrokerPosition>, audits: nat, now: int, crc: Checksum)
    requires i < |ids|
    ensures var m := Match(store, ids[i], positions, crc);
            Sweep(store, ids[i..], positions, audits, now, crc) ==
            if m.None? then Sweep(store, ids[i + 1..], positions, audits, now, crc)
            else if audits == 0 then Pass(Adopt(store, ids[i], m.value.ticket, now), true)
            else Sweep(Adopt(store, ids[i], m.value.ticket, now), ids[i + 1..], positions, audits - 1, now, crc)
  {
    assert ids[i..][0] == ids[i] && ids[i..][1..] == ids[i + 1..];
  }

  lemma SweepNothing(store: Records, positions: seq<BrokerPosition>, audits: nat, now: int, crc: Checksum)
    ensures Sweep(store, [], positions, audits, now, crc) == Pass(store, false)
  {
  }

  /** A pass that no audit write ends early resolves exactly the UNKNOWN orders whose tag
      is listed. */
  lemma {:induction false} SweepComplete(
      store: Records, ids: seq<string>, positions: seq<BrokerPosition>, audits: nat, now: int, crc: Checksum)
    requires !Sweep(store, ids, positions, audits, now, crc).raised
    requires forall i, j :: 0 <= i < j < |ids| ==> ids[i] != ids[j]
    ensures Sweep(store, ids, positions, audits, now, crc).store.Keys == store.Keys
    ensures forall id :: id in store && id !in ids ==>
            Sweep(store, ids, positions, audits, now, crc).store[id] == store[id]
    ensures forall id :: id in ids && id in store && store[id].status == UNKNOWN ==>
              (Sweep(store, ids, positions, audits, now, crc).store[id].status == RESOLVED_FILLED
               <==> exists p :: p in positions && p.comment == Tag(id, crc))
    ensures forall id :: id in ids && id in store && Match(store, id, positions, crc).Some? ==>
              Sweep(store, ids, positions, audits, now, crc).store[id].ticket
              == Some(Match(store, id, positions, crc).value.ticket)
  {
    if ids != [] {
      var m := Match(store, ids[0], positions, crc);
      ByTagFinds(positions, Tag(ids[0], crc));
      if m.None? {
        SweepComplete(store, ids[1..], positions, audits, now, crc);
      } else {
        SweepComplete(Adopt(store, ids[0], m.value.ticket, now), ids[1..], positions, audits - 1, now, crc);
      }
    }
  }

  /** Every step moves every record legally: only a submission may follow "never seen" or
      RESOLVED_NOT_FOUND, only UNKNOWN can be resolved, and the creation time never changes. */
  lemma StepsMoveLegally(s: State, step: Step, crc: Checksum, id: string)
    ensures LegalMove(s.store, Apply(s, step, crc).store, id, step.DoSubmit?)
  {
    if step.DoReconcile? {
      ReconcileOnlyAdopts(s.store, step.ids, step.positions, step.audits, step.now, crc);
    }
  }

  /** FILLED and RESOLVED_FILLED are absorbing over every run, whatever the broker and the
      operator do. */
  lemma {:induction false} FilledIsForever(s: State, steps: seq<Step>, crc: Checksum, id: string)
    requires id in s.store && s.store[id].status in {FILLED, RESOLVED_FILLED}
    ensures id in Run(s, steps, crc).store && Run(s, steps, crc).store[id] == s.store[id]
  {
    if steps != [] {
      var prefix := steps[..|steps| - 1];
      FilledIsForever(s, prefix, crc, id);
      StepsMoveLegally(Run(s, prefix, crc), steps[|steps| - 1], crc, id);
    }
  }

  // ----- at most one fill ------------------------------------------------------------------

  ghost predicate Inv(s: State, crc: Checksum) {
    && WellKeyed(s.store)
    && (forall id :: FillCount(s.fills, id) <= 1)
    && (forall id :: FillCount(s.fills, id) >= 1 ==> Blocked(s.store, id))
    && (forall id :: id in s.store && s.store[id].status == FILLED ==>
          s.store[id].ticket.Some? && Fill(id, s.store[id].ticket.value, Tag(id, crc)) in s.fills)
    && (forall f :: f in s.fills ==> f.comment == Tag(f.id, crc))
  }

  /** What an unblocked submission stores: at most the record of its own id, which then blocks. */
  lemma StoreReplyBlocks(store: Records, id: string, order: Order, reply: Reply, now: int)
    requires WellKeyed(store)
    ensures var store' := StoreReply(store, id, order, reply, now);
            && WellKeyed(store')
            && (forall k :: k != id ==> (k in store' <==> k in store) && (k in store ==> store'[k] == store[k]))
            && (Classify(reply).Refused? ==> store' == store)
            && (!Classify(reply).Refused? ==> Blocked(store', id) && store'[id].status in {UNKNOWN, FILLED})
            && (!Classify(reply).Refused? && store'[id].status == FILLED ==>
                  Classify(reply).Confirmed? && store'[id].ticket == Some(Classify(reply).ticket))
  {
  }

  /** The fill counts after one submission. */
  lemma CountsAfter(fills: seq<Fill>, f: Fill)
    ensures forall k :: FillCount(fills + [f], k) == FillCount(fills, k) + if k == f.id then 1 else 0
  {
    forall k
      ensures FillCount(fills + [f], k) == FillCount(fills, k) + if k == f.id then 1 else 0
    {
      FillCountSnoc(fills, f, k);
    }
  }

  /** The invariant survives one more fill of an id that was not blocked and now is. */
  lemma AddFill(s: State, s': State, id: string, truth: Option<int>, crc: Checksum)
    requires Inv(s, crc) && WellKeyed(s'.store) && !Blocked(s.store, id)
    requires s'.fills == s.fills + if truth.Some? then [Fill(id, truth.value, Tag(id, crc))] else []
    requires forall k :: k != id ==> (k in s'.store <==> k in s.store) && (k in s.store ==> s'.store[k] == s.store[k])
    requires truth.Some? ==> Blocked(s'.store, id)
    requires id in s'.store && s'.store[id].status == FILLED ==> truth.Some? && s'.store[id].ticket == truth
    ensures Inv(s', crc)
  {
    hide FillCount, Tag;
    assert FillCount(s.fills, id) == 0;
    if truth.Some? {
      CountsAfter(s.fills, Fill(id, truth.value, Tag(id, crc)));
    } else {
      assert s'.fills == s.fills;
    }
    assert forall f :: f in s.fills ==> f in s'.fills;
    forall k | k in s'.store && s'.store[k].status == FILLED
      ensures s'.store[k].ticket.Some? && Fill(k, s'.store[k].ticket.value, Tag(k, crc)) in s'.fills
    {
      if k == id {
        assert s'.fills[|s.fills|] == Fill(id, truth.value, Tag(id, crc));
      }
    }
  }

  lemma SubmitKeepsInv(
      s: State, id: string, order: Order, admitted: bool, truth: Option<int>, reply: Reply, now: int, crc: Checksum)
    requires Inv(s, crc) && Honest(truth, reply)
    ensures Inv(Submit(s, id, order, admitted, truth, reply, now, crc), crc)
  {
    if !Blocked(s.store, id) && admitted {
      var store' := StoreReply(s.store, id, order, reply, now);
      var added := if truth.Some? then [Fill(id, truth.value, Tag(id, crc))] else [];
      StoreReplyBlocks(s.store, id, order, reply, now);
      AddFill(s, State(store', s.fills + added), id, truth, crc);
    }
  }

  lemma ReconcileKeepsInv(s: State, step: Step, crc: Checksum)
    requires step.DoReconcile? && Inv(s, crc)
    ensures Inv(Apply(s, step, crc), crc)
  {
    hide Sweep, FillCount, Tag;
    ReconcileOnlyAdopts(s.store, step.ids, step.positions, step.audits, step.now, crc);
  }

  lemma ResolveKeepsInv(s: State, step: Step, crc: Checksum)
    requires step.DoResolve? && Inv(s, crc) && TruthfulNotFound(s, step)
    ensures Inv(Apply(s, step, crc), crc)
  {
    hide FillCount, Tag;
  }

  lemma StepKeepsInv(s: State, step: Step, crc: Checksum)
    requires Inv(s, crc) && Trusted(s, step)
    ensures Inv(Apply(s, step, crc), crc)
  {
    hide Inv, Submit, Sweep, Resolve, Honest, TruthfulNotFound;
    match step
    case DoSubmit(id, order, admitted, truth, reply, now) =>
      SubmitKeepsInv(s, id, order, admitted, truth, reply, now, crc);
    case DoReconcile(_, _, _, _) => ReconcileKeepsInv(s, step, crc);
    case DoResolve(_, _, _) => ResolveKeepsInv(s, step, crc);
    case DoRestart =>
  }

  lemma {:induction false} RunKeepsInv(s: State, steps: seq<Step>, crc: Checksum)
    requires Inv(s, crc) && TrustedRun(s, steps, crc)
    ensures Inv(Run(s, steps, crc), crc)
  {
    if steps != [] {
      RunKeepsInv(s, steps[..|steps| - 1], crc);
      StepKeepsInv(Run(s, steps[..|steps| - 1], crc), steps[|steps| - 1], crc);
    }
  }

  /** MAIN RESULT. Over every run from an empty table, with replies lost on either side of the
      fill, raising audits, restarts, reconciliation and operator resolutions, the broker fills
      no order id twice, provided definite replies and "not found" resolutions are truthful. */
  lemma AtMostOneFill(steps: seq<Step>, crc: Checksum, id: string)
    requires TrustedRun(EMPTY, steps, crc)
    ensures FillCount(Run(EMPTY, steps, crc).fills, id) <= 1
  {
    RunKeepsInv(EMPTY, steps, crc);
  }

  lemma RunOfOne(s: State, a: Step, crc: Checksum)
    ensures Run(s, [a], crc) == Apply(s, a, crc)
    ensures TrustedRun(s, [a], crc) <==> Trusted(s, a)
  {
    assert [a][..0] == [];
    assert Run(s, [], crc) == s && TrustedRun(s, [], crc);
  }

  lemma RunOfTwo(s: State, a: Step, b: Step, crc: Checksum)
    ensures Run(s, [a, b], crc) == Apply(Apply(s, a, crc), b, crc)
    ensures TrustedRun(s, [a, b], crc) <==> Trusted(s, a) && Trusted(Apply(s, a, crc), b)
  {
    assert [a, b][..1] == [a];
    RunOfOne(s, a, crc);
  }

  /** The hypothesis on "not found" is needed in every reachable state: if a filled order of
      unknown outcome is resolved as not found, the next admitted submission fills it again. */
  lemma UntruthfulNotFoundFillsTwice(
      s: State, id: string, e: Evidence, order: Order, ticket: int, now: int, crc: Checksum)
    requires FillCount(s.fills, id) == 1 && id in s.store && s.store[id].status == UNKNOWN
    requires ClaimsNotFound(e)
    ensures var again := DoSubmit(id, order, true, Some(ticket), Replied(true, Some(ticket), false, None), now);
            var steps := [DoResolve(id, e, now), again];
            Honest(again.truth, again.reply) && FillCount(Run(s, steps, crc).fills, id) == 2
  {
    var again := DoSubmit(id, order, true, Some(ticket), Replied(true, Some(ticket), false, None), now);
    var steps := [DoResolve(id, e, now), again];
    var mid := Apply(s, steps[0], crc);
    RunOfTwo(s, steps[0], again, crc);
    FillCountSnoc(mid.fills, Fill(id, ticket, Tag(id, crc)), id);
  }

  /** So is the table: a store that a restart empties lets the same id be filled again. */
  lemma ForgetfulRestartFillsTwice(s: State, id: string, order: Order, ticket: int, now: int, crc: Checksum)
    requires FillCount(s.fills, id) == 1
    ensures var s' := Submit(State(map[], s.fills), id, order, true, Some(ticket), Raised, now, crc);
            FillCount(s'.fills, id) == 2
  {
    FillCountSnoc(s.fills, Fill(id, ticket, Tag(id, crc)), id);
  }

  predicate DecidesNotFound(step: Step, id: string) {
    step.DoResolve? && step.id == id && ClaimsNotFound(step.evidence)
  }

  lemma StepKeepsBlocked(s: State, step: Step, crc: Checksum, id: string)
    requires Blocked(s.store, id) && !DecidesNotFound(step, id)
    ensures Blocked(Apply(s, step, crc).store, id)
    ensures FillCount(Apply(s, step, crc).fills, id) == FillCount(s.fills, id)
  {
    hide Sweep, Tag, FillCount;
    if step.DoReconcile? {
      ReconcileOnlyAdopts(s.store, step.ids, step.positions, step.audits, step.now, crc);
    } else if step.DoSubmit? && step.truth.Some? {
      FillCountSnoc(s.fills, Fill(step.id, step.truth.value, Tag(step.id, crc)), id);
    }
    assert s.fills + [] == s.fills;
  }

  /** RESULT. Once an order has been filled or its outcome is unknown, only a decision "not found"
      about it can make it go out again: over every run without one the id stays refused and is
      never filled another time, whatever the broker and the operator say. */
  lemma {:induction false} BlockedUntilNotFound(s: State, steps: seq<Step>, crc: Checksum, id: string)
    requires Blocked(s.store, id)
    requires forall i :: 0 <= i < |steps| ==> !DecidesNotFound(steps[i], id)
    ensures Blocked(Run(s, steps, crc).store, id)
    ensures FillCount(Run(s, steps, crc).fills, id) == FillCount(s.fills, id)
  {
    hide Apply, Blocked, FillCount, DecidesNotFound;
    if steps != [] {
      BlockedUntilNotFound(s, steps[..|steps| - 1], crc, id);
      StepKeepsBlocked(Run(s, steps[..|steps| - 1], crc), steps[|steps| - 1], crc, id);
    }
  }

  // ----- what the engine calls filled ------------------------------------------------------

  /** The broker lists only its own open positions and keeps their comments; a position the
      engine did not open carries no stored order's tag. */
  ghost predicate TruthfulListing(s: State, positions: seq<BrokerPosition>, crc: Checksum) {
    forall p :: p in positions ==>
      || (exists f :: f in s.fills && f.ticket == p.ticket && f.comment == p.comment)
      || (forall id :: id in s.store ==> p.comment != Tag(id, crc))
  }

  predicate TruthfulFilled(s: State, step: Step) {
    step.DoResolve? && ClaimsFilled(step.evidence) ==> FillCount(s.fills, step.id) >= 1
  }

  ghost predicate Attested(s: State, step: Step, crc: Checksum) {
    && Trusted(s, step) && TruthfulFilled(s, step)
    && (step.DoReconcile? ==> TruthfulListing(s, step.positions, crc) && TagsInjective(s.store.Keys, crc))
  }

  ghost predicate AttestedRun(s: State, steps: seq<Step>, crc: Checksum) {
    steps == [] ||
    (AttestedRun(s, steps[..|steps| - 1], crc) && Attested(Run(s, steps[..|steps| - 1], crc), steps[|steps| - 1], crc))
  }

  ghost predicate FilledMeansFilled(s: State) {
    forall id :: id in s.store && s.store[id].status in {FILLED, RESOLVED_FILLED} ==> FillCount(s.fills, id) == 1
  }

  lemma ReconcileTellsTheTruth(s: State, step: Step, crc: Checksum)
    requires Inv(s, crc) && FilledMeansFilled(s) && step.DoReconcile? && Attested(s, step, crc)
    ensures FilledMeansFilled(Apply(s, step, crc))
  {
    var s' := Apply(s, step, crc);
    ReconcileOnlyAdopts(s.store, step.ids, step.positions, step.audits, step.now, crc);
    forall id | id in s'.store && s'.store[id].status in {FILLED, RESOLVED_FILLED}
      ensures FillCount(s'.fills, id) == 1
    {
      if s'.store[id] != s.store[id] {
        var p := BrokerPosition(s'.store[id].ticket.value, Tag(id, crc));
        var f :| f in s.fills && f.ticket == p.ticket && f.comment == p.comment;
        CountedIsPresent(s.fills, f);
        assert f.id == id;
      }
    }
  }

  lemma SubmittedTruth(s: State, step: Step, crc: Checksum)
    requires Inv(s, crc) && FilledMeansFilled(s) && step.DoSubmit? && Honest(step.truth, step.reply)
    requires !Blocked(s.store, step.id) && step.admitted
    ensures FilledMeansFilled(Apply(s, step, crc))
  {
    hide Tag, FillCount, StoreReply, WellKeyed;
    var s' := Apply(s, step, crc);
    StoreReplyBlocks(s.store, step.id, step.order, step.reply, step.now);
    assert FillCount(s.fills, step.id) == 0;
    if step.truth.Some? {
      CountsAfter(s.fills, Fill(step.id, step.truth.value, Tag(step.id, crc)));
    } else {
      assert s'.fills == s.fills;
    }
  }

  lemma AttestedStepKeepsTruth(s: State, step: Step, crc: Checksum)
    requires Inv(s, crc) && FilledMeansFilled(s) && Attested(s, step, crc)
    ensures Inv(Apply(s, step, crc), crc) && FilledMeansFilled(Apply(s, step, crc))
  {
    hide Sweep, FillCount, Tag, StoreReply;
    StepKeepsInv(s, step, crc);
    if step.DoReconcile? {
      ReconcileTellsTheTruth(s, step, crc);
    } else if step.DoSubmit? && !Blocked(s.store, step.id) && step.admitted {
      SubmittedTruth(s, step, crc);
    }
  }

  lemma {:induction false} AttestedKeepsTruth(s: State, steps: seq<Step>, crc: Checksum)
    requires Inv(s, crc) && FilledMeansFilled(s) && AttestedRun(s, steps, crc)
    ensures Inv(Run(s, steps, crc), crc) && FilledMeansFilled(Run(s, steps, crc))
  {
    hide Inv, FilledMeansFilled, Attested, Apply;
    if steps != [] {
      AttestedKeepsTruth(s, steps[..|steps| - 1], crc);
      AttestedStepKeepsTruth(Run(s, steps[..|steps| - 1], crc), steps[|steps| - 1], crc);
    }
  }

  /** MAIN RESULT. When the broker lists truthfully, operator statements are truthful and no two
      stored ids share a tag at a reconciliation, then over every run exactly the orders called
      FILLED or RESOLVED_FILLED, or still UNKNOWN, can have been filled, and the first two kinds
      always have been, once. */
  lemma FilledExactly(steps: seq<Step>, crc: Checksum, id: string)
    requires AttestedRun(EMPTY, steps, crc)
    ensures var s := Run(EMPTY, steps, crc);
            && (id in s.store && s.store[id].status in {FILLED, RESOLVED_FILLED} ==> FillCount(s.fills, id) == 1)
            && (id !in s.store || s.store[id].status == RESOLVED_NOT_FOUND ==> FillCount(s.fills, id) == 0)
  {
    AttestedKeepsTruth(EMPTY, steps, crc);
  }

  lemma RunOfThree(s: State, a: Step, b: Step, c: Step, crc: Checksum)
    ensures Run(s, [a, b, c], crc) == Apply(Apply(Apply(s, a, crc), b, crc), c, crc)
    ensures TrustedRun(s, [a, b, c], crc) <==>
            Trusted(s, a) && Trusted(Apply(s, a, crc), b) && Trusted(Apply(Apply(s, a, crc), b, crc), c)
  {
    hide Apply, Trusted;
    assert [a, b, c][..2] == [a, b];
    RunOfTwo(s, a, b, crc);
  }

  lemma LostThenFilled(twin: string, long: string, order: Order, ticket: int, now: int, crc: Checksum)
    requires twin != long
    ensures var s := Submit(
                       Submit(EMPTY, twin, order, true, None, Raised, now, crc),
                       long, order, true, Some(ticket), Replied(true, Some(ticket), false, None), now, crc);
            && s.fills == [Fill(long, ticket, Tag(long, crc))]
            && twin in s.store && s.store[twin].status == UNKNOWN && s.store[twin].clientOrderId == twin
  {
    hide Tag;
  }

  lemma SweepOfOne(store: Records, id: string, p: BrokerPosition, now: int, crc: Checksum)
    requires id in store && store[id].status == UNKNOWN && p.comment == Tag(id, crc)
    ensures Sweep(store, [id], [p], 1, now, crc) == Pass(Adopt(store, id, p.ticket, now), false)
  {
    hide Tag, Adopt;
    assert ByTag([p], Tag(id, crc)) == Some(p);
    assert [id][1..] == [];
    SweepNothing(Adopt(store, id, p.ticket, now), [p], 0, now, crc);
  }

  /** Injective tags are needed: for every id too long for the comment there is a short id with
      the same tag, and if that one was lost unfilled, the long order's position resolves it as
      filled. */
  lemma SharedTagResolvesWrongly(long: string, order: Order, ticket: int, now: int, crc: Checksum)
    requires !Short(long)
    ensures var twin := Digest(long, crc);
            var steps := [
              DoSubmit(twin, order, true, None, Raised, now),
              DoSubmit(long, order, true, Some(ticket), Replied(true, Some(ticket), false, None), now),
              DoReconcile([twin], [BrokerPosition(ticket, Tag(long, crc))], 1, now)];
            var s := Run(EMPTY, steps, crc);
            && TrustedRun(EMPTY, steps, crc)
            && twin in s.store && s.store[twin].status == RESOLVED_FILLED && FillCount(s.fills, twin) == 0
  {
    var twin := Digest(long, crc);
    var position := BrokerPosition(ticket, Tag(long, crc));
    var a := DoSubmit(twin, order, true, None, Raised, now);
    var b := DoSubmit(long, order, true, Some(ticket), Replied(true, Some(ticket), false, None), now);
    var c := DoReconcile([twin], [position], 1, now);
    hide Run, TrustedRun, Tag, Sweep, Digest;
    RunOfThree(EMPTY, a, b, c, crc);
    TagsCollideIff(long, twin, crc);
    var s1 := Apply(EMPTY, a, crc);
    var s2 := Apply(s1, b, crc);
    LostThenFilled(twin, long, order, ticket, now, crc);
    SweepOfOne(s2.store, twin, position, now, crc);
    assert s2.fills[..0] == [];
  }
}
