// The position pass of the reconciler (backend/execution/reconciler.py), with the
// corporate-action gate it drives: it reads the table once, compares it with the
// broker, and commits once at the end, while other writers work on the same rows.
module Reconciler {
  import opened Orders
  import opened CorporateActions
  import opened Reals

  datatype Position = Position(id: nat, qty: int, avg: real, updatedAt: Option<int>)

  datatype Holding = Holding(qty: int, avg: real)

  type Table = map<Symbol, Position>

  const PRICE_TOLERANCE := 0.01
  const STALE_MIN_AGE: int := 3600

  datatype Gap =
    | MissingInDb | Appeared | QtyPending | QtyMismatch | CorporateJump(confirmed: bool)
    | ChangedMeanwhile | StalePending | StaleTooYoung | StaleInDb

  datatype Change = Keep | Put(row: Position) | Drop

  // What the pass does about one symbol; `jump` is a corporate action it records.
  datatype Verdict = Verdict(gap: Option<Gap>, change: Change, jump: Option<Action>)

  const NOTHING := Verdict(None, Keep, None)

  function Row(t: Table, s: Symbol): Option<Position> {
    if s in t then Some(t[s]) else None
  }

  // `snapshot` is the row read at the start, `live` the row when it is locked: other
  // writers may have been at it in between. Once locked it stays until the commit.
  datatype Context = Context(
    broker: map<Symbol, Holding>, snapshot: Table, pending: set<Symbol>,
    now: int, today: int, newIds: Symbol -> nat, hasGate: bool, dryRun: bool)

  function Age(c: Context, row: Position): int {
    if row.updatedAt.Some? then c.now - row.updatedAt.value else 0
  }

  predicate PriceDrifts(row: Position, h: Holding) {
    Abs(row.avg - h.avg) > PRICE_TOLERANCE
  }

  ghost function TagFor(c: Context, s: Symbol, row: Position, h: Holding): Option<Action> {
    if c.hasGate then Some(JumpAction(s, row.qty, row.avg, h.qty, h.avg, c.today)) else None
  }

  function JumpGap(tag: Option<Action>): Gap {
    if tag.None? then QtyMismatch else CorporateJump(tag.value.status == Confirmed)
  }

  // A row that no longer is what the pass read is left for the next pass.
  function Guarded(c: Context, live: Option<Position>, row: Position, v: Verdict): Verdict {
    if c.dryRun then v.(change := Keep, jump := None)
    else if live != Some(row) then Verdict(Some(ChangedMeanwhile), Keep, None)
    else v
  }

  ghost function Judge(c: Context, s: Symbol, live: Option<Position>): Verdict {
    if s in c.broker then
      var h := c.broker[s];
      if s !in c.snapshot then
        if c.dryRun then Verdict(Some(MissingInDb), Keep, None)
        else if live.Some? then Verdict(Some(Appeared), Keep, None)
        else Verdict(Some(MissingInDb), Put(Position(c.newIds(s), h.qty, h.avg, Some(c.now))), None)
      else
        var row := c.snapshot[s];
        if row.qty != h.qty then
          if s in c.pending then Verdict(Some(QtyPending), Keep, None)
          else
            var tag := TagFor(c, s, row, h);
            Guarded(c, live, row, Verdict(Some(JumpGap(tag)),
                                          Put(row.(qty := h.qty, avg := h.avg, updatedAt := Some(c.now))), tag))
        else if PriceDrifts(row, h) then
          Guarded(c, live, row, Verdict(None, Put(row.(avg := h.avg, updatedAt := Some(c.now))), None))
        else NOTHING
    else if s in c.snapshot then
      var row := c.snapshot[s];
      if s in c.pending then Verdict(Some(StalePending), Keep, None)
      else if Age(c, row) < STALE_MIN_AGE then Verdict(Some(StaleTooYoung), Keep, None)
      else Guarded(c, live, row, Verdict(Some(StaleInDb), Drop, None))
    else NOTHING
  }

  function After(change: Change, live: Option<Position>): Option<Position> {
    match change
    case Keep => live
    case Put(row) => Some(row)
    case Drop => None
  }

  // The gate after the pass, for one symbol: a recorded jump stays unless it was
  // confirmed and the positions were committed.
  predicate Cleared(jump: Action, committed: bool) { jump.status == Confirmed && committed }

  function WithHeld(pending: seq<Action>, jump: Option<Action>, committed: bool): seq<Action> {
    if jump.None? then pending
    else if Cleared(jump.value, committed) then WithoutFirst(pending + [jump.value], jump.value)
    else pending + [jump.value]
  }

  ghost function JudgeAt(c: Context, t: Table, s: Symbol): Verdict {
    Judge(c, s, Row(t, s))
  }

  ghost function Verdicts(c: Context, t: Table): Symbol -> Verdict {
    (s: Symbol) => JudgeAt(c, t, s)
  }

  // The outcome of a pass: every symbol by its own verdict, whatever order they come
  // in, and nothing at all in the table unless the one commit succeeds.
  ghost predicate Outcome(vs: Symbol -> Verdict, before: Table, after: Table, gate: Registry, gate': Registry,
                          gaps: map<Symbol, Gap>, committed: bool)
  {
    && (forall s :: s in gaps <==> vs(s).gap.Some?)
    && (forall s :: s in gaps ==> vs(s).gap == Some(gaps[s]))
    && (forall s :: Row(after, s) == if committed then After(vs(s).change, Row(before, s)) else Row(before, s))
    && (forall s :: PendingFor(gate', s) == WithHeld(PendingFor(gate, s), vs(s).jump, committed))
  }

  ghost predicate Passed(c: Context, before: Table, after: Table, gate: Registry, gate': Registry,
                         gaps: map<Symbol, Gap>, committed: bool)
  {
    Outcome(Verdicts(c, before), before, after, gate, gate', gaps, committed)
  }

  // One symbol of either loop; `live` is what `_lock_unchanged` reads.
  method Examine(c: Context, s: Symbol, live: Option<Position>) returns (v: Verdict)
    requires (s in c.broker || s in c.snapshot)
    ensures v == Judge(c, s, live)
  {
    if s in c.broker {
      var h := c.broker[s];
      if s !in c.snapshot {
        if c.dryRun { return Verdict(Some(MissingInDb), Keep, None); }
        if live.Some? { return Verdict(Some(Appeared), Keep, None); }
        return Verdict(Some(MissingInDb), Put(Position(c.newIds(s), h.qty, h.avg, Some(c.now))), None);
      }
      var row := c.snapshot[s];
      if row.qty != h.qty {
        if s in c.pending { return Verdict(Some(QtyPending), Keep, None); }
        var tag := None;
        if c.hasGate {
          var a := ClassifyQuantityJump(s, row.qty, row.avg, h.qty, h.avg, c.today);
          tag := Some(a);
        }
        var gap := JumpGap(tag);
        if c.dryRun { return Verdict(Some(gap), Keep, None); }
        if live != Some(row) { return Verdict(Some(ChangedMeanwhile), Keep, None); }
        return Verdict(Some(gap), Put(row.(qty := h.qty, avg := h.avg, updatedAt := Some(c.now))), tag);
      }
      if !PriceDrifts(row, h) || c.dryRun { return NOTHING; }
      if live != Some(row) { return Verdict(Some(ChangedMeanwhile), Keep, None); }
      return Verdict(None, Put(row.(avg := h.avg, updatedAt := Some(c.now))), None);
    }
    var row := c.snapshot[s];
    if s in c.pending { return Verdict(Some(StalePending), Keep, None); }
    if Age(c, row) < STALE_MIN_AGE { return Verdict(Some(StaleTooYoung), Keep, None); }
    if c.dryRun { return Verdict(Some(StaleInDb), Keep, None); }
    if live != Some(row) { return Verdict(Some(ChangedMeanwhile), Keep, None); }
    return Verdict(Some(StaleInDb), Drop, None);
  }

  // What a jump's action must be for the gate's bookkeeping to be exact.
  lemma JumpIsApplicable(c: Context, t: Table, s: Symbol)
    requires JudgeAt(c, t, s).jump.Some?
    ensures var a := JudgeAt(c, t, s).jump.value;
            a.symbol == s && Classified(a) == a && (IsValid(a) <==> a.status == Confirmed)
            && s in c.broker && !c.dryRun
  {
    var row, h := c.snapshot[s], c.broker[s];
    ApplicableIffConfirmed(s, row.qty, row.avg, h.qty, h.avg, c.today);
  }

  function Committed(t: Table, staged: map<Symbol, Change>): Table {
    map s | s in t.Keys + staged.Keys && After(if s in staged then staged[s] else Keep, Row(t, s)).Some? ::
      After(if s in staged then staged[s] else Keep, Row(t, s)).value
  }

  // What the loops have collected once every symbol outside `todo` is examined.
  ghost predicate Collected(vs: Symbol -> Verdict, todo: set<Symbol>, gaps: map<Symbol, Gap>,
                            staged: map<Symbol, Change>, confirmed: map<Symbol, Action>)
  {
    && (forall s :: s in gaps <==> s !in todo && vs(s).gap.Some?)
    && (forall s :: s in gaps ==> vs(s).gap == Some(gaps[s]))
    && (forall s :: s in staged <==> s !in todo && vs(s).change != Keep)
    && (forall s :: s in staged ==> staged[s] == vs(s).change)
    && (forall s :: s in confirmed <==> s !in todo && Confirms(vs(s).jump))
    && (forall s :: s in confirmed ==> vs(s).jump == Some(confirmed[s]))
  }

  predicate Confirms(jump: Option<Action>) { jump.Some? && jump.value.status == Confirmed }

  ghost predicate Recorded(vs: Symbol -> Verdict, todo: set<Symbol>, start: Registry, gate: Registry) {
    forall s :: PendingFor(gate, s) ==
                  if s in todo then PendingFor(start, s) else WithHeld(PendingFor(start, s), vs(s).jump, false)
  }

  // Every recorded jump is about its own symbol, as it stands, and is valid when
  // confirmed.
  ghost predicate ProperJumps(vs: Symbol -> Verdict) {
    forall s :: vs(s).jump.Some? ==> Proper(vs(s).jump.value, s)
  }

  predicate Proper(a: Action, s: Symbol) {
    a.symbol == s && Classified(a) == a && (a.status == Confirmed ==> IsValid(a))
  }

  ghost predicate Judges(vs: Symbol -> Verdict, c: Context, t: Table) {
    forall s {:trigger JudgeAt(c, t, s)} :: vs(s) == JudgeAt(c, t, s)
  }

  ghost predicate Idle(vs: Symbol -> Verdict, todo: set<Symbol>) {
    forall s :: s !in todo ==> vs(s) == NOTHING
  }

  lemma VerdictsAreProper(c: Context, t: Table)
    ensures ProperJumps(Verdicts(c, t)) && Judges(Verdicts(c, t), c, t)
    ensures Idle(Verdicts(c, t), c.broker.Keys + c.snapshot.Keys)
  {
    forall s | Verdicts(c, t)(s).jump.Some? ensures Proper(Verdicts(c, t)(s).jump.value, s) {
      JumpIsApplicable(c, t, s);
    }
  }

  class PositionReconciler {
    var rows: Table
    var gate: Registry

    constructor (rows: Table)
      ensures this.rows == rows && gate == map[]
    {
      this.rows := rows;
      gate := map[];
    }

    // The table as the pass finds it when it locks is `rows`; what it read at the start
    // is `c.snapshot`. Recording a jump is durable at once; clearing it waits for the
    // commit.
    method ReconcilePositions(c: Context, commits: bool) returns (gaps: map<Symbol, Gap>, failed: bool)
      modifies this
      ensures Passed(c, old(rows), rows, old(gate), gate, gaps, commits && !c.dryRun)
      ensures failed <==> !commits && !c.dryRun
    {
      ghost var t, start, vs := rows, gate, Verdicts(c, rows);
      VerdictsAreProper(c, t);
      var staged, confirmed;
      gaps, staged, confirmed := ExamineAll(c, vs);
      if c.dryRun || !commits {
        NothingCommitted(vs, t, start, gate, gaps, staged, confirmed);
        return gaps, !c.dryRun;
      }
      rows := Committed(rows, staged);
      CollectedIsClearable(vs, gaps, staged, confirmed);
      ghost var recorded := gate;
      ClearGate(confirmed);
      AllCommitted(vs, t, start, recorded, gate, gaps, staged, confirmed);
      failed := false;
    }

    // The broker's symbols first, then the table's others; inside each, any order.
    method ExamineAll(c: Context, ghost vs: Symbol -> Verdict)
      returns (gaps: map<Symbol, Gap>, staged: map<Symbol, Change>, confirmed: map<Symbol, Action>)
      requires Judges(vs, c, rows) && Idle(vs, c.broker.Keys + c.snapshot.Keys)
      modifies `gate
      ensures Collected(vs, {}, gaps, staged, confirmed) && Recorded(vs, {}, old(gate), gate)
    {
      gaps, staged, confirmed := map[], map[], map[];
      var todo := c.broker.Keys + c.snapshot.Keys;
      NothingYet(vs, todo, gate);
      while todo != {}
        invariant todo <= c.broker.Keys + c.snapshot.Keys
        invariant Collected(vs, todo, gaps, staged, confirmed) && Recorded(vs, todo, old(gate), gate)
        decreases |todo|
      {
        var held := todo * c.broker.Keys;
        var s :| s in todo && (held == {} || s in held);
        assert todo == (todo - {s}) + {s};
        todo := todo - {s};
        gaps, staged, confirmed := ExamineNext(c, vs, old(gate), todo, s, gaps, staged, confirmed);
      }
    }

    method ExamineNext(c: Context, ghost vs: Symbol -> Verdict, ghost start: Registry, ghost todo: set<Symbol>,
                       s: Symbol, gaps: map<Symbol, Gap>, staged: map<Symbol, Change>, confirmed: map<Symbol, Action>)
      returns (gaps': map<Symbol, Gap>, staged': map<Symbol, Change>, confirmed': map<Symbol, Action>)
      requires Judges(vs, c, rows)
      requires s !in todo && (s in c.broker || s in c.snapshot)
      requires Collected(vs, todo + {s}, gaps, staged, confirmed) && Recorded(vs, todo + {s}, start, gate)
      modifies `gate
      ensures Collected(vs, todo, gaps', staged', confirmed') && Recorded(vs, todo, start, gate)
    {
      var v := Examine(c, s, Row(rows, s));
      assert v == JudgeAt(c, rows, s);
      CollectStep(vs, todo, s, v, gaps, staged, confirmed);
      gaps' := if v.gap.Some? then gaps[s := v.gap.value] else gaps;
      staged' := if v.change != Keep then staged[s := v.change] else staged;
      confirmed' := if Confirms(v.jump) then confirmed[s := v.jump.value] else confirmed;
      ghost var before := gate;
      if v.jump.Some? {
        JumpIsApplicable(c, rows, s);
        Record(v.jump.value, s);
      }
      RecordStep(vs, todo, s, start, before, gate);
    }

    method Record(a: Action, ghost s: Symbol)
      requires Proper(a, s)
      modifies `gate
      ensures gate == Added(old(gate), a)
    {
      gate := Added(gate, Classified(a));
    }

    // mark_applied: what cannot be applied stays in the gate.
    method MarkApplied(a: Action)
      modifies `gate
      ensures gate == if IsValid(a) then Removed(old(gate), a) else old(gate)
    {
      if IsValid(a) { gate := Removed(gate, a); }
    }

    // For every confirmed jump, one pending copy of it is taken out.
    method ClearGate(confirmed: map<Symbol, Action>)
      requires Clearable(confirmed)
      modifies `gate
      ensures forall s :: PendingFor(gate, s) == Without(PendingFor(old(gate), s), confirmed, {}, s)
    {
      var todo := confirmed.Keys;
      while todo != {}
        invariant todo <= confirmed.Keys
        invariant forall s :: PendingFor(gate, s) == Without(PendingFor(old(gate), s), confirmed, todo, s)
        decreases |todo|
      {
        var s :| s in todo;
        todo := todo - {s};
        RemovedFrom(gate, confirmed[s]);
        MarkApplied(confirmed[s]);
      }
    }
  }

  lemma RemovedFrom(gate: Registry, a: Action)
    ensures PendingFor(Removed(gate, a), a.symbol) == WithoutFirst(PendingFor(gate, a.symbol), a)
    ensures forall s :: s != a.symbol ==> PendingFor(Removed(gate, a), s) == PendingFor(gate, s)
  {
    if a !in PendingFor(gate, a.symbol) { NothingToRemove(PendingFor(gate, a.symbol), a); }
  }

  ghost predicate Clearable(confirmed: map<Symbol, Action>) {
    forall s :: s in confirmed ==> confirmed[s].symbol == s && IsValid(confirmed[s])
  }

  ghost function Without(pending: seq<Action>, confirmed: map<Symbol, Action>, todo: set<Symbol>,
                         s: Symbol): seq<Action>
  {
    if s in confirmed && s !in todo then WithoutFirst(pending, confirmed[s]) else pending
  }

  lemma NothingYet(vs: Symbol -> Verdict, todo: set<Symbol>, gate: Registry)
    requires Idle(vs, todo)
    ensures Collected(vs, todo, map[], map[], map[]) && Recorded(vs, todo, gate, gate)
  {
  }

  lemma CollectStep(vs: Symbol -> Verdict, todo: set<Symbol>, s: Symbol, v: Verdict, gaps: map<Symbol, Gap>,
                    staged: map<Symbol, Change>, confirmed: map<Symbol, Action>)
    requires s !in todo && Collected(vs, todo + {s}, gaps, staged, confirmed) && v == vs(s)
    ensures Collected(vs, todo,
                      if v.gap.Some? then gaps[s := v.gap.value] else gaps,
                      if v.change != Keep then staged[s := v.change] else staged,
                      if Confirms(v.jump) then confirmed[s := v.jump.value] else confirmed)
  {
  }

  lemma RecordStep(vs: Symbol -> Verdict, todo: set<Symbol>, s: Symbol, start: Registry, gate: Registry,
                   gate': Registry)
    requires s !in todo && Recorded(vs, todo + {s}, start, gate)
    requires forall r :: r != s ==> PendingFor(gate', r) == PendingFor(gate, r)
    requires PendingFor(gate', s) == WithHeld(PendingFor(gate, s), vs(s).jump, false)
    ensures Recorded(vs, todo, start, gate')
  {
    forall r
      ensures PendingFor(gate', r) ==
                if r in todo then PendingFor(start, r) else WithHeld(PendingFor(start, r), vs(r).jump, false)
    {
      if r == s { assert PendingFor(gate, s) == PendingFor(start, s); } else { assert r in todo <==> r in todo + {s}; }
    }
  }

  lemma NothingCommitted(vs: Symbol -> Verdict, t: Table, start: Registry, gate: Registry, gaps: map<Symbol, Gap>,
                         staged: map<Symbol, Change>, confirmed: map<Symbol, Action>)
    requires Collected(vs, {}, gaps, staged, confirmed) && Recorded(vs, {}, start, gate)
    ensures Outcome(vs, t, t, start, gate, gaps, false)
  {
  }

  lemma AllCommitted(vs: Symbol -> Verdict, t: Table, start: Registry, recorded: Registry, gate: Registry,
                     gaps: map<Symbol, Gap>, staged: map<Symbol, Change>, confirmed: map<Symbol, Action>)
    requires Collected(vs, {}, gaps, staged, confirmed) && Recorded(vs, {}, start, recorded)
    requires forall s :: PendingFor(gate, s) == Without(PendingFor(recorded, s), confirmed, {}, s)
    ensures Outcome(vs, t, Committed(t, staged), start, gate, gaps, true)
  {
    forall s ensures PendingFor(gate, s) == WithHeld(PendingFor(start, s), vs(s).jump, true) {
      ClearedAt(vs, s, start, recorded, gate, gaps, staged, confirmed);
    }
    forall s ensures Row(Committed(t, staged), s) == After(vs(s).change, Row(t, s)) {
      CommittedAt(vs, s, t, gaps, staged, confirmed);
    }
  }

  lemma ClearedAt(vs: Symbol -> Verdict, s: Symbol, start: Registry, recorded: Registry, gate: Registry,
                  gaps: map<Symbol, Gap>, staged: map<Symbol, Change>, confirmed: map<Symbol, Action>)
    requires Collected(vs, {}, gaps, staged, confirmed) && Recorded(vs, {}, start, recorded)
    requires PendingFor(gate, s) == Without(PendingFor(recorded, s), confirmed, {}, s)
    ensures PendingFor(gate, s) == WithHeld(PendingFor(start, s), vs(s).jump, true)
  {
    HeldAfter(PendingFor(start, s), vs(s).jump);
    assert PendingFor(recorded, s) == WithHeld(PendingFor(start, s), vs(s).jump, false);
    assert s in confirmed <==> Confirms(vs(s).jump);
  }

  lemma CommittedAt(vs: Symbol -> Verdict, s: Symbol, t: Table, gaps: map<Symbol, Gap>,
                    staged: map<Symbol, Change>, confirmed: map<Symbol, Action>)
    requires Collected(vs, {}, gaps, staged, confirmed)
    ensures Row(Committed(t, staged), s) == After(vs(s).change, Row(t, s))
  {
    assert s in staged <==> vs(s).change != Keep;
  }

  lemma CollectedIsClearable(vs: Symbol -> Verdict, gaps: map<Symbol, Gap>, staged: map<Symbol, Change>,
                             confirmed: map<Symbol, Action>)
    requires Collected(vs, {}, gaps, staged, confirmed) && ProperJumps(vs)
    ensures Clearable(confirmed)
  {
    forall s | s in confirmed ensures confirmed[s].symbol == s && IsValid(confirmed[s]) {
      assert Proper(vs(s).jump.value, s);
    }
  }

  lemma HeldAfter(before: seq<Action>, jump: Option<Action>)
    ensures Confirms(jump) ==> WithoutFirst(WithHeld(before, jump, false), jump.value) == WithHeld(before, jump, true)
    ensures !Confirms(jump) ==> WithHeld(before, jump, false) == WithHeld(before, jump, true)
  {
  }

  // ── What a pass achieves ────────────────────────────────────────────────────

  // The table agrees with the broker on a symbol.
  predicate Agrees(row: Option<Position>, h: Option<Holding>) {
    match h
    case None => row.None?
    case Some(holding) => row.Some? && row.value.qty == holding.qty && !PriceDrifts(row.value, holding)
  }

  function HoldingOf(c: Context, s: Symbol): Option<Holding> {
    if s in c.broker then Some(c.broker[s]) else None
  }

  // What makes a pass leave a mismatch for later: an order that may still be moving
  // the position, or a vanished position whose row is younger than an hour.
  predicate HeldBack(c: Context, s: Symbol) {
    s in c.snapshot &&
    if s in c.broker then c.snapshot[s].qty != c.broker[s].qty && s in c.pending
    else s in c.pending || Age(c, c.snapshot[s]) < STALE_MIN_AGE
  }

  // Averages further apart than a cent.
  predicate Drifts(x: real, y: real) { x > y + 0.01 || x < y - 0.01 }

  // The row was written at least an hour ago, and it is known when.
  predicate AnHourOld(row: Position, now: int) { row.updatedAt.Some? && row.updatedAt.value + 3600 <= now }

  // What the pass would change the row for: the broker's figures, or that there are none.
  predicate Outdated(c: Context, s: Symbol, row: Position) {
    if s !in c.broker then s !in c.pending && AnHourOld(row, c.now)
    else if row.qty != c.broker[s].qty then s !in c.pending
    else Drifts(row.avg, c.broker[s].avg)
  }

  // What becomes of a row, by what it becomes. It is only written when it still is, or still
  // is not, what the pass read; it then has the broker's figures, and a corporate action is
  // recorded with it exactly when its quantity changed and there is a gate.
  lemma ChangeMeans(c: Context, t: Table, s: Symbol)
    ensures var v := JudgeAt(c, t, s); var row := Row(c.snapshot, s); var free := !c.dryRun && Row(t, s) == row;
            && (v.change == Drop <==> free && row.Some? && s !in c.broker && Outdated(c, s, row.value))
            && (v.change.Put? <==> free && s in c.broker && (row.None? || Outdated(c, s, row.value)))
            && (v.change.Put? ==>
                  v.change.row == Position(if row.Some? then row.value.id else c.newIds(s),
                                           c.broker[s].qty, c.broker[s].avg, Some(c.now)))
            && (v.jump.Some? <==> v.change.Put? && row.Some? && row.value.qty != c.broker[s].qty && c.hasGate)
  {
  }

  // What is reported of a symbol, by what is reported.
  lemma GapMeans(c: Context, t: Table, s: Symbol)
    ensures var gap := JudgeAt(c, t, s).gap;
            var row := Row(c.snapshot, s);
            var held, known, moved := s in c.broker, row.Some?, Row(t, s) != row && !c.dryRun;
            var differs := held && known && row.value.qty != c.broker[s].qty;
            && (gap == Some(MissingInDb) <==> held && !known && !moved)
            && (gap == Some(Appeared) <==> held && !known && moved)
            && (gap == Some(QtyPending) <==> differs && s in c.pending)
            && (gap == Some(QtyMismatch) <==> differs && s !in c.pending && !moved && !c.hasGate)
            && (gap.Some? && gap.value.CorporateJump? <==> differs && s !in c.pending && !moved && c.hasGate)
            && (gap == Some(CorporateJump(true)) ==>
                  LooksSplit(row.value.qty, c.broker[s].qty)
                  && SameValue(row.value.qty, row.value.avg, c.broker[s].qty, c.broker[s].avg))
            && (gap == Some(CorporateJump(false)) ==>
                  !(LooksSplit(row.value.qty, c.broker[s].qty)
                    && SameValue(row.value.qty, row.value.avg, c.broker[s].qty, c.broker[s].avg)))
            && (gap == Some(ChangedMeanwhile) <==> known && moved && Outdated(c, s, row.value))
            && (gap == Some(StalePending) <==> !held && known && s in c.pending)
            && (gap == Some(StaleTooYoung) <==> !held && known && s !in c.pending && !AnHourOld(row.value, c.now))
            && (gap == Some(StaleInDb) <==> !held && known && !moved && Outdated(c, s, row.value))
  {
    if s in c.broker && s in c.snapshot {
      var row, h := c.snapshot[s], c.broker[s];
      ConfirmedIff(s, row.qty, row.avg, h.qty, h.avg, c.today);
    }
  }

  lemma VerdictAgreesIff(c: Context, s: Symbol, t: Table)
    requires !c.dryRun && Row(t, s) == Row(c.snapshot, s)
    ensures Agrees(After(JudgeAt(c, t, s).change, Row(t, s)), HoldingOf(c, s)) <==>
              Agrees(Row(t, s), HoldingOf(c, s)) || !HeldBack(c, s)
  {
  }

  // With nobody else writing, a committed pass leaves a symbol in agreement with the
  // broker - quantities equal, averages within 0.01, no row for what is not held -
  // exactly when it agreed before or nothing held it back.
  lemma ConvergesIff(c: Context, t: Table, t': Table, gate: Registry, gate': Registry, gaps: map<Symbol, Gap>,
                     s: Symbol)
    requires Passed(c, t, t', gate, gate', gaps, true) && !c.dryRun && t == c.snapshot
    ensures Agrees(Row(t', s), HoldingOf(c, s)) <==> Agrees(Row(t, s), HoldingOf(c, s)) || !HeldBack(c, s)
  {
    VerdictAgreesIff(c, s, t);
    assert Verdicts(c, t)(s) == JudgeAt(c, t, s);
  }

  lemma AgreesIsQuiet(c: Context, t: Table, s: Symbol)
    requires c.snapshot == t && Agrees(Row(t, s), HoldingOf(c, s))
    ensures JudgeAt(c, t, s) == NOTHING
  {
  }

  // So when nothing holds anything back, a second pass that sees the same broker finds
  // no gap, changes no row and records no corporate action, whatever else changed.
  lemma SecondPassIsQuiet(c: Context, t: Table, t': Table, gate: Registry, gate': Registry, gaps: map<Symbol, Gap>,
                          c2: Context, t'': Table, gate'': Registry, gaps2: map<Symbol, Gap>, committed: bool)
    requires Passed(c, t, t', gate, gate', gaps, true) && !c.dryRun && t == c.snapshot
    requires forall s :: !HeldBack(c, s)
    requires c2.broker == c.broker && c2.snapshot == t' && Passed(c2, t', t'', gate', gate'', gaps2, committed)
    ensures gaps2 == map[] && t'' == t' && forall s :: PendingFor(gate'', s) == PendingFor(gate', s)
  {
    forall s ensures s !in gaps2 && Row(t'', s) == Row(t', s) && PendingFor(gate'', s) == PendingFor(gate', s) {
      ConvergesIff(c, t, t', gate, gate', gaps, s);
      AgreesIsQuiet(c2, t', s);
      assert Verdicts(c2, t')(s) == NOTHING;
    }
    SameRows(t', t'');
  }

  lemma SameRows(t: Table, u: Table)
    requires forall s :: Row(u, s) == Row(t, s)
    ensures u == t
  {
    forall s ensures (s in u <==> s in t) && (s in t ==> u[s] == t[s]) {
      assert Row(u, s) == Row(t, s);
    }
  }

  // A row another writer moved on after the snapshot - changed, created or deleted -
  // is left exactly as that writer left it, and no corporate action is recorded for it.
  lemma OtherWritersWin(c: Context, t: Table, t': Table, gate: Registry, gate': Registry, gaps: map<Symbol, Gap>,
                        committed: bool, s: Symbol)
    requires Passed(c, t, t', gate, gate', gaps, committed) && Row(t, s) != Row(c.snapshot, s)
    ensures Row(t', s) == Row(t, s) && PendingFor(gate', s) == PendingFor(gate, s)
    ensures s in gaps ==> gaps[s] in {Appeared, QtyPending, ChangedMeanwhile, StalePending, StaleTooYoung}
                          || c.dryRun
  {
    JudgedAgainstOthers(c, t, s);
    assert Verdicts(c, t)(s) == JudgeAt(c, t, s);
  }

  lemma JudgedAgainstOthers(c: Context, t: Table, s: Symbol)
    requires Row(t, s) != Row(c.snapshot, s)
    ensures JudgeAt(c, t, s).change == Keep && JudgeAt(c, t, s).jump == None
    ensures var g := JudgeAt(c, t, s).gap;
            g.Some? && !c.dryRun ==>
              g.value in {Appeared, QtyPending, ChangedMeanwhile, StalePending, StaleTooYoung}
  {
  }

  // A dry run changes no position and records nothing.
  lemma DryRunChangesNothing(c: Context, t: Table, t': Table, gate: Registry, gate': Registry, gaps: map<Symbol, Gap>,
                             committed: bool)
    requires Passed(c, t, t', gate, gate', gaps, committed) && c.dryRun
    ensures t' == t && forall s :: PendingFor(gate', s) == PendingFor(gate, s)
  {
    forall s ensures Row(t', s) == Row(t, s) && PendingFor(gate', s) == PendingFor(gate, s) {
      DryVerdict(c, t, s);
      assert Verdicts(c, t)(s) == JudgeAt(c, t, s);
    }
    SameRows(t, t');
  }

  lemma DryVerdict(c: Context, t: Table, s: Symbol)
    requires c.dryRun
    ensures JudgeAt(c, t, s).change == Keep && JudgeAt(c, t, s).jump == None
  {
  }

  // ── When a symbol trades again ──────────────────────────────────────────────

  predicate Blocked(gate: Registry, s: Symbol) { PendingFor(gate, s) != [] }

  lemma HeldIsBlockedIff(pending: seq<Action>, jump: Option<Action>, committed: bool)
    ensures WithHeld(pending, jump, committed) != [] <==>
              pending != [] || (jump.Some? && !Cleared(jump.value, committed))
    ensures multiset(pending) <= multiset(WithHeld(pending, jump, committed))
  {
    if jump.Some? { OneCopyLess(pending + [jump.value], jump.value); }
    if jump.Some? && Cleared(jump.value, committed) {
      var w := WithoutFirst(pending + [jump.value], jump.value);
      assert multiset(w) == multiset(pending);
      assert w == [] ==> |multiset(w)| == 0;
      assert pending != [] ==> pending[0] in multiset(pending);
    }
  }

  // After a pass a symbol is blocked exactly when it was before, or the pass saw its
  // quantity jump and did not both confirm it and commit the positions.
  lemma BlockedAfterIff(c: Context, t: Table, t': Table, gate: Registry, gate': Registry, gaps: map<Symbol, Gap>,
                        committed: bool, s: Symbol)
    requires Passed(c, t, t', gate, gate', gaps, committed)
    ensures var jump := Verdicts(c, t)(s).jump;
            Blocked(gate', s) <==> Blocked(gate, s) || (jump.Some? && !Cleared(jump.value, committed))
  {
    HeldIsBlockedIff(PendingFor(gate, s), Verdicts(c, t)(s).jump, committed);
  }

  // A pass that finds a symbol free and its quantity changed, with nobody else writing,
  // leaves it free exactly when it committed and the jump was a split to the broker's
  // figures: a known ratio, and the book value kept.
  lemma JumpBlocksIff(c: Context, t: Table, t': Table, gate: Registry, gate': Registry, gaps: map<Symbol, Gap>,
                      committed: bool, s: Symbol)
    requires Passed(c, t, t', gate, gate', gaps, committed) && c.hasGate && !c.dryRun
    requires PendingFor(gate, s) == [] && s in c.broker && s in c.snapshot && Row(t, s) == Row(c.snapshot, s)
    requires c.snapshot[s].qty != c.broker[s].qty && s !in c.pending
    ensures var row, h := c.snapshot[s], c.broker[s];
            PendingFor(gate', s) == [] <==>
              committed && LooksSplit(row.qty, h.qty) && SameValue(row.qty, row.avg, h.qty, h.avg)
  {
    var row, h := c.snapshot[s], c.broker[s];
    ConfirmedIff(s, row.qty, row.avg, h.qty, h.avg, c.today);
    JumpJudged(c, t, s);
    BlockedAfterIff(c, t, t', gate, gate', gaps, committed, s);
  }

  lemma JumpJudged(c: Context, t: Table, s: Symbol)
    requires c.hasGate && !c.dryRun && s in c.broker && s in c.snapshot && Row(t, s) == Row(c.snapshot, s)
    requires c.snapshot[s].qty != c.broker[s].qty && s !in c.pending
    ensures var row, h := c.snapshot[s], c.broker[s];
            Verdicts(c, t)(s).jump == Some(JumpAction(s, row.qty, row.avg, h.qty, h.avg, c.today))
  {
    assert Verdicts(c, t)(s) == JudgeAt(c, t, s);
  }

  // A run of passes, each with its own snapshot, broker answer and other writers in
  // between, as one symbol sees it: the jumps it recorded and whether it committed.
  datatype PassSeen = PassSeen(jump: Option<Action>, committed: bool)

  function GateAfter(pending: seq<Action>, passes: seq<PassSeen>): seq<Action>
    decreases |passes|
  {
    if passes == [] then pending
    else GateAfter(WithHeld(pending, passes[0].jump, passes[0].committed), passes[1..])
  }

  predicate LeftPending(p: PassSeen) { p.jump.Some? && !Cleared(p.jump.value, p.committed) }

  // Over any run of passes: tradeable at the end exactly when it was at the start and
  // every jump was confirmed in a pass that committed. In particular a jump recorded by
  // a pass whose commit failed keeps the symbol blocked even after a later pass has
  // applied the same jump: recording it again leaves one copy too many.
  lemma {:induction false} TradeableIff(pending: seq<Action>, passes: seq<PassSeen>)
    ensures GateAfter(pending, passes) == [] <==>
              pending == [] && forall i :: 0 <= i < |passes| ==> !LeftPending(passes[i])
    decreases |passes|
  {
    if passes != [] {
      var first := passes[0];
      HeldIsBlockedIff(pending, first.jump, first.committed);
      TradeableIff(WithHeld(pending, first.jump, first.committed), passes[1..]);
      assert forall i :: 0 < i < |passes| ==> passes[i] == passes[1..][i - 1];
      assert LeftPending(first) <==> LeftPending(passes[0]);
      if forall i :: 0 <= i < |passes[1..]| ==> !LeftPending(passes[1..][i]) {
        forall i | 0 <= i < |passes| ensures LeftPending(passes[i]) ==> i == 0 {
          if i > 0 { assert passes[i] == passes[1..][i - 1]; }
        }
      } else {
        var i :| 0 <= i < |passes[1..]| && LeftPending(passes[1..][i]);
        assert LeftPending(passes[i + 1]);
      }
    }
  }
}
