/** Execution authorization: admission against every budget dimension, and what later moves do to the budget. */
module Budget {
  import opened Text
  import Sums

  const RESERVATION_TTL: int := 15 * MINUTE

  datatype State =
    | Reserved | AuthorizationLive | CommittedSafe | CommittedFinalized | Consumed | Restored | Released
        | ReleasedAfterExpiry | ReorgedBack

  datatype Dimension = Dimension(id: string, limit: string, refundable: bool)

  datatype Request = Request(reservationID: string, operationID: string, amount: string, dimensions: seq<Dimension>,
        expiresAt: Time)

  /** A reservation row with its dimension rows; `refundable` has one entry per dimension. */
  datatype Reservation = Reservation(operationID: string, organizationID: string, amount: nat, state: State,
        refundable: map<string, bool>, expiresAt: Time)

  datatype Verdict = Valid(reservationID: string) | Invalid(reason: string)

  datatype Authorization = Authorization(authorizationID: string, verdict: Verdict)

  /** Authorizations are keyed by intent, which is unique. */
  datatype Ledger = Ledger(reservations: map<string, Reservation>, authorizations: map<string, Authorization>)

  datatype Input = Input(authorizationID: string, intentID: string, wellFormed: bool, reservation: Request)

  datatype Check = Pass | Refuse(reason: string) | Fault

  /** Answers from outside this code: the intent's organization, approval, local revalidation and capacity. */
  datatype Answers = Answers(organizationID: Option<string>, approval: Check, revalidation: Check, capacity: bool)

  datatype Error = InvalidInput | AlreadyEvaluated | NotApproved | BudgetExceeded | Unavailable | Conflict

  datatype Result = Done(authorization: Authorization) | Failed(error: Error, current: Option<Authorization>)

  // ---------- Amounts ----------

  const TWO_TO_THE_128: nat := 0x1_0000_0000_0000_0000_0000_0000_0000_0000
  const TWO_TO_THE_256: nat := TWO_TO_THE_128 * TWO_TO_THE_128

  /** A canonical positive decimal of at most 256 bits. */
  function PositiveInteger(s: string): Option<nat> {
    if s == "" || s[0] == '0' || (exists i | 0 <= i < |s| :: !('0' <= s[i] <= '9')) then None
    else if DecimalValue(s) == 0 || DecimalValue(s) >= TWO_TO_THE_256 then None
    else Some(DecimalValue(s))
  }

  predicate ValidID(id: string) {
    0 < |id| <= 256 && !Space(id[0] as int) && !Space(id[|id| - 1] as int)
  }

  predicate ValidReservation(r: Request) {
    && PositiveInteger(r.amount).Some? && r.dimensions != []
    && (forall i | 0 <= i < |r.dimensions| ::
          && PositiveInteger(r.dimensions[i].limit).Some? && ValidID(r.dimensions[i].id)
          && PositiveInteger(r.amount).value <= PositiveInteger(r.dimensions[i].limit).value)
    && (forall i, j | 0 <= i < j < |r.dimensions| :: r.dimensions[i].id != r.dimensions[j].id)
  }

  // ---------- What a dimension has counted ----------

  predicate Open(s: State) {
    s != Released && s != ReleasedAfterExpiry
  }

  predicate Counts(s: State, refundable: bool) {
    Open(s) && !(s == Restored && refundable)
  }

  function Share(r: Reservation, organizationID: string, dimension: string): nat {
    if r.organizationID == organizationID && dimension in r.refundable && Counts(r.state, r.refundable[dimension])
        then r.amount else 0
  }

  /** What each reservation counts against a dimension of an organization. */
  ghost function Shares(reservations: map<string, Reservation>, organizationID: string,
        dimension: string): map<string, nat> {
    map id | id in reservations :: Share(reservations[id], organizationID, dimension)
  }

  ghost function Sum(reservations: map<string, Reservation>, keys: set<string>, organizationID: string,
        dimension: string): nat
    requires keys <= reservations.Keys
  {
    Sums.Sum(Shares(reservations, organizationID, dimension), keys)
  }

  /** The amounts that count against a dimension of an organization. */
  ghost function Counted(reservations: map<string, Reservation>, organizationID: string, dimension: string): nat {
    Sum(reservations, reservations.Keys, organizationID, dimension)
  }

  lemma TakeOne(reservations: map<string, Reservation>, keys: set<string>, k: string, organizationID: string,
        dimension: string)
    requires keys <= reservations.Keys && k in keys
    ensures Sum(reservations, keys, organizationID, dimension) ==
        Share(reservations[k], organizationID, dimension) + Sum(reservations, keys - {k}, organizationID, dimension)
  {
    Sums.SumWithout(Shares(reservations, organizationID, dimension), keys, k);
  }

  /** Replacing or adding one reservation changes a total by the difference of its shares. */
  lemma CountedAfter(m: map<string, Reservation>, id: string, r: Reservation, organizationID: string, dimension: string)
    ensures Counted(m[id := r], organizationID, dimension)
            == Counted(m, organizationID, dimension)
               - (if id in m then Share(m[id], organizationID, dimension) else 0) + Share(r, organizationID, dimension)
  {
    hide Share;
    var n := m[id := r];
    TakeOne(n, n.Keys, id, organizationID, dimension);
    assert n.Keys - {id} == m.Keys - {id};
    Sums.SumSame(Shares(m, organizationID, dimension), Shares(n, organizationID, dimension), m.Keys - {id});
    if id in m { TakeOne(m, m.Keys, id, organizationID, dimension); } else { assert m.Keys - {id} == m.Keys; }
  }

  // ---------- Admission ----------

  ghost predicate Fits(reservations: map<string, Reservation>, organizationID: string, r: Request, i: nat)
    requires ValidReservation(r) && i < |r.dimensions|
  {
    var d := r.dimensions[i];
    Counted(reservations, organizationID, d.id) + PositiveInteger(r.amount).value <= PositiveInteger(d.limit).value
  }

  ghost predicate AllFit(reservations: map<string, Reservation>, organizationID: string, r: Request)
    requires ValidReservation(r)
  {
    forall i | 0 <= i < |r.dimensions| :: Fits(reservations, organizationID, r, i)
  }

  function Row(organizationID: string, r: Request): Reservation
    requires ValidReservation(r)
  {
    Reservation(r.operationID, organizationID, PositiveInteger(r.amount).value, Reserved,
                map i | 0 <= i < |r.dimensions| :: r.dimensions[i].id := r.dimensions[i].refundable, r.expiresAt)
  }

  /** reservation_id and operation_id are unique. */
  predicate IsNew(reservations: map<string, Reservation>, r: Request) {
    r.reservationID !in reservations && forall k | k in reservations :: reservations[k].operationID != r.operationID
  }

  predicate IDIsNew(authorizations: map<string, Authorization>, authorizationID: string) {
    forall k | k in authorizations :: authorizations[k].authorizationID != authorizationID
  }

  predicate Admissible(input: Input, now: Time) {
    && input.wellFormed && input.reservation.operationID == input.intentID
    && now < input.reservation.expiresAt <= now + RESERVATION_TTL && ValidReservation(input.reservation)
  }

  function Record(l: Ledger, input: Input, v: Verdict): (Ledger, Result) {
    var a := Authorization(input.authorizationID, v);
    if !IDIsNew(l.authorizations, input.authorizationID) then (l, Failed(Conflict, None))
    else (l.(authorizations := l.authorizations[input.intentID := a]), Done(a))
  }

  /** validateAndReserveOnce. A refusal is recorded; a fault, a conflict or missing capacity leaves no trace. */
  ghost function Evaluate(l: Ledger, input: Input, answers: Answers, now: Time): (Ledger, Result) {
    if !Admissible(input, now) then (l, Failed(InvalidInput, None))
    else if input.intentID in l.authorizations
        then (l, Failed(AlreadyEvaluated, Some(l.authorizations[input.intentID])))
    else if answers.organizationID.None? then (l, Failed(InvalidInput, None))
    else if answers.approval.Fault? || (answers.approval.Pass? && answers.revalidation.Fault?)
        then (l, Failed(Unavailable, None))
    else if answers.approval.Refuse? then Record(l, input, Invalid(answers.approval.reason))
    else if answers.revalidation.Refuse? then Record(l, input, Invalid(answers.revalidation.reason))
    else if !AllFit(l.reservations, answers.organizationID.value, input.reservation)
        then Record(l, input, Invalid("budget exceeded"))
    else if !IsNew(l.reservations, input.reservation) || !IDIsNew(l.authorizations, input.authorizationID)
        then (l, Failed(Conflict, None))
    else if !answers.capacity then (l, Failed(Unavailable, None))
    else
      Record(l.(reservations := l.reservations[input.reservation.reservationID :=
          Row(answers.organizationID.value, input.reservation)]),
             input, Valid(input.reservation.reservationID))
  }

  // ---------- Moves ----------

  datatype Step =
    | Evaluated(input: Input, answers: Answers, now: Clock)
    | Activated(reservationID: string)
    | Freed(reservationID: string)                           // refusal or expiry
    | LockConfirmed(reservationID: string, finalized: bool)
    | ReleaseFinalized(reservationID: string)
    | RefundFinalized(reservationID: string)
    | LockReorged(reservationID: string)                     // a finalized transaction left the chain again
    | ReleaseReorged(reservationID: string)
    | RefundReorged(reservationID: string)

  function MoveTo(l: Ledger, id: string, target: State): Ledger
    requires id in l.reservations
  {
    l.(reservations := l.reservations[id := l.reservations[id].(state := target)])
  }

  /** The states a step moves a reservation out of, and where to. */
  function Move(step: Step): (set<State>, State)
    requires !step.Evaluated?
  {
    match step
    case Activated(_) => ({Reserved}, AuthorizationLive)
    case Freed(_) => ({Reserved}, Released)
    case LockConfirmed(_, finalized) => ({AuthorizationLive, CommittedSafe}, if finalized then CommittedFinalized
        else CommittedSafe)
    case ReleaseFinalized(_) => ({CommittedFinalized}, Consumed)
    case RefundFinalized(_) => ({CommittedFinalized}, Restored)
    case LockReorged(_) => ({CommittedFinalized, Consumed, Restored}, ReorgedBack)
    case ReleaseReorged(_) => ({Consumed}, CommittedFinalized)
    case RefundReorged(_) => ({Restored}, CommittedFinalized)
  }

  ghost function Next(l: Ledger, step: Step): Ledger {
    if step.Evaluated? then Evaluate(l, step.input, step.answers, step.now).0
    else
      var id := step.reservationID;
      if id in l.reservations && l.reservations[id].state in Move(step).0 then MoveTo(l, id, Move(step).1) else l
  }

  ghost function Run(steps: seq<Step>): Ledger {
    if |steps| == 0 then Ledger(map[], map[]) else Next(Run(steps[..|steps| - 1]), steps[|steps| - 1])
  }

  // ---------- Conservation ----------

  /** Every request states the same limit for the same dimension of an organization. */
  ghost predicate FixedLimits(limits: (string, string) -> nat, steps: seq<Step>) {
    forall k | 0 <= k < |steps| :: StatesLimits(limits, steps[k])
  }

  predicate StatesLimits(limits: (string, string) -> nat, step: Step) {
    step.Evaluated? && step.answers.organizationID.Some? && ValidReservation(step.input.reservation) ==>
      LimitsAre(limits, step.answers.organizationID.value, step.input.reservation)
  }

  predicate LimitsAre(limits: (string, string) -> nat, organizationID: string, r: Request)
    requires ValidReservation(r)
  {
    forall i | 0 <= i < |r.dimensions| :: PositiveInteger(r.dimensions[i].limit).value
        == limits(organizationID, r.dimensions[i].id)
  }

  ghost predicate WithinLimits(limits: (string, string) -> nat, l: Ledger) {
    forall organizationID: string, dimension: string ::
      Counted(l.reservations, organizationID, dimension) <= limits(organizationID, dimension)
  }

  lemma EmptyCounts(organizationID: string, dimension: string)
    ensures Counted(map[], organizationID, dimension) == 0
  {
  }

  /**
    A move keeps a total within a limit exactly when it does not count an uncounted reservation anew, or there
    is room for it.
   */
  lemma MoveWithin(l: Ledger, id: string, target: State, organizationID: string, dimension: string, limit: nat)
    requires id in l.reservations && Counted(l.reservations, organizationID, dimension) <= limit
    ensures var r := l.reservations[id];
            Counted(MoveTo(l, id, target).reservations, organizationID, dimension) <= limit <==>
              || Share(r.(state := target), organizationID, dimension) == 0
              || Share(r, organizationID, dimension) == r.amount
              || Counted(l.reservations, organizationID, dimension) + r.amount <= limit
  {
    hide Counted;
    CountedAfter(l.reservations, id, l.reservations[id].(state := target), organizationID, dimension);
  }

  lemma AdmissionFits(l: Ledger, organizationID: string, r: Request, limits: (string, string) -> nat)
    requires ValidReservation(r) && AllFit(l.reservations, organizationID, r) && r.reservationID !in l.reservations
    requires LimitsAre(limits, organizationID, r) && WithinLimits(limits, l)
    ensures WithinLimits(limits, l.(reservations := l.reservations[r.reservationID := Row(organizationID, r)]))
  {
    hide Counted;
    var n := l.reservations[r.reservationID := Row(organizationID, r)];
    forall o, d ensures Counted(n, o, d) <= limits(o, d) {
      CountedAfter(l.reservations, r.reservationID, Row(organizationID, r), o, d);
      if o == organizationID && d in Row(organizationID, r).refundable {
        var i :| 0 <= i < |r.dimensions| && r.dimensions[i].id == d;
        assert Fits(l.reservations, organizationID, r, i);
      }
    }
  }

  /** An admitted request counts in full in each of its dimensions, and nowhere else. */
  lemma AdmissionCounts(l: Ledger, input: Input, answers: Answers, now: Time, organizationID: string, dimension: string)
    requires Evaluate(l, input, answers, now).1.Done? && Evaluate(l, input, answers, now).1.authorization.verdict.Valid?
    ensures answers.organizationID.Some? && ValidReservation(input.reservation)
    ensures Counted(Evaluate(l, input, answers, now).0.reservations, organizationID, dimension)
            == Counted(l.reservations, organizationID, dimension)
               + (if organizationID == answers.organizationID.value
                   && HasDimension(input.reservation, dimension)
                       then PositiveInteger(input.reservation.amount).value else 0)
  {
    hide Counted, AllFit, PositiveInteger, ValidID, IDIsNew;
    var r := input.reservation;
    CountedAfter(l.reservations, r.reservationID, Row(answers.organizationID.value, r), organizationID, dimension);
  }

  predicate HasDimension(r: Request, dimension: string) {
    exists i | 0 <= i < |r.dimensions| :: r.dimensions[i].id == dimension
  }

  /** The step counts a refunded reservation anew. */
  predicate Recounts(l: Ledger, step: Step) {
    (step.LockReorged? || step.RefundReorged?) && step.reservationID in l.reservations
        && l.reservations[step.reservationID].state == Restored
  }

  /** There is room for the reservation in every dimension its refund had freed. */
  ghost predicate HasRoom(limits: (string, string) -> nat, l: Ledger, id: string)
    requires id in l.reservations
  {
    var r := l.reservations[id];
    forall d: string | d in r.refundable && r.refundable[d] ::
      Counted(l.reservations, r.organizationID, d) + r.amount <= limits(r.organizationID, d)
  }

  /** One step keeps every limit exactly when it counts nothing anew or finds room for what it counts. */
  lemma StepConserves(l: Ledger, step: Step, limits: (string, string) -> nat)
    requires WithinLimits(limits, l) && StatesLimits(limits, step)
    ensures WithinLimits(limits, Next(l, step)) <==> (Recounts(l, step) ==> HasRoom(limits, l, step.reservationID))
  {
    hide Counted, ValidReservation, AllFit, LimitsAre;
    var v := Next(l, step);
    if step.Evaluated? {
      if v.reservations != l.reservations { AdmissionFits(l, step.answers.organizationID.value, step.input.reservation,
          limits); }
    } else if v != l {
      MoveConserves(l, step, limits);
    }
  }

  lemma MoveConserves(l: Ledger, step: Step, limits: (string, string) -> nat)
    requires !step.Evaluated? && step.reservationID in l.reservations
        && l.reservations[step.reservationID].state in Move(step).0
    requires WithinLimits(limits, l)
    ensures WithinLimits(limits, Next(l, step)) <==> (Recounts(l, step) ==> HasRoom(limits, l, step.reservationID))
  {
    hide Counted;
    var id, v := step.reservationID, Next(l, step);
    var r := l.reservations[id];
    forall o, d ensures Counted(v.reservations, o, d) <= limits(o, d) <==>
                          (Recounts(l, step) && o == r.organizationID && d in r.refundable && r.refundable[d] ==>
                             Counted(l.reservations, o, d) + r.amount <= limits(o, d)) {
      MoveWithin(l, id, Move(step).1, o, d, limits(o, d));
    }
  }

  /**
    Over every interleaving of evaluations, activations, refusals, expiries, settlements and reorganizations, no
    dimension ever counts more than its limit if and only if every reorganization of a refunded reservation, of its
    lock or of its refund, finds room in every dimension the refund had freed. The code does not ask for that room.
   */
  lemma {:induction false} BudgetIsConserved(steps: seq<Step>, limits: (string, string) -> nat)
    requires FixedLimits(limits, steps)
    ensures (forall k | 0 <= k <= |steps| :: WithinLimits(limits, Run(steps[..k]))) <==>
            (forall k | 0 <= k < |steps| && Recounts(Run(steps[..k]), steps[k]) ::
               HasRoom(limits, Run(steps[..k]), steps[k].reservationID))
  {
    hide Counted, Next, StatesLimits, WithinLimits, HasRoom, Recounts;
    if |steps| == 0 {
      assert WithinLimits(limits, Run([])) by { NothingCounted(limits); }
      assert steps[..0] == [];
    } else {
      var n := |steps| - 1;
      var before := steps[..n];
      assert forall k | 0 <= k <= n :: before[..k] == steps[..k];
      assert forall k | 0 <= k < n :: before[k] == steps[k];
      assert steps[..n + 1] == steps;
      BudgetIsConserved(before, limits);
      if WithinLimits(limits, Run(before)) { StepConserves(Run(before), steps[n], limits); }
      assert before[..n] == before;
    }
  }

  lemma NothingCounted(limits: (string, string) -> nat)
    ensures WithinLimits(limits, Ledger(map[], map[]))
  {
    forall o, d ensures Counted(map[], o, d) <= limits(o, d) { EmptyCounts(o, d); }
  }

  /** In particular, runs in which no refunded reservation is reorganized keep every limit. */
  lemma UndisturbedRefundsConserve(steps: seq<Step>, limits: (string, string) -> nat)
    requires FixedLimits(limits, steps) && forall k | 0 <= k < |steps| :: !Recounts(Run(steps[..k]), steps[k])
    ensures WithinLimits(limits, Run(steps))
  {
    BudgetIsConserved(steps, limits);
    assert steps[..|steps|] == steps;
  }

  /** What one such reorganization does to one dimension: the whole amount is counted again. */
  lemma ReorgCountsAgain(l: Ledger, step: Step, dimension: string)
    requires Recounts(l, step)
    requires var r := l.reservations[step.reservationID]; dimension in r.refundable && r.refundable[dimension]
    ensures var r := l.reservations[step.reservationID];
            Counted(Next(l, step).reservations, r.organizationID, dimension)
            == Counted(l.reservations, r.organizationID, dimension) + r.amount
  {
    hide Counted;
    var r := l.reservations[step.reservationID];
    CountedAfter(l.reservations, step.reservationID, r.(state := Move(step).1), r.organizationID, dimension);
  }

  // ---------- A run that overcommits ----------

  function SampleRequest(reservationID: string, intentID: string): Request {
    Request(reservationID, intentID, "6", [Dimension("day", "10", true)], 2)
  }

  function SampleEvaluation(authorizationID: string, reservationID: string, intentID: string): Step {
    Evaluated(Input(authorizationID, intentID, true, SampleRequest(reservationID, intentID)),
        Answers(Some("org"), Pass, Pass, true), 1)
  }

  /** 6 are locked and refunded, 6 more are admitted into the freed room of a limit of 10. */
  function SampleRun(): seq<Step> {
    [SampleEvaluation("a1", "r1", "i1"), Activated("r1"), LockConfirmed("r1", true), RefundFinalized("r1"),
     SampleEvaluation("a2", "r2", "i2")]
  }

  function SampleRow(intentID: string, state: State): Reservation {
    Reservation(intentID, "org", 6, state, map["day" := true], 2)
  }

  lemma SampleAdmits(l: Ledger, authorizationID: string, reservationID: string, intentID: string)
    requires intentID !in l.authorizations && IDIsNew(l.authorizations, authorizationID)
    requires reservationID !in l.reservations
        && (forall k | k in l.reservations :: l.reservations[k].operationID != intentID)
    requires Counted(l.reservations, "org", "day") <= 4
    ensures var v := Next(l, SampleEvaluation(authorizationID, reservationID, intentID));
            && v.reservations == l.reservations[reservationID := SampleRow(intentID, Reserved)]
            && v.authorizations == l.authorizations[intentID := Authorization(authorizationID, Valid(reservationID))]
  {
    hide Counted;
    var r := SampleRequest(reservationID, intentID);
    SampleIsValid(r);
    assert Fits(l.reservations, "org", r, 0);
    assert Row("org", r) == SampleRow(intentID, Reserved) by { SampleIsRow(reservationID, intentID); }
  }

  lemma SampleIsValid(r: Request)
    requires r.amount == "6" && r.dimensions == [Dimension("day", "10", true)]
    ensures ValidReservation(r) && PositiveInteger("6") == Some(6) && PositiveInteger("10") == Some(10)
  {
    assert DecimalValue("6") == 6;
    assert "10"[..1] == "1";
    assert DecimalValue("1") == 1;
    assert DecimalValue("10") == 10;
  }

  lemma SampleIsRow(reservationID: string, intentID: string)
    requires ValidReservation(SampleRequest(reservationID, intentID))
    ensures Row("org", SampleRequest(reservationID, intentID)) == SampleRow(intentID, Reserved)
  {
    SampleIsValid(SampleRequest(reservationID, intentID));
    var m := Row("org", SampleRequest(reservationID, intentID)).refundable;
    assert SampleRequest(reservationID, intentID).dimensions[0].id == "day";
    assert m == map["day" := true];
  }

  lemma RunThen(steps: seq<Step>, step: Step)
    ensures Run(steps + [step]) == Next(Run(steps), step)
  {
    hide Next;
    assert (steps + [step])[..|steps|] == steps;
  }

  lemma SampleRefunds()
    ensures var l := Run(SampleRun()[..4]);
            && l.reservations == map["r1" := SampleRow("i1", Restored)]
            && l.authorizations == map["i1" := Authorization("a1", Valid("r1"))]
  {
    hide Counted, Next;
    var s := SampleRun();
    EmptyCounts("org", "day");
    assert Run([]) == Ledger(map[], map[]);
    SampleAdmits(Run([]), "a1", "r1", "i1");
    RunThen([], s[0]);
    RunThen([s[0]], s[1]);
    RunThen([s[0], s[1]], s[2]);
    RunThen([s[0], s[1], s[2]], s[3]);
    assert s[..4] == [] + [s[0]] + [s[1]] + [s[2]] + [s[3]];
    assert [] + [s[0]] == [s[0]] && [s[0]] + [s[1]] == [s[0], s[1]] && [s[0], s[1]] + [s[2]] == [s[0], s[1], s[2]];
    SampleMoves(Run([s[0]]));
  }

  lemma SampleMoves(l: Ledger)
    requires "r1" in l.reservations && l.reservations["r1"] == SampleRow("i1", Reserved)
    ensures Next(Next(Next(l, Activated("r1")), LockConfirmed("r1", true)), RefundFinalized("r1"))
            == l.(reservations := l.reservations["r1" := SampleRow("i1", Restored)])
  {
  }

  lemma SampleStates()
    ensures var l := Run(SampleRun());
            && "r1" in l.reservations && l.reservations["r1"] == SampleRow("i1", Restored)
            && Counted(l.reservations, "org", "day") == 6
  {
    hide Counted, Next;
    var before := Run(SampleRun()[..4]);
    SampleRefunds();
    EmptyCounts("org", "day");
    CountedAfter(map[], "r1", SampleRow("i1", Restored), "org", "day");
    assert map[]["r1" := SampleRow("i1", Restored)] == before.reservations;
    SampleAdmits(before, "a2", "r2", "i2");
    RunThen(SampleRun()[..4], SampleRun()[4]);
    assert SampleRun()[..4] + [SampleRun()[4]] == SampleRun();
    CountedAfter(before.reservations, "r2", SampleRow("i2", Reserved), "org", "day");
  }

  lemma SampleLimits(last: Step)
    requires !last.Evaluated?
    ensures FixedLimits((_, _) => 10, SampleRun() + [last])
  {
    hide PositiveInteger;
    SampleIsValid(SampleRequest("r1", "i1"));
    SampleIsValid(SampleRequest("r2", "i2"));
  }

  /**
    The refund or the lock of the first payment leaves the chain: 12 count against the limit of 10 that both
    requests stated.
   */
  lemma RefundReorgWitness(last: Step)
    requires last == RefundReorged("r1") || last == LockReorged("r1")
    ensures Counted(Run(SampleRun()).reservations, "org", "day") == 6
    ensures Counted(Run(SampleRun() + [last]).reservations, "org", "day") == 12
    ensures FixedLimits((_, _) => 10, SampleRun() + [last])
  {
    hide Counted, FixedLimits;
    SampleStates();
    var steps := SampleRun();
    var l := Run(steps);
    assert (steps + [last])[..|steps|] == steps;
    ReorgCountsAgain(l, last, "day");
    SampleLimits(last);
  }

  // ---------- Authorizations ----------

  /**
    Everything but a verdict leaves no trace, a refusal for capacity included; and a second evaluation changes
    nothing.
   */
  lemma FailureLeavesNoTrace(l: Ledger, input: Input, answers: Answers, now: Time)
    ensures Evaluate(l, input, answers, now).1.Failed? ==> Evaluate(l, input, answers, now).0 == l
    ensures input.intentID in l.authorizations ==> Evaluate(l, input, answers, now).0 == l
    ensures !answers.capacity ==> Evaluate(l, input, answers, now).0.reservations == l.reservations
  {
    hide AllFit, ValidReservation, IsNew;
  }

  predicate HasReservation(l: Ledger, id: string, intentID: string) {
    id in l.reservations && l.reservations[id].operationID == intentID
  }

  /** VALIDATED_AND_RESERVED names the one reservation of its intent, and every reservation is named. */
  ghost predicate Matched(l: Ledger) {
    && (forall intent | intent in l.authorizations && l.authorizations[intent].verdict.Valid? ::
          HasReservation(l, l.authorizations[intent].verdict.reservationID, intent))
    && (forall id | id in l.reservations ::
          var intent := l.reservations[id].operationID;
          intent in l.authorizations && l.authorizations[intent].verdict == Valid(id))
  }

  lemma StepMatches(l: Ledger, step: Step)
    requires Matched(l)
    ensures Matched(Next(l, step))
  {
    hide AllFit, ValidReservation;
  }

  lemma {:induction false} RunMatches(steps: seq<Step>)
    ensures Matched(Run(steps))
  {
    hide Next;
    if |steps| > 0 {
      RunMatches(steps[..|steps| - 1]);
      StepMatches(Run(steps[..|steps| - 1]), steps[|steps| - 1]);
    }
  }

  /** An intent is VALIDATED_AND_RESERVED exactly when its reservation row exists. */
  lemma ValidatedIffReserved(steps: seq<Step>, intentID: string)
    ensures var l := Run(steps);
            (intentID in l.authorizations && l.authorizations[intentID].verdict.Valid?)
                <==> exists id :: HasReservation(l, id, intentID)
  {
    hide Run;
    RunMatches(steps);
    var l := Run(steps);
    if id :| HasReservation(l, id, intentID) { assert l.reservations[id].operationID == intentID; }
  }

  lemma StepKeepsVerdicts(l: Ledger, step: Step, intentID: string)
    requires intentID in l.authorizations
    ensures intentID in Next(l, step).authorizations
        && Next(l, step).authorizations[intentID] == l.authorizations[intentID]
  {
    hide AllFit, ValidReservation;
  }

  /** An intent is evaluated once: its authorization never changes afterwards. */
  lemma {:induction false} VerdictsAreFinal(steps: seq<Step>, i: nat, intentID: string)
    requires i <= |steps| && intentID in Run(steps[..i]).authorizations
    ensures intentID in Run(steps).authorizations
        && Run(steps).authorizations[intentID] == Run(steps[..i]).authorizations[intentID]
    decreases |steps|
  {
    hide Next;
    if i == |steps| {
      assert steps[..i] == steps;
    } else {
      var before := steps[..|steps| - 1];
      assert before[..i] == steps[..i];
      VerdictsAreFinal(before, i, intentID);
      StepKeepsVerdicts(Run(before), steps[|steps| - 1], intentID);
    }
  }
}
