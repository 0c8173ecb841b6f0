/** reserveBudget and the transaction around it, as the loops and inserts that they are. */
module Authorizers {
  import opened Text
  import opened Budget

  /** One row of the query that locks the active reservations. */
  datatype Stored = Stored(dimension: string, amount: nat, state: State, refundable: bool)

  function RowShare(row: Stored, dimension: string): nat {
    if row.dimension == dimension && !(row.state == Restored && row.refundable) then row.amount else 0
  }

  function RowsTotal(rows: seq<Stored>, dimension: string): nat {
    if rows == [] then 0 else RowsTotal(rows[..|rows| - 1], dimension) + RowShare(rows[|rows| - 1], dimension)
  }

  lemma TotalAppends(rows: seq<Stored>, row: Stored, dimension: string)
    ensures RowsTotal(rows + [row], dimension) == RowsTotal(rows, dimension) + RowShare(row, dimension)
  {
    assert (rows + [row])[..|rows|] == rows;
  }

  predicate DistinctIDs(dimensions: seq<Dimension>) {
    forall i, j | 0 <= i < j < |dimensions| :: dimensions[i].id != dimensions[j].id
  }

  /** The join with the dimension rows of one open reservation. */
  method JoinDimensions(rows: seq<Stored>, r: Reservation, dimensions: seq<Dimension>) returns (joined: seq<Stored>)
    requires Open(r.state) && DistinctIDs(dimensions)
    ensures forall i | 0 <= i < |dimensions| ::
              RowsTotal(joined, dimensions[i].id) == RowsTotal(rows, dimensions[i].id)
                  + Share(r, r.organizationID, dimensions[i].id)
  {
    hide RowsTotal;
    joined := rows;
    for j := 0 to |dimensions|
      invariant forall i | 0 <= i < j :: RowsTotal(joined, dimensions[i].id) == RowsTotal(rows,
          dimensions[i].id) + Share(r, r.organizationID, dimensions[i].id)
      invariant forall i | j <= i < |dimensions| ::
          RowsTotal(joined, dimensions[i].id) == RowsTotal(rows, dimensions[i].id)
    {
      var id := dimensions[j].id;
      if id in r.refundable {
        var row := Stored(id, r.amount, r.state, r.refundable[id]);
        forall i | 0 <= i < |dimensions| ensures RowsTotal(joined + [row], dimensions[i].id) ==
            RowsTotal(joined, dimensions[i].id) + RowShare(row, dimensions[i].id) {
          TotalAppends(joined, row, dimensions[i].id);
        }
        joined := joined + [row];
      }
    }
  }

  /** Subtract every counting row of the dimension from its limit. */
  method Remaining(limit: nat, existing: seq<Stored>, dimension: string) returns (remaining: int)
    ensures remaining == limit - RowsTotal(existing, dimension)
  {
    remaining := limit;
    for k := 0 to |existing|
      invariant remaining == limit - RowsTotal(existing[..k], dimension)
    {
      assert existing[..k + 1] == existing[..k] + [existing[k]];
      TotalAppends(existing[..k], existing[k], dimension);
      if existing[k].dimension != dimension || (existing[k].state == Restored && existing[k].refundable) { continue; }
      remaining := remaining - existing[k].amount;
    }
    assert existing[..|existing|] == existing;
  }

  class Authorizer {
    var reservations: map<string, Reservation>
    var authorizations: map<string, Authorization>

    function Value(): Ledger
      reads this
    {
      Ledger(reservations, authorizations)
    }

    constructor ()
      ensures Value() == Ledger(map[], map[])
    {
      reservations, authorizations := map[], map[];
    }

    /** The rows that can count, for every requested dimension and in no particular order. */
    method LockRows(organizationID: string, dimensions: seq<Dimension>) returns (existing: seq<Stored>)
      requires DistinctIDs(dimensions)
      ensures forall i | 0 <= i < |dimensions| ::
          RowsTotal(existing, dimensions[i].id) == Counted(reservations, organizationID, dimensions[i].id)
    {
      hide RowsTotal;
      existing := [];
      NoRows();
      var left := reservations.Keys;
      while left != {}
        invariant left <= reservations.Keys
        invariant forall i | 0 <= i < |dimensions| ::
            RowsTotal(existing, dimensions[i].id) + Sum(reservations, left, organizationID,
            dimensions[i].id) == Counted(reservations, organizationID, dimensions[i].id)
        decreases |left|
      {
        var id :| id in left;
        forall i | 0 <= i < |dimensions|
          ensures Sum(reservations, left, organizationID, dimensions[i].id) ==
              Share(reservations[id], organizationID, dimensions[i].id)
                  + Sum(reservations, left - {id}, organizationID, dimensions[i].id)
        {
          TakeOne(reservations, left, id, organizationID, dimensions[i].id);
        }
        left := left - {id};
        if reservations[id].organizationID == organizationID && Open(reservations[id].state) {
          existing := JoinDimensions(existing, reservations[id], dimensions);
        }
      }
    }

    /** reserveBudget: refused exactly when some dimension lacks room; then nothing is inserted. */
    method ReserveBudget(organizationID: string, request: Request) returns (error: Option<Error>)
      requires ValidReservation(request)
      modifies this`reservations
      ensures error == Some(BudgetExceeded) <==> !AllFit(old(reservations), organizationID, request)
      ensures error == Some(Conflict) <==>
          AllFit(old(reservations), organizationID, request) && !IsNew(old(reservations), request)
      ensures error.None? <==> AllFit(old(reservations), organizationID, request) && IsNew(old(reservations), request)
      ensures reservations == if error.None?
          then old(reservations)[request.reservationID := Row(organizationID, request)] else old(reservations)
    {
      hide Counted, RowsTotal, PositiveInteger, ValidID;
      var existing := LockRows(organizationID, request.dimensions);
      var amount := PositiveInteger(request.amount).value;
      for i := 0 to |request.dimensions|
        invariant reservations == old(reservations)
            && forall j | 0 <= j < i :: Fits(reservations, organizationID, request, j)
      {
        var remaining := Remaining(PositiveInteger(request.dimensions[i].limit).value, existing,
            request.dimensions[i].id);
        if remaining < amount {
          assert !Fits(reservations, organizationID, request, i);
          return Some(BudgetExceeded);
        }
      }
      if !IsNew(reservations, request) { return Some(Conflict); }
      reservations := reservations[request.reservationID := Row(organizationID, request)];
      return None;
    }

    method Insert(input: Input, v: Verdict) returns (r: Result)
      modifies this`authorizations
      ensures (Value(), r) == Record(old(Value()), input, v)
    {
      if !IDIsNew(authorizations, input.authorizationID) { return Failed(Conflict, None); }
      var a := Authorization(input.authorizationID, v);
      authorizations := authorizations[input.intentID := a];
      return Done(a);
    }

    method ValidateAndReserve(input: Input, answers: Answers, now: Clock) returns (r: Result)
      modifies this
      ensures (Value(), r) == Evaluate(old(Value()), input, answers, now)
    {
      hide AllFit, ValidReservation, IsNew, Row, IDIsNew;
      var before := Value();
      if !Admissible(input, now) { return Failed(InvalidInput, None); }
      if input.intentID in authorizations { return Failed(AlreadyEvaluated, Some(authorizations[input.intentID])); }
      if answers.organizationID.None? { return Failed(InvalidInput, None); }
      if answers.approval.Fault? { return Failed(Unavailable, None); }
      if answers.approval.Refuse? {
        r := Insert(input, Invalid(answers.approval.reason));
        return;
      }
      if answers.revalidation.Fault? { return Failed(Unavailable, None); }
      if answers.revalidation.Refuse? {
        r := Insert(input, Invalid(answers.revalidation.reason));
        return;
      }
      var error := ReserveBudget(answers.organizationID.value, input.reservation);
      if error == Some(BudgetExceeded) {
        r := Insert(input, Invalid("budget exceeded"));
        return;
      }
      if error.Some? { return Failed(Conflict, None); }
      if !IDIsNew(authorizations, input.authorizationID) {
        reservations := before.reservations;
        return Failed(Conflict, None);
      }
      if !answers.capacity {
        reservations := before.reservations;
        return Failed(Unavailable, None);
      }
      r := Insert(input, Valid(input.reservation.reservationID));
    }
  }

  lemma NoRows()
    ensures forall dimension :: RowsTotal([], dimension) == 0
  {
  }
}
