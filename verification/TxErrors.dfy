/** How the error set of a transaction is read. */
module TxErrors {
  import opened Wrappers

  const CONFLICT_TEXT := "Transaction conflict"

  datatype QueryDetails = TransactionConflict | NotExecuted | OtherDetails

  datatype DbError = DbError(details: Option<QueryDetails>, message: string)

  datatype TxOutcome = Retry(error: DbError) | Fail(error: DbError)

  type ErrorSet = map<nat, DbError>

  predicate StandsAt(text: string, part: string, i: nat) {
    i + |part| <= |text| && text[i..i + |part|] == part
  }

  predicate Contains(text: string, part: string) {
    exists i :: 0 <= i <= |text| && StandsAt(text, part, i)
  }

  predicate IsConflict(e: DbError) {
    e.details == Some(TransactionConflict) || Contains(e.message, CONFLICT_TEXT)
  }

  predicate IsNotExecuted(e: DbError) {
    e.details == Some(NotExecuted)
  }

  /** An error is a conflict just when its details say so or its message holds the database's words for one. */
  lemma ConflictIsRecognised(e: DbError)
    ensures IsConflict(e) <==>
              || e.details == Some(TransactionConflict)
              || exists before, after :: Around(e.message, before, "Transaction conflict", after)
  {
    if Contains(e.message, CONFLICT_TEXT) {
      var i :| 0 <= i <= |e.message| && StandsAt(e.message, CONFLICT_TEXT, i);
      assert Around(e.message, e.message[..i], "Transaction conflict", e.message[i + |CONFLICT_TEXT|..]);
    }
    if before, after :| Around(e.message, before, "Transaction conflict", after) {
      assert StandsAt(e.message, CONFLICT_TEXT, |before|);
    }
  }

  predicate Around(text: string, before: string, part: string, after: string) {
    text == before + part + after
  }

  /** A conflict may also say NotExecuted; it still counts as a conflict. */
  datatype Kind = Conflicting | Skipped | Genuine

  function KindOf(e: DbError): Kind {
    if IsConflict(e) then Conflicting else if IsNotExecuted(e) then Skipped else Genuine
  }

  /** Every error is of exactly one kind; a conflict stays one whatever else it says. */
  lemma KindsPartition(e: DbError)
    ensures KindOf(e) == Conflicting <==> IsConflict(e)
    ensures KindOf(e) == Skipped <==> e.details == Some(NotExecuted) && !IsConflict(e)
  {
  }

  predicate Has(errors: ErrorSet, kind: Kind) {
    exists k :: k in errors && KindOf(errors[k]) == kind
  }

  /** `e` stands in the lowest result slot that holds an error of this kind. */
  ghost predicate IsLowest(errors: ErrorSet, kind: Kind, e: DbError) {
    exists slot :: slot in errors && errors[slot] == e && KindOf(e) == kind
                   && forall k :: k in errors && KindOf(errors[k]) == kind ==> slot <= k
  }

  /** What an error set means: nothing without errors; else the lowest genuine error fails; else the lowest
      conflict retries; else the lowest error, of a statement that never ran, fails. */
  ghost predicate Reads(errors: ErrorSet, outcome: Option<TxOutcome>) {
    match outcome
    case None => errors == map[]
    case Some(Fail(e)) =>
      || IsLowest(errors, Genuine, e)
      || (!Has(errors, Genuine) && !Has(errors, Conflicting) && IsLowest(errors, Skipped, e))
    case Some(Retry(e)) => !Has(errors, Genuine) && IsLowest(errors, Conflicting, e)
  }

  /** The reading depends on the error set alone, not on any iteration order. */
  lemma ReadingIsUnique(errors: ErrorSet, a: Option<TxOutcome>, b: Option<TxOutcome>)
    requires Reads(errors, a) && Reads(errors, b)
    ensures a == b
  {
  }

  /** The lowest slot of those still to be read. */
  function Lowest(slots: set<nat>): (m: nat)
    requires slots != {}
    ensures m in slots && forall k :: k in slots ==> m <= k
  {
    LowestExists(slots);
    var m :| m in slots && forall k :: k in slots ==> m <= k;
    m
  }

  lemma LowestExists(slots: set<nat>)
    requires slots != {}
    ensures exists m :: m in slots && forall k :: k in slots ==> m <= k
  {
    var m :| m in slots;
    while exists k :: k in slots && k < m
      invariant m in slots
      decreases m
    {
      var bound := m;
      m :| m in slots && m < bound;
    }
  }

  /** Every slot read is below every slot still to be read. */
  ghost predicate AllBelow(read: set<nat>, rest: set<nat>) {
    forall d, k :: d in read && k in rest ==> d < k
  }

  lemma StillBelow(slots: set<nat>, rest: set<nat>, slot: nat)
    requires rest <= slots && AllBelow(slots - rest, rest) && slot in rest && forall k :: k in rest ==> slot <= k
    ensures AllBelow(slots - (rest - {slot}), rest - {slot})
  {
    forall d, k | d in slots - (rest - {slot}) && k in rest - {slot}
      ensures d < k
    {
      if d != slot { assert d in slots - rest && k in rest; }
    }
  }

  /** Among the slots read so far, `first` is the first error of this kind, if there is one. */
  ghost predicate FirstSoFar(errors: ErrorSet, read: set<nat>, kind: Kind, first: Option<DbError>)
    requires read <= errors.Keys
  {
    match first
    case None => forall k :: k in read ==> KindOf(errors[k]) != kind
    case Some(e) => exists slot :: slot in read && errors[slot] == e && KindOf(e) == kind
                      && forall k :: k in read && KindOf(errors[k]) == kind ==> slot <= k
  }

  /** The loop over the slots in ascending order, keeping the first error of each kind. */
  method ClassifyTxErrors(errors: ErrorSet) returns (outcome: Option<TxOutcome>)
    ensures Reads(errors, outcome)
  {
    if errors == map[] { return None; }
    var firstConflict, firstReal, firstNotExecuted: Option<DbError> := None, None, None;
    var rest := errors.Keys;
    while rest != {}
      invariant rest <= errors.Keys
      invariant AllBelow(errors.Keys - rest, rest)
      invariant FirstSoFar(errors, errors.Keys - rest, Conflicting, firstConflict)
      invariant FirstSoFar(errors, errors.Keys - rest, Genuine, firstReal)
      invariant FirstSoFar(errors, errors.Keys - rest, Skipped, firstNotExecuted)
      decreases |rest|
    {
      var slot := Lowest(rest);
      var e := errors[slot];
      StillBelow(errors.Keys, rest, slot);
      ReadNext(errors, rest, slot, Conflicting, firstConflict);
      ReadNext(errors, rest, slot, Genuine, firstReal);
      ReadNext(errors, rest, slot, Skipped, firstNotExecuted);
      if IsConflict(e) {
        if firstConflict.None? { firstConflict := Some(e); }
      } else if IsNotExecuted(e) {
        if firstNotExecuted.None? { firstNotExecuted := Some(e); }
      } else {
        if firstReal.None? { firstReal := Some(e); }
      }
      rest := rest - {slot};
    }
    assert errors.Keys - rest == errors.Keys;
    if firstReal.Some? {
      outcome := Some(Fail(firstReal.value));
    } else if firstConflict.Some? {
      outcome := Some(Retry(firstConflict.value));
    } else {
      outcome := if firstNotExecuted.Some? then Some(Fail(firstNotExecuted.value)) else None;
    }
  }

  /** Reading one more slot keeps the first error of a kind, or finds it. */
  lemma ReadNext(errors: ErrorSet, rest: set<nat>, slot: nat, kind: Kind, first: Option<DbError>)
    requires rest <= errors.Keys && slot in rest
    requires AllBelow(errors.Keys - rest, rest)
    requires FirstSoFar(errors, errors.Keys - rest, kind, first)
    ensures FirstSoFar(errors, errors.Keys - (rest - {slot}), kind,
              if first.None? && KindOf(errors[slot]) == kind then Some(errors[slot]) else first)
  {
  }
}
