/** The pure kernel of the governance relay: evidence validation, retry decisions and artifact bindings. */
module RelayKernel {
  import opened Text
  import opened Ordering

  const MAX_EVIDENCE_AGE: int := MINUTE
  const OWNER_SET_TAG: string := "ASCP_SAFE_OWNER_SET_V1"

  /** Command.Calldata is held decoded. */
  datatype Command = Command(
    workflowID: string, organizationID: string, chainID: nat, payloadHash: string, contractAddress: string,
        calldata: Bytes, executeAfter: nat)

  datatype Transaction = Transaction(chainID: nat, safe: string, to: string, data: Bytes, nonce: nat)

  datatype Snapshot = Snapshot(
    chainID: nat, safeAddress: string, safeNonce: nat, owners: seq<string>, threshold: nat, verifiedPayloadHash: string,
    blockNumber: nat, blockHash: string, blockTimestamp: nat, confirmedHead: nat, observers: seq<string>,
        evidenceDigest: string, observedAt: Time)

  datatype Prepared = Prepared(
    workflowID: string, organizationID: string, payloadHash: string, transaction: Transaction, owners: seq<string>,
        threshold: nat,
    evidenceQuorum: int, safeTxHash: string, execCalldataHash: string, signaturesHash: string, ownerSetHash: string,
        snapshot: Snapshot)

  datatype Outcome = Pending | Dropped | Reorged | MinedRevert | Finalized | Unknown

  datatype Evidence = Evidence(
    workflowID: string, outerTransactionHash: string, outcome: Outcome, previousCanonical: bool, chainID: nat,
        safeAddress: string,
    currentSafeNonce: nat, safeTxHash: string, execCalldataHash: string, verifiedPayloadHash: string, blockNumber: nat,
        blockHash: string,
    confirmedHead: nat, observers: seq<string>, evidenceDigest: string, observedAt: Time)

  datatype Reason = SafeNonceConflict | PreconditionChanged | Reverted | ReceiptRejected

  datatype Decision = Wait | RetryExact | Reapprove(reason: Reason) | Finalize

  datatype Outer = Outer(handle: string, transactionHash: string, safeTxHash: string, execCalldataHash: string,
        preparedAt: Time)

  /** Code outside this package: command validation, Safe transaction encoding and Keccak. */
  datatype Safe = Safe(
    validCommand: Command -> bool,
    txHash: Transaction -> Option<string>,
    execCalldata: (Transaction, seq<string>, nat, Bytes) -> Option<Bytes>,
    verifyExec: (Transaction, seq<string>, nat, Bytes) -> bool,
    signaturesOf: Bytes -> Option<Bytes>,
    hash: Bytes -> string,
    hashText: string -> string)

  ghost predicate SafeLaw(safe: Safe) {
    && (forall b :: Hash(safe.hash(b))) && (forall t :: Hash(safe.hashText(t)))
    && (forall tx :: safe.txHash(tx).Some? ==> Hash(safe.txHash(tx).value))
    && (forall tx, owners, threshold, signatures ::
          var c := safe.execCalldata(tx, owners, threshold, signatures);
          c.Some? ==> safe.verifyExec(tx, owners, threshold, c.value) && safe.signaturesOf(c.value) == Some(signatures))
  }

  // ---------- Quorums and owner sets ----------

  /** Between `minimum` and five observers, all named well and no name twice. */
  predicate IsQuorum(values: seq<string>, minimum: int) {
    && 2 <= minimum <= 5 && minimum <= |values| <= 5
    && (forall i | 0 <= i < |values| :: Identifier(values[i]))
    && NoDuplicates(values)
  }

  method ObserverQuorum(values: seq<string>, minimum: int) returns (r: Option<seq<string>>)
    ensures r.Some? <==> IsQuorum(values, minimum)
    ensures r.Some? ==> multiset(r.value) == multiset(values) && Ascending(StringLess, r.value)
  {
    hide Identifier, StringLess, Sort;
    if minimum < 2 || minimum > 5 || |values| < minimum || |values| > 5 { return None; }
    var result := Sort(StringLess, values);
    SortPermutes(StringLess, values);
    StringLessIsTotal();
    SortSorts(StringLess, values);
    NeighboursShowDuplicates(StringLess, result);
    SameElements(values, result);
    for index := 0 to |result|
      invariant forall i | 0 <= i < index :: Identifier(result[i]) && (i > 0 ==> result[i - 1] != result[i])
    {
      if !Identifier(result[index]) || (index > 0 && result[index - 1] == result[index]) { return None; }
    }
    return Some(result);
  }

  /** What the sorted copy says about the values it was made from. */
  lemma SameElements(values: seq<string>, result: seq<string>)
    requires multiset(values) == multiset(result)
    ensures NoDuplicates(values) <==> NoDuplicates(result)
    ensures (forall i | 0 <= i < |values| :: Identifier(values[i]))
        <==> (forall i | 0 <= i < |result| :: Identifier(result[i]))
  {
    hide Identifier;
    if NoDuplicates(values) { DuplicatesSurvivePermutation(values, result); }
    if NoDuplicates(result) { DuplicatesSurvivePermutation(result, values); }
    forall i | 0 <= i < |values| ensures values[i] in result { assert values[i] in multiset(result); }
    forall i | 0 <= i < |result| ensures result[i] in values { assert result[i] in multiset(values); }
  }

  /** Governance authority is always two of exactly three owners, in ascending order. */
  predicate CanonicalOwners(owners: seq<string>, threshold: nat) {
    && threshold == 2 && |owners| == 3
    && (forall i | 0 <= i < 3 :: Address(owners[i]))
    && (forall i | 0 < i < 3 :: StringLess(owners[i - 1], owners[i]))
  }

  function OwnerSetText(owners: seq<string>, threshold: nat): string {
    Join([OWNER_SET_TAG, Decimal(threshold)] + owners, '\0')
  }

  method OwnerSetBytes(owners: seq<string>, threshold: nat) returns (parts: string)
    ensures parts == OwnerSetText(owners, threshold)
  {
    parts := OWNER_SET_TAG + "\0" + Decimal(threshold);
    var names := [OWNER_SET_TAG, Decimal(threshold)];
    assert parts == Join(names, '\0');
    for i := 0 to |owners|
      invariant parts == Join(names + owners[..i], '\0')
    {
      JoinAppend(names + owners[..i], owners[i], '\0');
      assert (names + owners[..i]) + [owners[i]] == names + owners[..i + 1];
      parts := parts + "\0" + owners[i];
    }
    assert owners[..|owners|] == owners;
  }

  lemma {:induction false} JoinAppend(parts: seq<string>, last: string, separator: char)
    requires |parts| > 0
    ensures Join(parts + [last], separator) == Join(parts, separator) + [separator] + last
  {
    if |parts| > 1 {
      assert (parts + [last])[1..] == parts[1..] + [last];
      JoinAppend(parts[1..], last, separator);
    }
  }

  lemma OwnerSetTextInjective(a: seq<string>, m: nat, b: seq<string>, n: nat)
    requires AllFree(a, '\0') && AllFree(b, '\0') && OwnerSetText(a, m) == OwnerSetText(b, n)
    ensures a == b && m == n
  {
    var p, q := [OWNER_SET_TAG, Decimal(m)] + a, [OWNER_SET_TAG, Decimal(n)] + b;
    JoinInjective(p, q, '\0');
    assert p[1] == Decimal(m) && q[1] == Decimal(n);
    DecimalInjective(m, n);
    assert a == p[2..] && b == q[2..];
  }

  lemma AddressesAreFree(owners: seq<string>)
    requires forall i | 0 <= i < |owners| :: Address(owners[i])
    ensures AllFree(owners, '\0')
  {
  }

  // ---------- Evidence ----------

  predicate FreshAt(observedAt: Time, now: Time) {
    observedAt != 0 && observedAt <= now + MINUTE && now - observedAt <= MAX_EVIDENCE_AGE
  }

  predicate ValidSnapshot(command: Command, safeAddress: string, s: Snapshot, quorum: int, now: Time) {
    && IsQuorum(s.observers, quorum) && s.chainID == command.chainID && s.safeAddress == safeAddress
        && Address(safeAddress)
    && Hash(s.verifiedPayloadHash) && Hash(s.blockHash) && Hash(s.evidenceDigest)
    && s.blockNumber != 0 && s.blockNumber <= s.confirmedHead && command.executeAfter <= s.blockTimestamp
    && FreshAt(s.observedAt, now) && CanonicalOwners(s.owners, s.threshold)
  }

  predicate ValidOutcome(p: Prepared, outerHash: string, e: Evidence, quorum: int, now: Time) {
    && IsQuorum(e.observers, quorum) && e.workflowID == p.workflowID && e.outerTransactionHash == outerHash
        && Hash(outerHash)
    && e.chainID == p.transaction.chainID && e.safeAddress == p.transaction.safe
    && Hash(e.safeTxHash) && Hash(e.execCalldataHash) && Hash(e.verifiedPayloadHash) && Hash(e.blockHash)
        && Hash(e.evidenceDigest)
    && e.blockNumber != 0 && e.blockNumber <= e.confirmedHead && FreshAt(e.observedAt, now)
    && (e.outcome == Pending || e.outcome == MinedRevert || e.outcome == Finalized ==> e.previousCanonical)
  }

  function DecideRetry(p: Prepared, outerHash: string, e: Evidence, quorum: int, now: Time): Option<Decision> {
    if !ValidOutcome(p, outerHash, e, quorum, now) || e.safeTxHash != p.safeTxHash
        || e.execCalldataHash != p.execCalldataHash then None
    else
      match e.outcome
      case Pending =>
        if e.currentSafeNonce != p.transaction.nonce then Some(Reapprove(SafeNonceConflict))
        else if e.verifiedPayloadHash != p.payloadHash then Some(Reapprove(PreconditionChanged))
        else Some(Wait)
      case Dropped | Reorged =>
        if e.currentSafeNonce != p.transaction.nonce then Some(Reapprove(SafeNonceConflict))
        else if e.verifiedPayloadHash != p.payloadHash then Some(Reapprove(PreconditionChanged))
        else if e.previousCanonical then None
        else Some(RetryExact)
      case MinedRevert => if e.currentSafeNonce < p.transaction.nonce then None else Some(Reapprove(Reverted))
      case Finalized =>
        if e.currentSafeNonce <= p.transaction.nonce || e.verifiedPayloadHash != p.payloadHash then None
            else Some(Finalize)
      case Unknown => None
  }

  /**
    Quorum evidence, fresh at `at`, that the outer transaction `outerHash` is gone and the Safe action is still
    exactly the signed one.
   */
  predicate ProvesGone(p: Prepared, outerHash: string, e: Evidence, quorum: int, at: Time) {
    && ValidOutcome(p, outerHash, e, quorum, at)
    && (e.outcome == Dropped || e.outcome == Reorged) && !e.previousCanonical
    && e.currentSafeNonce == p.transaction.nonce && e.verifiedPayloadHash == p.payloadHash
    && e.safeTxHash == p.safeTxHash && e.execCalldataHash == p.execCalldataHash
  }

  /**
    Each verdict says one thing about the chain; retry and finality can never both be concluded from the same
    evidence.
   */
  lemma DecisionMeaning(p: Prepared, outerHash: string, e: Evidence, quorum: int, now: Time)
    ensures DecideRetry(p, outerHash, e, quorum, now) == Some(RetryExact) <==> ProvesGone(p, outerHash, e, quorum, now)
    ensures DecideRetry(p, outerHash, e, quorum, now) == Some(Finalize)
        ==> e.previousCanonical && p.transaction.nonce < e.currentSafeNonce
    ensures DecideRetry(p, outerHash, e, quorum, now) == Some(Wait)
        ==> e.previousCanonical && e.currentSafeNonce == p.transaction.nonce
  {
    hide IsQuorum, Hash;
  }

  // ---------- Artifacts ----------

  function OwnerSetHash(safe: Safe, owners: seq<string>, threshold: nat): string {
    safe.hashText(OwnerSetText(owners, threshold))
  }

  /** BuildSigningRequest and Prepare: what is stored at authorization, and the calldata that is sealed. */
  function Prepare(safe: Safe, c: Command, safeAddress: string, s: Snapshot, signatures: Bytes, quorum: int,
        now: Time): Option<(Prepared, Bytes)> {
    if !safe.validCommand(c) || !ValidSnapshot(c, safeAddress, s, quorum, now)
        || s.verifiedPayloadHash != c.payloadHash then None
    else
      var tx := Transaction(c.chainID, safeAddress, c.contractAddress, c.calldata, s.safeNonce);
      var digest := safe.txHash(tx);
      var calldata := safe.execCalldata(tx, s.owners, s.threshold, signatures);
      if digest.None? || calldata.None? then None
      else Some((Prepared(c.workflowID, c.organizationID, c.payloadHash, tx, s.owners, s.threshold, quorum,
          digest.value,
                          safe.hash(calldata.value), safe.hash(signatures), OwnerSetHash(safe, s.owners, s.threshold),
                              s), calldata.value))
  }

  predicate VerifyPrepared(safe: Safe, c: Command, p: Prepared, calldata: Bytes) {
    && safe.validCommand(c) && p.workflowID == c.workflowID && p.organizationID == c.organizationID
        && p.payloadHash == c.payloadHash
    && p.transaction.chainID == c.chainID && p.transaction.to == c.contractAddress && p.transaction.data == c.calldata
    && p.execCalldataHash == safe.hash(calldata) && Hash(p.safeTxHash) && Hash(p.signaturesHash) && Hash(p.ownerSetHash)
    && Hash(p.snapshot.evidenceDigest) && Hash(p.snapshot.blockHash) && p.snapshot.blockNumber != 0
    && p.snapshot.blockNumber <= p.snapshot.confirmedHead && c.executeAfter <= p.snapshot.blockTimestamp
        && p.snapshot.observedAt != 0
    && 2 <= p.evidenceQuorum <= 5 && safe.txHash(p.transaction) == Some(p.safeTxHash)
    && OwnerSetHash(safe, p.owners, p.threshold) == p.ownerSetHash && CanonicalOwners(p.owners, p.threshold)
    && IsQuorum(p.snapshot.observers, p.evidenceQuorum)
        && safe.verifyExec(p.transaction, p.owners, p.threshold, calldata)
    && safe.signaturesOf(calldata).Some? && safe.hash(safe.signaturesOf(calldata).value) == p.signaturesHash
  }

  /** Whatever Prepare built for a command, VerifyPrepared accepts for that command and that calldata. */
  lemma PreparedVerifies(safe: Safe, c: Command, safeAddress: string, s: Snapshot, signatures: Bytes, quorum: int,
        now: Time)
    requires SafeLaw(safe) && Prepare(safe, c, safeAddress, s, signatures, quorum, now).Some?
    ensures var (p, calldata) := Prepare(safe, c, safeAddress, s, signatures, quorum, now).value; VerifyPrepared(safe,
        c, p, calldata)
  {
    hide IsQuorum, Hash, CanonicalOwners, OwnerSetText;
    var tx := Transaction(c.chainID, safeAddress, c.contractAddress, c.calldata, s.safeNonce);
    assert safe.execCalldata(tx, s.owners, s.threshold, signatures).Some?;
    assert 2 <= quorum <= 5 by { QuorumBound(s.observers, quorum); }
  }

  lemma QuorumBound(values: seq<string>, minimum: int)
    requires IsQuorum(values, minimum)
    ensures 2 <= minimum <= 5
  {
  }

  function ValidateRelaySnapshot(safe: Safe, c: Command, p: Prepared, s: Snapshot, quorum: int,
        now: Time): Option<Decision> {
    if quorum != p.evidenceQuorum then Some(Reapprove(PreconditionChanged))
    else if !ValidSnapshot(c, p.transaction.safe, s, quorum, now) then None
    else if s.safeNonce != p.transaction.nonce then Some(Reapprove(SafeNonceConflict))
    else if s.verifiedPayloadHash != p.payloadHash then Some(Reapprove(PreconditionChanged))
    else if OwnerSetHash(safe, s.owners, s.threshold) != p.ownerSetHash then Some(Reapprove(PreconditionChanged))
    else Some(RetryExact)
  }

  /**
    The last gate before an outer transaction: for a job whose artifact verifies, it opens exactly when
    the live Safe still has the signed nonce, payload, owners and threshold. The only other way to open
    it would be a second owner list with the same hash, and the two lists are then the collision.
   */
  lemma RelayGate(safe: Safe, c: Command, p: Prepared, calldata: Bytes, s: Snapshot, now: Time)
    requires VerifyPrepared(safe, c, p, calldata)
    ensures ValidateRelaySnapshot(safe, c, p, s, p.evidenceQuorum, now) == Some(RetryExact) <==>
            && ValidSnapshot(c, p.transaction.safe, s, p.evidenceQuorum, now)
            && s.safeNonce == p.transaction.nonce && s.verifiedPayloadHash == p.payloadHash
            && ((s.owners == p.owners && s.threshold == p.threshold)
                || (OwnerSetText(s.owners, s.threshold) != OwnerSetText(p.owners, p.threshold)
                    && safe.hashText(OwnerSetText(s.owners, s.threshold))
                        == safe.hashText(OwnerSetText(p.owners, p.threshold))))
  {
    hide IsQuorum, Hash, Address, StringLess;
    if ValidSnapshot(c, p.transaction.safe, s, p.evidenceQuorum, now)
        && OwnerSetText(s.owners, s.threshold) == OwnerSetText(p.owners, p.threshold) {
      AddressesAreFree(s.owners);
      AddressesAreFree(p.owners);
      OwnerSetTextInjective(s.owners, s.threshold, p.owners, p.threshold);
    }
  }

  /**
    An outer transaction is acceptable only when it carries the one Safe transaction and calldata fixed at
    authorization.
   */
  predicate ValidOuter(outer: Outer, p: Prepared, now: Time) {
    && Identifier(outer.handle) && Hash(outer.transactionHash)
    && outer.safeTxHash == p.safeTxHash && outer.execCalldataHash == p.execCalldataHash
    && FreshAt(outer.preparedAt, now)
  }
}
