/** One and only one evidence group of quorum size, and finality that holds for every provider in it. */
module EvidenceQuorum {

  const UINT64: int := 0x1_0000_0000_0000_0000

  type Word = x: int | 0 <= x < UINT64 witness 0

  /** Everything sameEvidence compares. */
  datatype Claim = Claim(
    chainID: Word, workflowID: string, payloadHash: string, transactionHash: string, blockNumber: Word,
        blockHash: string, blockTimestamp: Word,
    bindingLogIndex: Word, contractAddress: string, functionSelector: string, actionEventSignature: string,
        actionLogIndexes: seq<Word>,
    contractCodeHash: string, onChainPrincipal: string, relayer: string, observedDelaySeconds: Word)

  datatype Evidence = Evidence(provider: string, claim: Claim, confirmedHead: Word, finalizedHead: Word)

  // ---------- Grouping ----------

  /** The evidence for a claim, in the order it came. */
  function Class(evidence: seq<Evidence>, claim: Claim): seq<Evidence> {
    if evidence == [] then []
    else
      var before := Class(evidence[..|evidence| - 1], claim);
      if evidence[|evidence| - 1].claim == claim then before + [evidence[|evidence| - 1]] else before
  }

  predicate Qualifies(evidence: seq<Evidence>, quorum: nat, claim: Claim) {
    |Class(evidence, claim)| >= quorum
  }

  /** One and only one claim has a quorum. */
  ghost predicate UniqueQuorum(evidence: seq<Evidence>, quorum: nat, claim: Claim) {
    Qualifies(evidence, quorum, claim) && forall other | Qualifies(evidence, quorum, other) :: other == claim
  }

  /** The groups are exactly the classes of the claims seen so far. */
  ghost predicate Grouped(evidence: seq<Evidence>, groups: seq<seq<Evidence>>) {
    && (forall g | 0 <= g < |groups| :: groups[g] != [] && groups[g] == Class(evidence, groups[g][0].claim))
    && (forall g, h | 0 <= g < h < |groups| :: groups[g][0].claim != groups[h][0].claim)
    && (forall e | e in evidence :: exists g :: 0 <= g < |groups| && groups[g][0].claim == e.claim)
  }

  lemma {:induction false} ClassMembers(evidence: seq<Evidence>, claim: Claim)
    ensures forall e :: e in Class(evidence, claim) <==> e in evidence && e.claim == claim
  {
    if evidence != [] {
      ClassMembers(evidence[..|evidence| - 1], claim);
      assert evidence == evidence[..|evidence| - 1] + [evidence[|evidence| - 1]];
    }
  }

  lemma ClassAppend(evidence: seq<Evidence>, e: Evidence, claim: Claim)
    ensures Class(evidence + [e], claim) == if e.claim == claim then Class(evidence, claim) + [e]
        else Class(evidence, claim)
  {
    assert (evidence + [e])[..|evidence|] == evidence;
  }

  /** One more item joins group `g`. */
  lemma Joined(evidence: seq<Evidence>, groups: seq<seq<Evidence>>, e: Evidence, g: nat)
    requires Grouped(evidence, groups) && g < |groups| && groups[g][0].claim == e.claim
    ensures Grouped(evidence + [e], groups[g := groups[g] + [e]])
  {
    hide Class;
    var more := groups[g := groups[g] + [e]];
    assert forall h | 0 <= h < |groups| :: more[h][0] == groups[h][0];
    forall h | 0 <= h < |more| ensures more[h] != [] && more[h] == Class(evidence + [e], more[h][0].claim) {
      ClassAppend(evidence, e, groups[h][0].claim);
    }
    assert more[g][0].claim == e.claim;
    forall x | x in evidence + [e] ensures exists h :: 0 <= h < |more| && more[h][0].claim == x.claim {
      if x in evidence {
        var h :| 0 <= h < |groups| && groups[h][0].claim == x.claim;
        assert more[h][0].claim == x.claim;
      }
    }
  }

  /** A new claim opens a group. */
  lemma Opened(evidence: seq<Evidence>, groups: seq<seq<Evidence>>, e: Evidence)
    requires Grouped(evidence, groups) && forall g | 0 <= g < |groups| :: groups[g][0].claim != e.claim
    ensures Grouped(evidence + [e], groups + [[e]])
  {
    hide Class;
    var more: seq<seq<Evidence>> := groups + [[e]];
    forall h | 0 <= h < |more| ensures more[h] == Class(evidence + [e], more[h][0].claim) {
      ClassAppend(evidence, e, more[h][0].claim);
      if h == |groups| {
        ClassMembers(evidence, e.claim);
        assert forall x | x in evidence :: x.claim != e.claim;
        EmptySeq(Class(evidence, e.claim));
      }
    }
    assert more[|groups|][0].claim == e.claim;
    forall x | x in evidence + [e] ensures exists h :: 0 <= h < |more| && more[h][0].claim == x.claim {
      if x in evidence {
        var h :| 0 <= h < |groups| && groups[h][0].claim == x.claim;
        assert more[h][0].claim == x.claim;
      }
    }
  }

  lemma EmptySeq(s: seq<Evidence>)
    ensures (forall e :: e !in s) ==> s == []
  {
    if s != [] { assert s[0] in s; }
  }

  method GroupEvidence(evidence: seq<Evidence>) returns (groups: seq<seq<Evidence>>)
    ensures Grouped(evidence, groups)
  {
    hide Grouped;
    groups := [];
    EmptyIsGrouped();
    for k := 0 to |evidence|
      invariant Grouped(evidence[..k], groups)
    {
      var item := evidence[k];
      assert evidence[..k + 1] == evidence[..k] + [item];
      var index := 0;
      GroupsAreNonempty(evidence[..k], groups);
      while index < |groups| && groups[index][0].claim != item.claim
        invariant index <= |groups| && forall g | 0 <= g < index :: groups[g][0].claim != item.claim
      {
        index := index + 1;
      }
      if index < |groups| {
        Joined(evidence[..k], groups, item, index);
        groups := groups[index := groups[index] + [item]];
      } else {
        Opened(evidence[..k], groups, item);
        groups := groups + [[item]];
      }
    }
    assert evidence[..|evidence|] == evidence;
  }

  lemma EmptyIsGrouped()
    ensures Grouped([], [])
  {
  }

  lemma GroupsAreNonempty(evidence: seq<Evidence>, groups: seq<seq<Evidence>>)
    requires Grouped(evidence, groups)
    ensures forall g | 0 <= g < |groups| :: groups[g] != []
  {
  }

  /** A claim with a quorum is the claim of exactly one group. */
  lemma QuorumHasGroup(evidence: seq<Evidence>, groups: seq<seq<Evidence>>, quorum: nat, claim: Claim) returns (g: nat)
    requires Grouped(evidence, groups) && quorum > 0 && Qualifies(evidence, quorum, claim)
    ensures g < |groups| && groups[g] != [] && groups[g][0].claim == claim && groups[g] == Class(evidence, claim)
  {
    hide Class;
    var e := Class(evidence, claim)[0];
    ClassMembers(evidence, claim);
    assert e in Class(evidence, claim);
    g :| 0 <= g < |groups| && groups[g][0].claim == e.claim;
  }

  /** Succeeds exactly when one and only one claim has a quorum, and returns all the evidence for it. */
  method AgreeingQuorum(evidence: seq<Evidence>, quorum: nat) returns (selected: seq<Evidence>, ok: bool)
    requires quorum > 0
    ensures ok <==> exists claim :: UniqueQuorum(evidence, quorum, claim)
    ensures ok ==> selected != [] && UniqueQuorum(evidence, quorum, selected[0].claim) && selected == Class(evidence,
        selected[0].claim)
  {
    hide Class, Grouped;
    var groups := GroupEvidence(evidence);
    GroupFacts(evidence, groups);
    selected := [];
    for g := 0 to |groups|
      invariant selected != [] ==> |selected| >= quorum && exists h :: 0 <= h < g && groups[h] == selected
      invariant forall h | 0 <= h < g && |groups[h]| >= quorum :: groups[h] == selected
    {
      var group := groups[g];
      if |group| < quorum { continue; }
      if selected != [] {
        TwoQuorums(evidence, quorum, selected[0].claim, group[0].claim);
        return [], false;
      }
      selected := group;
    }
    ok := |selected| >= quorum;
    forall claim | Qualifies(evidence, quorum, claim) ensures selected != [] && claim == selected[0].claim {
      var g := QuorumHasGroup(evidence, groups, quorum, claim);
    }
    if ok { assert UniqueQuorum(evidence, quorum, selected[0].claim); }
  }

  lemma GroupFacts(evidence: seq<Evidence>, groups: seq<seq<Evidence>>)
    requires Grouped(evidence, groups)
    ensures forall g | 0 <= g < |groups| :: groups[g] != [] && groups[g] == Class(evidence, groups[g][0].claim)
    ensures forall g, h | 0 <= g < h < |groups| :: groups[g][0].claim != groups[h][0].claim
  {
  }

  lemma TwoQuorums(evidence: seq<Evidence>, quorum: nat, a: Claim, b: Claim)
    requires Qualifies(evidence, quorum, a) && Qualifies(evidence, quorum, b) && a != b
    ensures forall claim :: !UniqueQuorum(evidence, quorum, claim)
  {
  }

  // ---------- Order ----------

  lemma {:induction false} ClassCounts(evidence: seq<Evidence>, claim: Claim, e: Evidence)
    ensures multiset(Class(evidence, claim))[e] == if e.claim == claim then multiset(evidence)[e] else 0
  {
    if evidence != [] {
      ClassCounts(evidence[..|evidence| - 1], claim, e);
      assert evidence == evidence[..|evidence| - 1] + [evidence[|evidence| - 1]];
    }
  }

  lemma ClassPermutes(a: seq<Evidence>, b: seq<Evidence>, claim: Claim)
    requires multiset(a) == multiset(b)
    ensures multiset(Class(a, claim)) == multiset(Class(b, claim)) && |Class(a, claim)| == |Class(b, claim)|
  {
    forall e ensures multiset(Class(a, claim))[e] == multiset(Class(b, claim))[e] {
      ClassCounts(a, claim, e);
      ClassCounts(b, claim, e);
    }
    assert multiset(Class(a, claim)) == multiset(Class(b, claim));
    assert |multiset(Class(a, claim))| == |Class(a, claim)| && |multiset(Class(b, claim))| == |Class(b, claim)|;
  }

  /** The order in which evidence arrives never changes which claim is selected. */
  lemma SelectionForgetsOrder(a: seq<Evidence>, b: seq<Evidence>, quorum: nat, claim: Claim)
    requires multiset(a) == multiset(b)
    ensures UniqueQuorum(a, quorum, claim) <==> UniqueQuorum(b, quorum, claim)
    ensures multiset(Class(a, claim)) == multiset(Class(b, claim))
  {
    hide Class;
    forall other ensures Qualifies(a, quorum, other) <==> Qualifies(b, quorum, other) { ClassPermutes(a, b, other); }
    ClassPermutes(a, b, claim);
  }

  // ---------- Finality ----------

  function Minus(a: Word, b: Word): Word {
    (a - b) % UINT64
  }

  function Plus(a: Word, b: Word): Word {
    (a + b) % UINT64
  }

  /** In true integers: the block exists, both heads are at or beyond it, and it has its confirmations. */
  predicate FinalFor(e: Evidence, blockNumber: Word, confirmations: Word) {
    blockNumber <= e.confirmedHead && blockNumber <= e.finalizedHead
        && e.confirmedHead - blockNumber + 1 >= confirmations
  }

  predicate DistinctProviders(evidence: seq<Evidence>) {
    forall i, j | 0 <= i < j < |evidence| :: evidence[i].provider != evidence[j].provider
  }

  /** The test on the minimum heads, in machine words, is exactly the true test for every agreeing provider. */
  method CheckFinality(agreeing: seq<Evidence>, confirmations: Word) returns (ok: bool, confirmedHead: Word,
        finalizedHead: Word)
    requires agreeing != []
    ensures ok <==>
              && DistinctProviders(agreeing) && agreeing[0].claim.blockNumber != 0
              && forall i | 0 <= i < |agreeing| :: FinalFor(agreeing[i], agreeing[0].claim.blockNumber, confirmations)
    ensures ok ==> forall i | 0 <= i < |agreeing| ::
        confirmedHead <= agreeing[i].confirmedHead && finalizedHead <= agreeing[i].finalizedHead
    ensures ok ==> (exists i :: 0 <= i < |agreeing| && confirmedHead == agreeing[i].confirmedHead) && (exists i ::
        0 <= i < |agreeing| && finalizedHead == agreeing[i].finalizedHead)
  {
    var block := agreeing[0].claim.blockNumber;
    confirmedHead, finalizedHead := agreeing[0].confirmedHead, agreeing[0].finalizedHead;
    var seen: set<string> := {};
    for i := 0 to |agreeing|
      invariant DistinctProviders(agreeing[..i]) && forall p :: p in seen <==> exists j ::
          0 <= j < i && agreeing[j].provider == p
      invariant forall j | 0 <= j < i ::
          confirmedHead <= agreeing[j].confirmedHead && finalizedHead <= agreeing[j].finalizedHead
      invariant (exists j :: 0 <= j < |agreeing| && confirmedHead == agreeing[j].confirmedHead) && (exists j ::
          0 <= j < |agreeing| && finalizedHead == agreeing[j].finalizedHead)
    {
      if agreeing[i].provider in seen { return false, confirmedHead, finalizedHead; }
      seen := seen + {agreeing[i].provider};
      if agreeing[i].confirmedHead < confirmedHead { confirmedHead := agreeing[i].confirmedHead; }
      if agreeing[i].finalizedHead < finalizedHead { finalizedHead := agreeing[i].finalizedHead; }
    }
    assert agreeing[..|agreeing|] == agreeing;
    ok := !(block == 0 || confirmedHead < block || finalizedHead < block
        || Plus(Minus(confirmedHead, block), 1) < confirmations);
    if block != 0 && block <= confirmedHead { NoWraparound(confirmedHead, block); }
  }

  lemma NoWraparound(head: Word, block: Word)
    requires 0 < block <= head
    ensures Plus(Minus(head, block), 1) == head - block + 1
  {
  }
}
