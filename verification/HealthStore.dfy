/** Observation quorums and the asset-health tables, as the loops and row updates that they are. */
module HealthStores {
  import opened Text
  import opened Ordering
  import opened AssetHealth

  datatype Config = Config(chainID: nat, asset: string, proxyImplementation: string, runtimeCodeHash: string,
        quorum: nat, maxObservationAge: int)

  datatype Observation = Observation(
    provider: string, chainID: nat, asset: string, proxyImplementation: string, runtimeCodeHash: string, paused: bool,
    buyerBlacklisted: bool, escrowBlacklisted: bool, transferFailure: bool, finalizedBlock: nat,
        finalizedBlockHash: string, observedAt: Time)

  /** The digest of the agreed observation, without its provider, and the sorted providers. */
  type Digest = (Observation, seq<string>) -> string

  predicate ValidConfig(c: Config) {
    && (c.chainID == 8453 || c.chainID == 84532) && Address(c.asset) && Address(c.proxyImplementation)
        && Hash(c.runtimeCodeHash)
    && 2 <= c.quorum <= 5 && 0 < c.maxObservationAge <= 5 * MINUTE
  }

  /** What must be the same for every provider. */
  function Facts(o: Observation): Observation {
    o.(provider := "", observedAt := 0)
  }

  predicate WellFormed(o: Observation) {
    o.provider != "" && o.observedAt != 0 && o.finalizedBlock != 0 && Hash(o.finalizedBlockHash)
  }

  predicate Fresh(c: Config, o: Observation, now: Time) {
    o.observedAt <= now + MINUTE && now - o.observedAt <= c.maxObservationAge
  }

  /** Enough fresh, well-formed observations of the configured asset, one per provider, all stating the same facts. */
  predicate Agree(c: Config, os: seq<Observation>, now: Time) {
    && ValidConfig(c) && c.quorum <= |os| <= 5
    && (forall i | 0 <= i < |os| :: WellFormed(os[i]) && Fresh(c, os[i], now) && Facts(os[i]) == Facts(os[0]))
    && (forall i, j | 0 <= i < j < |os| :: os[i].provider != os[j].provider)
    && os[0].chainID == c.chainID && os[0].asset == c.asset
  }

  function Classify(c: Config, o: Observation): State {
    if o.paused then TokenPaused
    else if o.buyerBlacklisted || o.escrowBlacklisted || o.transferFailure
        || o.proxyImplementation != c.proxyImplementation
            || o.runtimeCodeHash != c.runtimeCodeHash then AssetTransferBlocked
    else Normal
  }

  predicate Earliest(os: seq<Observation>, at: Time) {
    (forall i | 0 <= i < |os| :: at <= os[i].observedAt) && exists i :: 0 <= i < |os| && os[i].observedAt == at
  }

  function Providers(os: seq<Observation>): seq<string> {
    Mapped((o: Observation) => o.provider, os)
  }

  lemma ProvidersAt(os: seq<Observation>)
    ensures |Providers(os)| == |os| && forall i | 0 <= i < |os| :: Providers(os)[i] == os[i].provider
  {
  }

  lemma ProvidersAppend(os: seq<Observation>, i: nat)
    requires i < |os|
    ensures Providers(os[..i + 1]) == Providers(os[..i]) + [os[i].provider]
  {
    assert os[..i + 1] == os[..i] + [os[i]];
    MappedConcat((o: Observation) => o.provider, os[..i], [os[i]]);
  }

  /** The first `n` observations are acceptable and agree with the first of all. */
  predicate PrefixAgrees(c: Config, os: seq<Observation>, n: nat, now: Time)
    requires 0 < |os| && n <= |os|
  {
    && (forall i | 0 <= i < n :: WellFormed(os[i]) && Fresh(c, os[i], now) && Facts(os[i]) == Facts(os[0]))
    && (forall i, j | 0 <= i < j < n :: os[i].provider != os[j].provider)
  }

  lemma PrefixGrows(c: Config, os: seq<Observation>, i: nat, now: Time)
    requires i < |os| && PrefixAgrees(c, os, i, now)
    ensures PrefixAgrees(c, os, i + 1, now) <==>
              WellFormed(os[i]) && Fresh(c, os[i], now) && Facts(os[i]) == Facts(os[0])
                  && os[i].provider !in Providers(os[..i])
  {
    hide WellFormed, Fresh, Facts, Providers;
    ProvidersAt(os[..i]);
    if os[i].provider in Providers(os[..i]) {
      var j :| 0 <= j < i && Providers(os[..i])[j] == os[i].provider;
      assert os[j].provider == os[i].provider;
    }
  }

  lemma AgreementHasPrefixes(c: Config, os: seq<Observation>, now: Time, n: nat)
    requires Agree(c, os, now) && 0 < |os| && n <= |os|
    ensures PrefixAgrees(c, os, n, now)
  {
    hide ValidConfig;
  }

  lemma PrefixDecides(c: Config, os: seq<Observation>, n: nat, now: Time)
    requires 0 < |os| && n <= |os| && !PrefixAgrees(c, os, n, now)
    ensures !Agree(c, os, now)
  {
    hide Agree, PrefixAgrees;
    if Agree(c, os, now) { AgreementHasPrefixes(c, os, now, n); }
  }

  /** A decision exists exactly when the observers agree; it dates from the earliest of them. */
  method Evaluate(digest: Digest, c: Config, os: seq<Observation>, now: Clock) returns (r: Option<Decision>)
    ensures r.Some? <==> Agree(c, os, now)
    ensures r.Some? ==>
              && r.value.state == Classify(c, os[0]) && r.value.finalizedBlock == os[0].finalizedBlock
                  && Earliest(os, r.value.observedAt)
              && r.value.evidenceDigest == digest(Facts(os[0]).(observedAt := r.value.observedAt),
                  Sort(StringLess, Providers(os)))
  {
    hide ValidConfig, WellFormed, Fresh, StringLess, Providers, PrefixAgrees;
    if !ValidConfig(c) || |os| < c.quorum || |os| > 5 { return None; }
    QuorumIsPositive(c);
    var canonical := os[0];
    var providers: seq<string> := [];
    EmptyPrefix(c, os, now);
    for i := 0 to |os|
      invariant canonical == os[0].(observedAt := canonical.observedAt)
      invariant PrefixAgrees(c, os, i, now) && providers == Providers(os[..i])
      invariant canonical.observedAt <= os[0].observedAt
          && forall j | 0 <= j < i :: canonical.observedAt <= os[j].observedAt
      invariant exists j :: 0 <= j < |os| && os[j].observedAt == canonical.observedAt
    {
      var o := os[i];
      PrefixGrows(c, os, i, now);
      if !WellFormed(o) || !Fresh(c, o, now) || o.provider in providers || Facts(canonical) != Facts(o) {
        PrefixDecides(c, os, i + 1, now);
        return None;
      }
      ProvidersAppend(os, i);
      providers := providers + [o.provider];
      if o.observedAt < canonical.observedAt { canonical := canonical.(observedAt := o.observedAt); }
    }
    assert os[..|os|] == os;
    WholePrefix(c, os, now);
    if canonical.chainID != c.chainID || canonical.asset != c.asset { return None; }
    var payload := canonical.(provider := "");
    return Some(Decision(Classify(c, canonical), digest(payload, Sort(StringLess, providers)),
        canonical.finalizedBlock, canonical.observedAt));
  }

  lemma EmptyPrefix(c: Config, os: seq<Observation>, now: Time)
    requires 0 < |os|
    ensures PrefixAgrees(c, os, 0, now) && Providers(os[..0]) == []
  {
  }

  lemma WholePrefix(c: Config, os: seq<Observation>, now: Time)
    requires ValidConfig(c) && c.quorum <= |os| <= 5 && 0 < |os| && PrefixAgrees(c, os, |os|, now)
    ensures Agree(c, os, now) <==> os[0].chainID == c.chainID && os[0].asset == c.asset
  {
    hide ValidConfig, WellFormed, Fresh, Facts;
  }

  lemma QuorumIsPositive(c: Config)
    requires ValidConfig(c)
    ensures c.quorum > 0
  {
  }

  lemma ProvidersPermute(a: seq<Observation>, b: seq<Observation>)
    requires multiset(a) == multiset(b)
    ensures multiset(Providers(a)) == multiset(Providers(b))
  {
    MappedPermutes((o: Observation) => o.provider, a, b);
  }

  lemma AgreementForgetsOrder(c: Config, a: seq<Observation>, b: seq<Observation>, now: Time)
    requires multiset(a) == multiset(b) && Agree(c, a, now)
    ensures Agree(c, b, now) && Facts(a[0]) == Facts(b[0])
  {
    hide ValidConfig, Hash, Providers;
    assert |multiset(a)| == |multiset(b)|;
    QuorumIsPositive(c);
    ProvidersAt(a);
    ProvidersAt(b);
    forall i | 0 <= i < |b| ensures b[i] in a { assert b[i] in multiset(a); }
    ProvidersPermute(a, b);
    assert NoDuplicates(Providers(a));
    DuplicatesSurvivePermutation(Providers(a), Providers(b));
    forall i, j | 0 <= i < j < |b| ensures b[i].provider != b[j].provider {
      assert Providers(b)[i] != Providers(b)[j];
    }
  }

  /** The order in which providers answer changes neither the verdict nor the evidence digest. */
  lemma EvaluationForgetsOrder(digest: Digest, c: Config, a: seq<Observation>, b: seq<Observation>, now: Time, x: Time,
        y: Time)
    requires multiset(a) == multiset(b) && Agree(c, a, now) && Earliest(a, x) && |b| > 0 && Earliest(b, y)
    ensures x == y && Classify(c, a[0]) == Classify(c, b[0])
    ensures digest(Facts(a[0]).(observedAt := x), Sort(StringLess, Providers(a))) == digest(Facts(b[0]).(observedAt :=
        y), Sort(StringLess, Providers(b)))
  {
    hide Agree, StringLess, Providers;
    AgreementForgetsOrder(c, a, b, now);
    var i :| 0 <= i < |a| && a[i].observedAt == x;
    var j :| 0 <= j < |b| && b[j].observedAt == y;
    assert a[i] in multiset(b) && b[j] in multiset(a);
    var m :| 0 <= m < |b| && b[m] == a[i];
    var n :| 0 <= n < |a| && a[n] == b[j];
    assert y <= b[m].observedAt && x <= a[n].observedAt;
    ProvidersPermute(a, b);
    StringLessIsTotal();
    SortForgetsOrder(StringLess, Providers(a), Providers(b));
    SameFactsClassify(c, a[0], b[0]);
  }

  lemma SameFactsClassify(c: Config, a: Observation, b: Observation)
    requires Facts(a) == Facts(b)
    ensures Classify(c, a) == Classify(c, b)
  {
    assert Facts(a).paused == a.paused && Facts(b).paused == b.paused;
  }

  lemma OpenBlockRead(h: Health, op: string)
    ensures HasOpenBlock(h, op) <==> exists k | k in h.blocks :: k !in h.recoveries && k.1 == op
  {
  }

  class HealthStore {
    var record: Record
    var seen: set<string>
    var blocks: map<BlockKey, nat>
    var recoveries: map<BlockKey, nat>
    var proofs: set<string>

    function Value(): Health
      reads this
    {
      Health(record, seen, blocks, recoveries, proofs)
    }

    constructor ()
      ensures Value() == Initial()
    {
      record, seen, blocks, recoveries, proofs := Record(Normal, 0, "", 0, 0), {}, map[], map[], {};
    }

    method Transition(d: Decision, s: Settlement) returns (r: Record)
      modifies this
      ensures Value() == AssetHealth.Transition(old(Value()), d, s) && r == record
    {
      hide NewBlocks;
      if d.evidenceDigest in seen { return record; }
      var target := if d.state == Normal && record.state != Normal then Recovering else d.state;
      var epoch := record.epoch;
      if target != record.state { epoch := epoch + 1; }
      seen := seen + {d.evidenceDigest};
      if d.state == Normal && record.state == Recovering { return record; }
      record := Record(target, epoch, d.evidenceDigest, d.finalizedBlock, d.observedAt);
      if target == TokenPaused || target == AssetTransferBlocked {
        var added := SelectBlocks(d.evidenceDigest, s.locks, old(Value()));
        blocks := blocks + added;
      }
      return record;
    }

    /** The query of the INSERT: visit every lock once, skip those with an open block. */
    method SelectBlocks(digest: string, locks: map<string, nat>, ghost h: Health) returns (added: map<BlockKey, nat>)
      requires h.blocks == blocks && h.recoveries == recoveries
      ensures added == NewBlocks(h, digest, locks)
    {
      hide HasOpenBlock;
      added := map[];
      var left := locks.Keys;
      while left != {}
        invariant left <= locks.Keys
        invariant added == map op | op in locks && op !in left && !HasOpenBlock(h, op) :: (digest, op) := locks[op]
        decreases |left|
      {
        var op :| op in left;
        left := left - {op};
        OpenBlockRead(h, op);
        if !exists k | k in blocks :: k !in recoveries && k.1 == op { added := added[(digest, op) := locks[op]]; }
      }
    }

    method CompleteRecovery(digest: Proof -> string, p: Proof, s: Settlement, now: Clock) returns (r: Result)
      modifies this
      ensures Value() == if CanComplete(digest, old(Value()), p, s, now) then Complete(old(Value()), p)
          else old(Value())
      ensures r == if CanComplete(digest, old(Value()), p, s, now) then Ok(record) else RecoveryIncomplete
    {
      if record.state != Recovering || !ValidProof(digest, record, p, now) { return RecoveryIncomplete; }
      if !Reconciled(Value(), s) { return RecoveryIncomplete; }
      if p.reconciledAt > now || p.evidenceDigest in proofs { return RecoveryIncomplete; }
      proofs := proofs + {p.evidenceDigest};
      recoveries := recoveries + (map k | k in blocks && k !in recoveries :: blocks[k]);
      record := record.(state := Normal, epoch := record.epoch + 1, evidenceDigest := p.evidenceDigest);
      return Ok(record);
    }
  }
}
