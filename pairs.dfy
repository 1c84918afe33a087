/** The catalog of supported trading pairs.  A `PairInfo` is a datatype
    value, so, like the `readonly` record it models, it cannot be changed
    after it is built. */
module Pairs {
  import opened JsValues

  /** `rewards` is a JS float in the catalog; only its presence matters here. */
  datatype PairInfo = PairInfo(chainId: nat, id: nat, name: string,
                               baseCurrencyKey: string, quoteCurrencyKey: string,
                               rewards: Option<real>)

  /** `SUPPORTED_PAIRS_INFO`: mainnet (chain 1), then Yeouido (chain 3). */
  const SUPPORTED_PAIRS_INFO: seq<PairInfo> := [
    PairInfo(1, 1, "sICX/ICX", "sICX", "ICX", Some(0.1)),
    PairInfo(1, 2, "sICX/bnUSD", "sICX", "bnUSD", Some(0.175)),
    PairInfo(1, 3, "BALN/bnUSD", "BALN", "bnUSD", Some(0.175)),
    PairInfo(1, 4, "BALN/sICX", "BALN", "sICX", Some(0.05)),
    PairInfo(1, 5, "IUSDC/bnUSD", "IUSDC", "bnUSD", None),
    PairInfo(1, 7, "OMM/sICX", "OMM", "sICX", None),
    PairInfo(1, 6, "OMM/IUSDC", "OMM", "IUSDC", None),
    PairInfo(1, 8, "OMM/USDS", "OMM", "USDS", None),
    PairInfo(3, 1, "sICX/ICX", "sICX", "ICX", Some(0.1)),
    PairInfo(3, 2, "sICX/bnUSD", "sICX", "bnUSD", Some(0.175)),
    PairInfo(3, 3, "BALN/bnUSD", "BALN", "bnUSD", Some(0.175)),
    PairInfo(3, 4, "BALN/sICX", "BALN", "sICX", Some(0.05)),
    PairInfo(3, 22, "OMM/IUSDC", "OMM", "IUSDC", None),
    PairInfo(3, 20, "OMM/sICX", "OMM", "sICX", None),
    PairInfo(3, 21, "OMM/USDS", "OMM", "USDS", None)
  ]

  /** The pairs that earn rewards. */
  const REWARDED_NAMES: set<string> := {"sICX/ICX", "sICX/bnUSD", "BALN/bnUSD", "BALN/sICX"}

  /** A well-formed entry: its name is `base/quote` and base differs from quote. */
  predicate WellFormed(p: PairInfo) {
    p.name == p.baseCurrencyKey + "/" + p.quoteCurrencyKey && p.baseCurrencyKey != p.quoteCurrencyKey
  }

  /** From position `k` on, no entry repeats the id of a later entry on the
      same chain: checked one entry at a time. */
  predicate IdsFreshFrom(s: seq<PairInfo>, k: nat)
    decreases |s| - k
  {
    k >= |s| ||
    ((forall j :: k < j < |s| && s[j].chainId == s[k].chainId ==> s[j].id != s[k].id)
     && IdsFreshFrom(s, k + 1))
  }

  /** The number of entries on `chainId` from position `k` on. */
  function CountOnChain(s: seq<PairInfo>, chainId: nat, k: nat): nat
    decreases |s| - k
  {
    if k >= |s| then 0 else (if s[k].chainId == chainId then 1 else 0) + CountOnChain(s, chainId, k + 1)
  }

  /** Checking each entry against the later ones means ids are distinct
      within each chain. */
  lemma {:induction false} IdsFreshFromDistinct(s: seq<PairInfo>, k: nat)
    requires IdsFreshFrom(s, k)
    ensures forall i, j :: k <= i < j < |s| && s[i].chainId == s[j].chainId ==> s[i].id != s[j].id
    decreases |s| - k
  {
    if k < |s| {
      IdsFreshFromDistinct(s, k + 1);
    }
  }

  /** The Yeouido half of the catalog has no repeated id. */
  lemma IdsFreshFromYeouido()
    ensures IdsFreshFrom(SUPPORTED_PAIRS_INFO, 8)
  {
    assert IdsFreshFrom(SUPPORTED_PAIRS_INFO, 14);
    assert IdsFreshFrom(SUPPORTED_PAIRS_INFO, 13);
    assert IdsFreshFrom(SUPPORTED_PAIRS_INFO, 12);
    assert IdsFreshFrom(SUPPORTED_PAIRS_INFO, 11);
    assert IdsFreshFrom(SUPPORTED_PAIRS_INFO, 10);
    assert IdsFreshFrom(SUPPORTED_PAIRS_INFO, 9);
  }

  /** The catalog from the fifth entry on has no repeated id per chain. */
  lemma IdsFreshFromFifth()
    ensures IdsFreshFrom(SUPPORTED_PAIRS_INFO, 4)
  {
    IdsFreshFromYeouido();
    assert IdsFreshFrom(SUPPORTED_PAIRS_INFO, 7);
    assert IdsFreshFrom(SUPPORTED_PAIRS_INFO, 6);
    assert IdsFreshFrom(SUPPORTED_PAIRS_INFO, 5);
  }

  /** Within each chain the pair ids are pairwise distinct. */
  lemma IdsUniquePerChain()
    ensures forall i, j :: 0 <= i < j < |SUPPORTED_PAIRS_INFO|
              && SUPPORTED_PAIRS_INFO[i].chainId == SUPPORTED_PAIRS_INFO[j].chainId
              ==> SUPPORTED_PAIRS_INFO[i].id != SUPPORTED_PAIRS_INFO[j].id
  {
    IdsFreshFromFifth();
    assert IdsFreshFrom(SUPPORTED_PAIRS_INFO, 3);
    assert IdsFreshFrom(SUPPORTED_PAIRS_INFO, 2);
    assert IdsFreshFrom(SUPPORTED_PAIRS_INFO, 1);
    assert IdsFreshFrom(SUPPORTED_PAIRS_INFO, 0);
    IdsFreshFromDistinct(SUPPORTED_PAIRS_INFO, 0);
  }

  /** Every entry is named `base/quote` and pairs two different currencies. */
  lemma AllWellFormed()
    ensures forall i :: 0 <= i < |SUPPORTED_PAIRS_INFO| ==> WellFormed(SUPPORTED_PAIRS_INFO[i])
  {
  }

  /** The Yeouido half of the catalog: seven entries, all on chain 3. */
  lemma CountsOfYeouido()
    ensures CountOnChain(SUPPORTED_PAIRS_INFO, 1, 8) == 0 && CountOnChain(SUPPORTED_PAIRS_INFO, 3, 8) == 7
  {
    var s := SUPPORTED_PAIRS_INFO;
    assert CountOnChain(s, 1, 14) == 0 && CountOnChain(s, 3, 14) == 1;
    assert CountOnChain(s, 1, 13) == 0 && CountOnChain(s, 3, 13) == 2;
    assert CountOnChain(s, 1, 12) == 0 && CountOnChain(s, 3, 12) == 3;
    assert CountOnChain(s, 1, 11) == 0 && CountOnChain(s, 3, 11) == 4;
    assert CountOnChain(s, 1, 10) == 0 && CountOnChain(s, 3, 10) == 5;
    assert CountOnChain(s, 1, 9) == 0 && CountOnChain(s, 3, 9) == 6;
  }

  /** Only chains 1 and 3 occur: eight pairs on mainnet, seven on Yeouido. */
  lemma ChainCounts()
    ensures forall i :: 0 <= i < |SUPPORTED_PAIRS_INFO| ==>
              SUPPORTED_PAIRS_INFO[i].chainId == 1 || SUPPORTED_PAIRS_INFO[i].chainId == 3
    ensures CountOnChain(SUPPORTED_PAIRS_INFO, 1, 0) == 8
    ensures CountOnChain(SUPPORTED_PAIRS_INFO, 3, 0) == 7
  {
    var s := SUPPORTED_PAIRS_INFO;
    CountsOfYeouido();
    assert CountOnChain(s, 1, 7) == 1 && CountOnChain(s, 3, 7) == 7;
    assert CountOnChain(s, 1, 6) == 2 && CountOnChain(s, 3, 6) == 7;
    assert CountOnChain(s, 1, 5) == 3 && CountOnChain(s, 3, 5) == 7;
    assert CountOnChain(s, 1, 4) == 4 && CountOnChain(s, 3, 4) == 7;
    assert CountOnChain(s, 1, 3) == 5 && CountOnChain(s, 3, 3) == 7;
    assert CountOnChain(s, 1, 2) == 6 && CountOnChain(s, 3, 2) == 7;
    assert CountOnChain(s, 1, 1) == 7 && CountOnChain(s, 3, 1) == 7;
  }

  /** `rewards` is present exactly on the four sICX and BALN pairs of each chain. */
  lemma RewardsOnlyOnIncentivisedPairs()
    ensures forall i :: 0 <= i < |SUPPORTED_PAIRS_INFO| ==>
              (SUPPORTED_PAIRS_INFO[i].rewards.Some? <==> SUPPORTED_PAIRS_INFO[i].name in REWARDED_NAMES)
  {
  }
}
