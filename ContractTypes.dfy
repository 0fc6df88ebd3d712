/**
 * The contract-type classifier: a selector list is ERC20 when it covers the
 * six functions of the EIP-20 token interface, otherwise ERC721 when it
 * covers the nine functions of the EIP-721 interface, and ANY otherwise.
 * Coverage is decided by counting the entries of the list that belong to
 * the reference list and comparing the count with the reference length.
 */
module ContractTypes {

  import opened Utils
  import opened Selectors

  datatype ContractType = ERC20 | ERC721 | ANY

  /** allowance, approve, balanceOf, totalSupply, transfer, transferFrom. */
  const Erc20DefaultFuncs: seq<Selector> := [
    [0xdd, 0x62, 0xed, 0x3e], [0x09, 0x5e, 0xa7, 0xb3], [0x70, 0xa0, 0x82, 0x31],
    [0x18, 0x16, 0x0d, 0xdd], [0xa9, 0x05, 0x9c, 0xbb], [0x23, 0xb8, 0x72, 0xdd]]

  /**
   * balanceOf, ownerOf, safeTransferFrom (with and without data),
   * transferFrom, approve, setApprovalForAll, getApproved, isApprovedForAll.
   */
  const Erc721DefaultFuncs: seq<Selector> := [
    [0x70, 0xa0, 0x82, 0x31], [0x63, 0x52, 0x21, 0x1e], [0xb8, 0x8d, 0x4f, 0xde],
    [0x42, 0x84, 0x2e, 0x0e], [0x23, 0xb8, 0x72, 0xdd], [0x09, 0x5e, 0xa7, 0xb3],
    [0xa2, 0x2c, 0xb4, 0x65], [0x08, 0x18, 0x12, 0xfc], [0xe9, 0x85, 0xe9, 0xc5]]

  /** The reference lists as the repository writes them, in hex text. */
  const Erc20DefaultStrings: seq<string> := [
    "0xdd62ed3e", "0x095ea7b3", "0x70a08231",
    "0x18160ddd", "0xa9059cbb", "0x23b872dd"]

  const Erc721DefaultStrings: seq<string> := [
    "0x70a08231", "0x6352211e", "0xb88d4fde",
    "0x42842e0e", "0x23b872dd", "0x095ea7b3",
    "0xa22cb465", "0x081812fc", "0xe985e9c5"]

  /** The number of entries of sels that occur in refs, repeats counted. */
  function CountIn(sels: seq<Selector>, refs: seq<Selector>): (n: nat)
    ensures n <= |sels|
  {
    if sels == [] then 0 else (if sels[0] in refs then 1 else 0) + CountIn(sels[1..], refs)
  }

  /** The literal coverage test (`has_all_selectors`). */
  predicate HasAllSelectors(refs: seq<Selector>, sels: seq<Selector>) {
    CountIn(sels, refs) == |refs|
  }

  /** Classifies a selector list (`from_selectors`). */
  function FromSelectors(sels: seq<Selector>): ContractType {
    if HasAllSelectors(Erc20DefaultFuncs, sels) then ERC20
    else if HasAllSelectors(Erc721DefaultFuncs, sels) then ERC721
    else ANY
  }

  /** Every reference selector occurs in the list. */
  predicate Covers(sels: seq<Selector>, refs: seq<Selector>) {
    forall r :: r in refs ==> r in sels
  }

  // Counting and sets.

  lemma {:induction false} CountInConcat(a: seq<Selector>, b: seq<Selector>, refs: seq<Selector>)
    ensures CountIn(a + b, refs) == CountIn(a, refs) + CountIn(b, refs)
  {
    if a == [] {
      assert a + b == b;
    } else {
      assert (a + b)[1..] == a[1..] + b;
      CountInConcat(a[1..], b, refs);
    }
  }

  /** On a list without repeats the count is the number of distinct reference selectors present. */
  lemma {:induction false} CountInDistinct(sels: seq<Selector>, refs: seq<Selector>)
    requires NoDuplicates(sels)
    ensures CountIn(sels, refs) == |set x | x in sels && x in refs|
  {
    if sels == [] {
      assert (set x | x in sels && x in refs) == {};
    } else {
      var rest := sels[1..];
      assert NoDuplicates(rest) by {
        forall i, j | 0 <= i < j < |rest|
          ensures rest[i] != rest[j]
        {
          assert rest[i] == sels[i + 1] && rest[j] == sels[j + 1];
        }
      }
      CountInDistinct(rest, refs);
      var here := set x | x in sels && x in refs;
      var later := set x | x in rest && x in refs;
      assert sels == [sels[0]] + rest;
      assert sels[0] !in rest by {
        forall j | 0 <= j < |rest|
          ensures rest[j] != sels[0]
        {
          assert rest[j] == sels[j + 1];
        }
      }
      if sels[0] in refs {
        assert here == later + {sels[0]};
      } else {
        assert here == later;
      }
    }
  }

  lemma {:induction false} DistinctCardinality(xs: seq<Selector>)
    requires NoDuplicates(xs)
    ensures |set x | x in xs| == |xs|
  {
    if xs != [] {
      var rest := xs[1..];
      assert NoDuplicates(rest) by {
        forall i, j | 0 <= i < j < |rest|
          ensures rest[i] != rest[j]
        {
          assert rest[i] == xs[i + 1] && rest[j] == xs[j + 1];
        }
      }
      DistinctCardinality(rest);
      assert xs[0] !in rest by {
        forall j | 0 <= j < |rest|
          ensures rest[j] != xs[0]
        {
          assert rest[j] == xs[j + 1];
        }
      }
      assert xs == [xs[0]] + rest;
      assert (set x | x in xs) == (set x | x in rest) + {xs[0]};
    }
  }

  lemma SubsetCardinality(a: set<Selector>, b: set<Selector>)
    requires a <= b
    ensures |a| <= |b|
    ensures |a| == |b| ==> a == b
  {
    assert b == a + (b - a);
    assert a * (b - a) == {};
    if |a| == |b| {
      assert |b - a| == 0;
    }
  }

  /**
   * For a list without repeats the count test is coverage: it holds iff
   * every reference selector occurs in the list.
   */
  lemma HasAllSelectorsIff(refs: seq<Selector>, sels: seq<Selector>)
    requires NoDuplicates(sels) && NoDuplicates(refs)
    ensures HasAllSelectors(refs, sels) <==> Covers(sels, refs)
  {
    CountInDistinct(sels, refs);
    DistinctCardinality(refs);
    var present := set x | x in sels && x in refs;
    var all := set x | x in refs;
    SubsetCardinality(present, all);
    if Covers(sels, refs) {
      assert present == all;
    }
    if HasAllSelectors(refs, sels) {
      forall r | r in refs
        ensures r in sels
      {
        assert r in all;
      }
    }
  }

  lemma ReferenceListsDistinct()
    ensures NoDuplicates(Erc20DefaultFuncs)
    ensures NoDuplicates(Erc721DefaultFuncs)
  {
  }

  /** Two lists correspond when they have the same length and agree entry by entry. */
  lemma StringSelectorsPointwise(sels: seq<Selector>, strs: seq<string>)
    requires |sels| == |strs|
    requires forall i :: 0 <= i < |sels| ==> SelectorString(sels[i]) == strs[i]
    ensures StringSelectors(sels) == strs
  {
  }

  // The hex form of the reference entries, two at a time.

  lemma Erc20DefaultHexA()
    ensures forall i :: 0 <= i < 2 ==> SelectorString(Erc20DefaultFuncs[i]) == Erc20DefaultStrings[i]
  {
    forall i | 0 <= i < 2
      ensures SelectorString(Erc20DefaultFuncs[i]) == Erc20DefaultStrings[i]
    {
      if i == 0 {
        SelectorStringOf([0xdd, 0x62, 0xed, 0x3e], "0xdd62ed3e");
      } else {
        SelectorStringOf([0x09, 0x5e, 0xa7, 0xb3], "0x095ea7b3");
      }
    }
  }

  lemma Erc20DefaultHexB()
    ensures forall i :: 2 <= i < 4 ==> SelectorString(Erc20DefaultFuncs[i]) == Erc20DefaultStrings[i]
  {
    forall i | 2 <= i < 4
      ensures SelectorString(Erc20DefaultFuncs[i]) == Erc20DefaultStrings[i]
    {
      if i == 2 {
        SelectorStringOf([0x70, 0xa0, 0x82, 0x31], "0x70a08231");
      } else {
        SelectorStringOf([0x18, 0x16, 0x0d, 0xdd], "0x18160ddd");
      }
    }
  }

  lemma Erc20DefaultHexC()
    ensures forall i :: 4 <= i < 6 ==> SelectorString(Erc20DefaultFuncs[i]) == Erc20DefaultStrings[i]
  {
    forall i | 4 <= i < 6
      ensures SelectorString(Erc20DefaultFuncs[i]) == Erc20DefaultStrings[i]
    {
      if i == 4 {
        SelectorStringOf([0xa9, 0x05, 0x9c, 0xbb], "0xa9059cbb");
      } else {
        SelectorStringOf([0x23, 0xb8, 0x72, 0xdd], "0x23b872dd");
      }
    }
  }

  /** The ERC20 reference selectors are the repository's hex strings, entry by entry. */
  lemma Erc20DefaultFuncsHex()
    ensures StringSelectors(Erc20DefaultFuncs) == Erc20DefaultStrings
  {
    Erc20DefaultHexA();
    Erc20DefaultHexB();
    Erc20DefaultHexC();
    StringSelectorsPointwise(Erc20DefaultFuncs, Erc20DefaultStrings);
  }

  lemma Erc721DefaultHexA()
    ensures forall i :: 0 <= i < 2 ==> SelectorString(Erc721DefaultFuncs[i]) == Erc721DefaultStrings[i]
  {
    forall i | 0 <= i < 2
      ensures SelectorString(Erc721DefaultFuncs[i]) == Erc721DefaultStrings[i]
    {
      if i == 0 {
        SelectorStringOf([0x70, 0xa0, 0x82, 0x31], "0x70a08231");
      } else {
        SelectorStringOf([0x63, 0x52, 0x21, 0x1e], "0x6352211e");
      }
    }
  }

  lemma Erc721DefaultHexB()
    ensures forall i :: 2 <= i < 4 ==> SelectorString(Erc721DefaultFuncs[i]) == Erc721DefaultStrings[i]
  {
    forall i | 2 <= i < 4
      ensures SelectorString(Erc721DefaultFuncs[i]) == Erc721DefaultStrings[i]
    {
      if i == 2 {
        SelectorStringOf([0xb8, 0x8d, 0x4f, 0xde], "0xb88d4fde");
      } else {
        SelectorStringOf([0x42, 0x84, 0x2e, 0x0e], "0x42842e0e");
      }
    }
  }

  lemma Erc721DefaultHexC()
    ensures forall i :: 4 <= i < 6 ==> SelectorString(Erc721DefaultFuncs[i]) == Erc721DefaultStrings[i]
  {
    forall i | 4 <= i < 6
      ensures SelectorString(Erc721DefaultFuncs[i]) == Erc721DefaultStrings[i]
    {
      if i == 4 {
        SelectorStringOf([0x23, 0xb8, 0x72, 0xdd], "0x23b872dd");
      } else {
        SelectorStringOf([0x09, 0x5e, 0xa7, 0xb3], "0x095ea7b3");
      }
    }
  }

  lemma Erc721DefaultHexD()
    ensures forall i :: 6 <= i < 8 ==> SelectorString(Erc721DefaultFuncs[i]) == Erc721DefaultStrings[i]
  {
    forall i | 6 <= i < 8
      ensures SelectorString(Erc721DefaultFuncs[i]) == Erc721DefaultStrings[i]
    {
      if i == 6 {
        SelectorStringOf([0xa2, 0x2c, 0xb4, 0x65], "0xa22cb465");
      } else {
        SelectorStringOf([0x08, 0x18, 0x12, 0xfc], "0x081812fc");
      }
    }
  }

  lemma Erc721DefaultHexE()
    ensures forall i :: 8 <= i < 9 ==> SelectorString(Erc721DefaultFuncs[i]) == Erc721DefaultStrings[i]
  {
    forall i | 8 <= i < 9
      ensures SelectorString(Erc721DefaultFuncs[i]) == Erc721DefaultStrings[i]
    {
      {
        SelectorStringOf([0xe9, 0x85, 0xe9, 0xc5], "0xe985e9c5");
      }
    }
  }

  /** The ERC721 reference selectors are the repository's hex strings, entry by entry. */
  lemma Erc721DefaultFuncsHex()
    ensures StringSelectors(Erc721DefaultFuncs) == Erc721DefaultStrings
  {
    Erc721DefaultHexA();
    Erc721DefaultHexB();
    Erc721DefaultHexC();
    Erc721DefaultHexD();
    Erc721DefaultHexE();
    StringSelectorsPointwise(Erc721DefaultFuncs, Erc721DefaultStrings);
  }

  /**
   * On a list without repeats, such as the extractor returns: ERC20 iff the
   * EIP-20 functions are covered, so also when both sets are; ERC721 iff
   * only the EIP-721 functions are; ANY iff neither is.
   */
  lemma FromSelectorsCoverage(sels: seq<Selector>)
    requires NoDuplicates(sels)
    ensures FromSelectors(sels) == ERC20 <==> Covers(sels, Erc20DefaultFuncs)
    ensures FromSelectors(sels) == ERC721 <==> Covers(sels, Erc721DefaultFuncs) && !Covers(sels, Erc20DefaultFuncs)
    ensures FromSelectors(sels) == ANY <==> !Covers(sels, Erc20DefaultFuncs) && !Covers(sels, Erc721DefaultFuncs)
  {
    ReferenceListsDistinct();
    HasAllSelectorsIff(Erc20DefaultFuncs, sels);
    HasAllSelectorsIff(Erc721DefaultFuncs, sels);
  }

  /** The classification of recovered selectors is by coverage. */
  lemma ClassifyRecovered(code: seq<uint8>)
    ensures var sels := SelectorsOf(code);
      && (FromSelectors(sels) == ERC20 <==> Covers(sels, Erc20DefaultFuncs))
      && (FromSelectors(sels) == ERC721 <==> Covers(sels, Erc721DefaultFuncs) && !Covers(sels, Erc20DefaultFuncs))
  {
    SelectorsOfNoDuplicates(code);
    FromSelectorsCoverage(SelectorsOf(code));
  }

  // Invariance.

  /** Taking one entry out of the list takes its contribution out of the count. */
  lemma CountInRemove(b: seq<Selector>, k: nat, refs: seq<Selector>)
    requires k < |b|
    ensures CountIn(b, refs) == (if b[k] in refs then 1 else 0) + CountIn(b[..k] + b[k + 1..], refs)
  {
    assert b == b[..k] + ([b[k]] + b[k + 1..]);
    CountInConcat(b[..k], [b[k]] + b[k + 1..], refs);
    CountInConcat(b[..k], b[k + 1..], refs);
    assert ([b[k]] + b[k + 1..])[1..] == b[k + 1..];
  }

  lemma MultisetRemove(a: seq<Selector>, b: seq<Selector>, k: nat)
    requires a != [] && k < |b| && b[k] == a[0]
    requires multiset(a) == multiset(b)
    ensures multiset(a[1..]) == multiset(b[..k] + b[k + 1..])
  {
    var x := a[0];
    var rest := b[..k] + b[k + 1..];
    assert a == [x] + a[1..];
    assert b == b[..k] + [x] + b[k + 1..];
    assert multiset(a) == multiset(a[1..]) + multiset{x};
    assert multiset(b) == multiset(rest) + multiset{x};
    forall y
      ensures multiset(a[1..])[y] == multiset(rest)[y]
    {
      assert multiset(a)[y] == multiset(b)[y];
    }
  }

  lemma {:induction false} CountInPermutation(a: seq<Selector>, b: seq<Selector>, refs: seq<Selector>)
    requires multiset(a) == multiset(b)
    ensures CountIn(a, refs) == CountIn(b, refs)
    decreases |a|
  {
    if a == [] {
      assert |b| == |multiset(b)| == 0;
    } else {
      assert a[0] in multiset(b);
      var k :| 0 <= k < |b| && b[k] == a[0];
      MultisetRemove(a, b, k);
      CountInPermutation(a[1..], b[..k] + b[k + 1..], refs);
      CountInRemove(b, k, refs);
    }
  }

  /** Reordering the list does not change the classification, repeats included. */
  lemma FromSelectorsPermutation(a: seq<Selector>, b: seq<Selector>)
    requires multiset(a) == multiset(b)
    ensures FromSelectors(a) == FromSelectors(b)
  {
    CountInPermutation(a, b, Erc20DefaultFuncs);
    CountInPermutation(a, b, Erc721DefaultFuncs);
  }

  lemma {:induction false} CountInNone(sels: seq<Selector>, refs: seq<Selector>)
    requires forall s :: s in sels ==> s !in refs
    ensures CountIn(sels, refs) == 0
  {
    if sels != [] {
      assert sels[0] in sels;
      CountInNone(sels[1..], refs);
    }
  }

  /** Adding selectors outside both reference sets does not change the classification. */
  lemma FromSelectorsIrrelevant(sels: seq<Selector>, extra: seq<Selector>)
    requires forall s :: s in extra ==> s !in Erc20DefaultFuncs && s !in Erc721DefaultFuncs
    ensures FromSelectors(sels + extra) == FromSelectors(sels)
  {
    CountInConcat(sels, extra, Erc20DefaultFuncs);
    CountInConcat(sels, extra, Erc721DefaultFuncs);
    CountInNone(extra, Erc20DefaultFuncs);
    CountInNone(extra, Erc721DefaultFuncs);
  }

  /**
   * The count test relies on the list having no repeats: six copies of
   * transfer pass it without covering the EIP-20 functions.
   */
  lemma RepeatsPassCount()
    ensures var sels := seq(6, _ => [0xa9, 0x05, 0x9c, 0xbb]);
      FromSelectors(sels) == ERC20 && !Covers(sels, Erc20DefaultFuncs)
  {
    var t: Selector := [0xa9, 0x05, 0x9c, 0xbb];
    CountInRepeated(t, 6, Erc20DefaultFuncs);
    assert Erc20DefaultFuncs[0] !in seq(6, _ => t);
  }

  lemma {:induction false} CountInRepeated(t: Selector, n: nat, refs: seq<Selector>)
    requires t in refs
    ensures CountIn(seq(n, _ => t), refs) == n
  {
    if n > 0 {
      assert seq(n, _ => t)[1..] == seq(n - 1, _ => t);
      CountInRepeated(t, n - 1, refs);
    }
  }

  lemma CountInPair(pair: seq<Selector>, refs: seq<Selector>)
    requires |pair| == 2
    ensures CountIn(pair, refs) == (if pair[0] in refs then 1 else 0) + (if pair[1] in refs then 1 else 0)
  {
    assert pair[1..][1..] == [];
  }

  // ERC-20 entries in the blocks of the expected list: one each in B, C, D, I, K and M.

  lemma ExpectedCountAB()
    ensures CountIn(ExpectedSelectorsA, Erc20DefaultFuncs) == 0
    ensures CountIn(ExpectedSelectorsB, Erc20DefaultFuncs) == 1
  {
    CountInPair(ExpectedSelectorsA, Erc20DefaultFuncs);
    CountInPair(ExpectedSelectorsB, Erc20DefaultFuncs);
  }

  lemma ExpectedCountCD()
    ensures CountIn(ExpectedSelectorsC, Erc20DefaultFuncs) == 1
    ensures CountIn(ExpectedSelectorsD, Erc20DefaultFuncs) == 1
  {
    CountInPair(ExpectedSelectorsC, Erc20DefaultFuncs);
    CountInPair(ExpectedSelectorsD, Erc20DefaultFuncs);
  }

  lemma ExpectedCountEF()
    ensures CountIn(ExpectedSelectorsE, Erc20DefaultFuncs) == 0
    ensures CountIn(ExpectedSelectorsF, Erc20DefaultFuncs) == 0
  {
    CountInPair(ExpectedSelectorsE, Erc20DefaultFuncs);
    CountInPair(ExpectedSelectorsF, Erc20DefaultFuncs);
  }

  lemma ExpectedCountGH()
    ensures CountIn(ExpectedSelectorsG, Erc20DefaultFuncs) == 0
    ensures CountIn(ExpectedSelectorsH, Erc20DefaultFuncs) == 0
  {
    CountInPair(ExpectedSelectorsG, Erc20DefaultFuncs);
    CountInPair(ExpectedSelectorsH, Erc20DefaultFuncs);
  }

  lemma ExpectedCountIJ()
    ensures CountIn(ExpectedSelectorsI, Erc20DefaultFuncs) == 1
    ensures CountIn(ExpectedSelectorsJ, Erc20DefaultFuncs) == 0
  {
    CountInPair(ExpectedSelectorsI, Erc20DefaultFuncs);
    CountInPair(ExpectedSelectorsJ, Erc20DefaultFuncs);
  }

  lemma ExpectedCountKL()
    ensures CountIn(ExpectedSelectorsK, Erc20DefaultFuncs) == 1
    ensures CountIn(ExpectedSelectorsL, Erc20DefaultFuncs) == 0
  {
    CountInPair(ExpectedSelectorsK, Erc20DefaultFuncs);
    CountInPair(ExpectedSelectorsL, Erc20DefaultFuncs);
  }

  lemma ExpectedCountMN()
    ensures CountIn(ExpectedSelectorsM, Erc20DefaultFuncs) == 1
    ensures CountIn(ExpectedSelectorsN, Erc20DefaultFuncs) == 0
  {
    CountInPair(ExpectedSelectorsM, Erc20DefaultFuncs);
    CountInPair(ExpectedSelectorsN, Erc20DefaultFuncs);
  }

  lemma ExpectedCountOP()
    ensures CountIn(ExpectedSelectorsO, Erc20DefaultFuncs) == 0
    ensures CountIn(ExpectedSelectorsP, Erc20DefaultFuncs) == 0
  {
    CountInPair(ExpectedSelectorsO, Erc20DefaultFuncs);
    CountInPair(ExpectedSelectorsP, Erc20DefaultFuncs);
  }

  lemma ExpectedQuarter1Count()
    ensures CountIn(ExpectedSelectorsA + ExpectedSelectorsB + ExpectedSelectorsC + ExpectedSelectorsD, Erc20DefaultFuncs) == 3
  {
    ExpectedCountAB();
    ExpectedCountCD();
    CountInConcat(ExpectedSelectorsA, ExpectedSelectorsB, Erc20DefaultFuncs);
    CountInConcat(ExpectedSelectorsA + ExpectedSelectorsB, ExpectedSelectorsC, Erc20DefaultFuncs);
    CountInConcat(ExpectedSelectorsA + ExpectedSelectorsB + ExpectedSelectorsC, ExpectedSelectorsD, Erc20DefaultFuncs);
  }

  lemma ExpectedQuarter2Count()
    ensures CountIn(ExpectedSelectorsE + ExpectedSelectorsF + ExpectedSelectorsG + ExpectedSelectorsH, Erc20DefaultFuncs) == 0
  {
    ExpectedCountEF();
    ExpectedCountGH();
    CountInConcat(ExpectedSelectorsE, ExpectedSelectorsF, Erc20DefaultFuncs);
    CountInConcat(ExpectedSelectorsE + ExpectedSelectorsF, ExpectedSelectorsG, Erc20DefaultFuncs);
    CountInConcat(ExpectedSelectorsE + ExpectedSelectorsF + ExpectedSelectorsG, ExpectedSelectorsH, Erc20DefaultFuncs);
  }

  lemma ExpectedQuarter3Count()
    ensures CountIn(ExpectedSelectorsI + ExpectedSelectorsJ + ExpectedSelectorsK + ExpectedSelectorsL, Erc20DefaultFuncs) == 2
  {
    ExpectedCountIJ();
    ExpectedCountKL();
    CountInConcat(ExpectedSelectorsI, ExpectedSelectorsJ, Erc20DefaultFuncs);
    CountInConcat(ExpectedSelectorsI + ExpectedSelectorsJ, ExpectedSelectorsK, Erc20DefaultFuncs);
    CountInConcat(ExpectedSelectorsI + ExpectedSelectorsJ + ExpectedSelectorsK, ExpectedSelectorsL, Erc20DefaultFuncs);
  }

  lemma ExpectedQuarter4Count()
    ensures CountIn(ExpectedSelectorsM + ExpectedSelectorsN + ExpectedSelectorsO + ExpectedSelectorsP, Erc20DefaultFuncs) == 1
  {
    ExpectedCountMN();
    ExpectedCountOP();
    CountInConcat(ExpectedSelectorsM, ExpectedSelectorsN, Erc20DefaultFuncs);
    CountInConcat(ExpectedSelectorsM + ExpectedSelectorsN, ExpectedSelectorsO, Erc20DefaultFuncs);
    CountInConcat(ExpectedSelectorsM + ExpectedSelectorsN + ExpectedSelectorsO, ExpectedSelectorsP, Erc20DefaultFuncs);
  }

  /** The selector list the repository's tests expect classifies as ERC20. */
  lemma ExpectedListIsErc20()
    ensures FromSelectors(ExpectedSelectors) == ERC20
  {
    ExpectedQuarter1Count();
    ExpectedQuarter2Count();
    ExpectedQuarter3Count();
    ExpectedQuarter4Count();
    CountInConcat((ExpectedSelectorsA + ExpectedSelectorsB + ExpectedSelectorsC + ExpectedSelectorsD), (ExpectedSelectorsE + ExpectedSelectorsF + ExpectedSelectorsG + ExpectedSelectorsH), Erc20DefaultFuncs);
    CountInConcat((ExpectedSelectorsA + ExpectedSelectorsB + ExpectedSelectorsC + ExpectedSelectorsD) + (ExpectedSelectorsE + ExpectedSelectorsF + ExpectedSelectorsG + ExpectedSelectorsH), (ExpectedSelectorsI + ExpectedSelectorsJ + ExpectedSelectorsK + ExpectedSelectorsL), Erc20DefaultFuncs);
    CountInConcat((ExpectedSelectorsA + ExpectedSelectorsB + ExpectedSelectorsC + ExpectedSelectorsD) + (ExpectedSelectorsE + ExpectedSelectorsF + ExpectedSelectorsG + ExpectedSelectorsH) + (ExpectedSelectorsI + ExpectedSelectorsJ + ExpectedSelectorsK + ExpectedSelectorsL), (ExpectedSelectorsM + ExpectedSelectorsN + ExpectedSelectorsO + ExpectedSelectorsP), Erc20DefaultFuncs);
  }
}
