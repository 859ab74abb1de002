/**
 * The canonical order of an outcome's proof checks (ProofChecksSorted and byDisplayString
 * in go/libkb/identify_outcome.go): grouped by proof type in the order of a service list,
 * each group sorted by display string.
 */
module ProofOrder {
  import opened Identify
  import Keybase1

  // ---------------------------------------------------------------------------
  // Comparing display strings

  /**
   * Go's `<` on strings: lexicographic, a proper prefix first. Go compares UTF-8 bytes;
   * comparing code points gives the same order.
   */
  predicate DisplayLess(a: string, b: string)
    ensures DisplayLess(a, b) ==> a != b
    ensures a < b ==> DisplayLess(a, b)
    decreases |a|
  {
    if |a| == 0 then |b| > 0
    else if |b| == 0 then false
    else if a[0] != b[0] then a[0] < b[0]
    else DisplayLess(a[1..], b[1..])
  }

  lemma {:induction false} DisplayLessAsymmetric(a: string, b: string)
    ensures DisplayLess(a, b) ==> !DisplayLess(b, a)
    decreases |a|
  {
    if |a| > 0 && |b| > 0 && a[0] == b[0] {
      DisplayLessAsymmetric(a[1..], b[1..]);
    }
  }

  /** "Not less" is transitive, so sorting by DisplayLess is well defined. */
  lemma {:induction false} DisplayNotLessTransitive(a: string, b: string, c: string)
    requires !DisplayLess(b, a) && !DisplayLess(c, b)
    ensures !DisplayLess(c, a)
    decreases |a|
  {
    if |a| > 0 && |b| > 0 && |c| > 0 && a[0] == b[0] && b[0] == c[0] {
      DisplayNotLessTransitive(a[1..], b[1..], c[1..]);
    }
  }

  /** byDisplayString.Less. */
  predicate Less(s: seq<LinkCheckResult>, i: int, j: int)
    requires 0 <= i < |s| && 0 <= j < |s|
    ensures Less(s, i, j) ==> !DisplayLess(s[j].displayString, s[i].displayString)
    ensures s[i].displayString == s[j].displayString ==> !Less(s, i, j)
  {
    DisplayLessAsymmetric(s[i].displayString, s[j].displayString);
    DisplayLess(s[i].displayString, s[j].displayString)
  }

  /** Non-decreasing by display string, over every pair of positions. */
  predicate SortedByDisplay(s: seq<LinkCheckResult>) {
    forall i, j :: 0 <= i < j < |s| ==> !DisplayLess(s[j].displayString, s[i].displayString)
  }

  /** Non-decreasing by display string, over neighbouring positions. */
  predicate NeighboursSorted(s: seq<LinkCheckResult>) {
    forall k :: 0 < k < |s| ==> !DisplayLess(s[k].displayString, s[k - 1].displayString)
  }

  lemma {:induction false} NeighboursSortedIsSorted(s: seq<LinkCheckResult>)
    requires NeighboursSorted(s)
    ensures SortedByDisplay(s)
  {
    if |s| > 1 {
      var t := s[..|s| - 1];
      assert NeighboursSorted(t);
      NeighboursSortedIsSorted(t);
      var n := |s| - 1;
      forall i | 0 <= i < n ensures !DisplayLess(s[n].displayString, s[i].displayString) {
        if i < n - 1 {
          assert t[i] == s[i] && t[n - 1] == s[n - 1];
          DisplayNotLessTransitive(s[i].displayString, s[n - 1].displayString, s[n].displayString);
        }
      }
    }
  }

  // ---------------------------------------------------------------------------
  // sort.Sort(byDisplayString(pc))

  /** byDisplayString.Swap. */
  method Swap(a: array<LinkCheckResult>, i: int, j: int)
    requires 0 <= i < a.Length && 0 <= j < a.Length
    modifies a
    ensures a[i] == old(a[j]) && a[j] == old(a[i])
    ensures forall k :: 0 <= k < a.Length && k != i && k != j ==> a[k] == old(a[k])
    ensures multiset(a[..]) == old(multiset(a[..]))
  {
    a[i], a[j] := a[j], a[i];
  }

  /**
   * Sorts `a` in place by display string through Less and Swap. sort.Sort is not stable
   * and promises only a sorted permutation, which is what this contract states.
   */
  method SortByDisplayString(a: array<LinkCheckResult>)
    modifies a
    ensures SortedByDisplay(a[..])
    ensures multiset(a[..]) == old(multiset(a[..]))
  {
    if a.Length == 0 {
      return;
    }
    for i := 1 to a.Length
      invariant NeighboursSorted(a[..i])
      invariant multiset(a[..]) == old(multiset(a[..]))
    {
      var j := i;
      while j > 0 && Less(a[..], j, j - 1)
        invariant 0 <= j <= i
        invariant forall k :: 0 < k <= i && k != j ==> !DisplayLess(a[k].displayString, a[k - 1].displayString)
        invariant 0 < j < i ==> !DisplayLess(a[j + 1].displayString, a[j - 1].displayString)
        invariant multiset(a[..]) == old(multiset(a[..]))
      {
        DisplayLessAsymmetric(a[j].displayString, a[j - 1].displayString);
        Swap(a, j, j - 1);
        j := j - 1;
      }
    }
    NeighboursSortedIsSorted(a[..]);
  }

  // ---------------------------------------------------------------------------
  // Grouping by proof type

  /** The checks of proof type `pt`, in their original order. */
  function OfType(checks: seq<LinkCheckResult>, pt: Keybase1.ProofType): (g: seq<LinkCheckResult>)
    ensures forall i :: 0 <= i < |g| ==> g[i].proofType == pt && g[i] in checks
  {
    if checks == [] then []
    else
      var init := checks[..|checks| - 1];
      var last := checks[|checks| - 1];
      OfType(init, pt) + (if last.proofType == pt then [last] else [])
  }

  /** The map `m` of ProofChecksSorted: each proof type that occurs, with its checks. */
  method GroupByProofType(checks: seq<LinkCheckResult>) returns (m: map<Keybase1.ProofType, seq<LinkCheckResult>>)
    ensures forall pt :: pt in m <==> OfType(checks, pt) != []
    ensures forall pt :: pt in m ==> m[pt] == OfType(checks, pt)
  {
    m := map[];
    for i := 0 to |checks|
      invariant forall pt :: pt in m <==> OfType(checks[..i], pt) != []
      invariant forall pt :: pt in m ==> m[pt] == OfType(checks[..i], pt)
    {
      assert checks[..i + 1][..i] == checks[..i];
      var p := checks[i];
      var pt := p.proofType;
      m := m[pt := (if pt in m then m[pt] else []) + [p]];
    }
    assert checks[..|checks|] == checks;
  }

  /**
   * `res` consists of one block per entry of `order`, in that order; the block for proof
   * type `pt` is the checks of type `pt`, permuted and sorted by display string.
   */
  predicate Arranged(res: seq<LinkCheckResult>, checks: seq<LinkCheckResult>, order: seq<Keybase1.ProofType>)
    decreases |order|
  {
    if order == [] then res == []
    else
      var g := OfType(checks, order[|order| - 1]);
      var n := |res| - |g|;
      n >= 0 &&
      SortedByDisplay(res[n..]) && multiset(res[n..]) == multiset(g) &&
      Arranged(res[..n], checks, order[..|order| - 1])
  }

  predicate NoDuplicates(order: seq<Keybase1.ProofType>) {
    forall i, j :: 0 <= i < j < |order| ==> order[i] != order[j]
  }

  /** The checks whose proof type occurs in `order`, in their original order. */
  function InOrder(checks: seq<LinkCheckResult>, order: seq<Keybase1.ProofType>): (r: seq<LinkCheckResult>)
    ensures |r| <= |checks|
    ensures |r| == |checks| <== forall k :: 0 <= k < |checks| ==> checks[k].proofType in order
  {
    if checks == [] then []
    else
      var init := checks[..|checks| - 1];
      var last := checks[|checks| - 1];
      InOrder(init, order) + (if last.proofType in order then [last] else [])
  }

  /** Adding a new proof type to the service list adds exactly the checks of that type. */
  lemma {:induction false} InOrderExtend(checks: seq<LinkCheckResult>, order: seq<Keybase1.ProofType>, pt: Keybase1.ProofType)
    requires pt !in order
    ensures multiset(InOrder(checks, order + [pt])) == multiset(InOrder(checks, order)) + multiset(OfType(checks, pt))
  {
    if checks != [] {
      InOrderExtend(checks[..|checks| - 1], order, pt);
    }
  }

  lemma {:induction false} InOrderMembers(checks: seq<LinkCheckResult>, order: seq<Keybase1.ProofType>)
    ensures forall c :: c in InOrder(checks, order) ==> c.proofType in order
  {
    if checks != [] {
      InOrderMembers(checks[..|checks| - 1], order);
    }
  }

  lemma {:induction false} InOrderNothingListed(checks: seq<LinkCheckResult>)
    ensures InOrder(checks, []) == []
  {
    if checks != [] {
      InOrderNothingListed(checks[..|checks| - 1]);
    }
  }

  /**
   * With a service list free of duplicates, the arranged checks are exactly the checks whose
   * proof type is listed, with their multiplicity; checks of other types are dropped.
   */
  lemma {:induction false} ArrangedContents(res: seq<LinkCheckResult>, checks: seq<LinkCheckResult>, order: seq<Keybase1.ProofType>)
    requires Arranged(res, checks, order) && NoDuplicates(order)
    ensures multiset(res) == multiset(InOrder(checks, order))
    ensures forall i :: 0 <= i < |res| ==> res[i].proofType in order
    decreases |order|
  {
    if order == [] {
      InOrderNothingListed(checks);
    } else {
      var init := order[..|order| - 1];
      var pt := order[|order| - 1];
      var n := |res| - |OfType(checks, pt)|;
      assert order == init + [pt];
      forall x | 0 <= x < |init| ensures init[x] != pt {
        assert init[x] == order[x];
      }
      assert NoDuplicates(init);
      ArrangedContents(res[..n], checks, init);
      assert res == res[..n] + res[n..];
      assert multiset(res) == multiset(res[..n]) + multiset(res[n..]);
      InOrderExtend(checks, init, pt);
    }
    InOrderMembers(checks, order);
    forall i | 0 <= i < |res| ensures res[i].proofType in order {
      assert res[i] in multiset(res);
      assert res[i] in InOrder(checks, order);
    }
  }

  /**
   * With a service list free of duplicates, the arranged checks are grouped in the order of
   * the list: a check whose type is listed later never comes before one listed earlier.
   */
  lemma {:induction false} ArrangedGrouped(res: seq<LinkCheckResult>, checks: seq<LinkCheckResult>, order: seq<Keybase1.ProofType>)
    requires Arranged(res, checks, order) && NoDuplicates(order)
    ensures forall i, j, a, b ::
      (0 <= i < j < |res| && 0 <= a < |order| && 0 <= b < |order| &&
       res[i].proofType == order[b] && res[j].proofType == order[a]) ==> b <= a
    decreases |order|
  {
    if order != [] {
      var init := order[..|order| - 1];
      var last := |order| - 1;
      var pt := order[last];
      var g := OfType(checks, pt);
      var n := |res| - |g|;
      var front := res[..n];
      assert NoDuplicates(init);
      ArrangedGrouped(front, checks, init);
      ArrangedContents(front, checks, init);
      forall j | n <= j < |res| ensures res[j].proofType == pt {
        assert res[j] in multiset(res[n..]);
        assert res[j] in multiset(g);
      }
      forall i, j, a, b | 0 <= i < j < |res| && 0 <= a < |order| && 0 <= b < |order| &&
        res[i].proofType == order[b] && res[j].proofType == order[a]
        ensures b <= a
      {
        if j < n {
          assert front[i] == res[i] && front[j] == res[j];
          var x :| 0 <= x < |init| && init[x] == res[j].proofType;
          var y :| 0 <= y < |init| && init[y] == res[i].proofType;
          assert x == a && y == b;
        } else {
          assert a == last;
        }
      }
    }
  }

  /**
   * ProofChecksSorted against a service list `order` (RemoteServiceOrder in the source, which
   * is not part of this model).
   */
  method ProofChecksSorted(o: IdentifyOutcome, order: seq<Keybase1.ProofType>) returns (res: seq<LinkCheckResult>)
    ensures Arranged(res, o.proofChecks, order)
    ensures NoDuplicates(order) ==> multiset(res) == multiset(InOrder(o.proofChecks, order))
    ensures NoDuplicates(order) ==> forall i :: 0 <= i < |res| ==> res[i].proofType in order
    ensures NoDuplicates(order) ==> forall i, j, a, b ::
      (0 <= i < j < |res| && 0 <= a < |order| && 0 <= b < |order| &&
       res[i].proofType == order[b] && res[j].proofType == order[a]) ==> b <= a
  {
    var m := GroupByProofType(o.proofChecks);
    res := [];
    for k := 0 to |order|
      invariant Arranged(res, o.proofChecks, order[..k])
    {
      var pt := order[k];
      var g := OfType(o.proofChecks, pt);
      var block: seq<LinkCheckResult> := [];
      if pt in m {
        var pc := m[pt];
        var a := new LinkCheckResult[|pc|](i requires 0 <= i < |pc| => pc[i]);
        assert a[..] == pc;
        SortByDisplayString(a);
        block := a[..];
      }
      assert SortedByDisplay(block) && multiset(block) == multiset(g);
      var res' := res + block;
      assert order[..k + 1][..k] == order[..k];
      assert res'[..|res|] == res && res'[|res|..] == block;
      res := res';
    }
    assert order[..|order|] == order;
    if NoDuplicates(order) {
      ArrangedContents(res, o.proofChecks, order);
      ArrangedGrouped(res, o.proofChecks, order);
    }
  }
}
