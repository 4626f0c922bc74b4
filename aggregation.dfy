/**
 * Invoice-wide totals: each performance's play is looked up in the play map and
 * priced (or credited), and the results are summed in invoice order.  The first
 * performance whose lookup or price fails ends the sum with that failure.
 */
module Aggregation {
  import opened Domain
  import opened Calculators

  /** The amount of one performance, its play looked up in the play map first. */
  function AmountFor(c: Pricing, plays: map<string, Play>, performance: Performance): (r: Result<int>)
    ensures r.Err? <==>
      performance.playID !in plays || Classify(plays[performance.playID].playType).Other?
    ensures performance.playID !in plays ==> r == Err(MissingPlay(performance.playID))
    ensures performance.playID in plays ==> r == Amount(c, performance, plays[performance.playID])
  {
    match PlayFor(plays, performance)
    case Err(e) => Err(e)
    case Ok(play) => Amount(c, performance, play)
  }

  /** The credits of one performance, its play looked up in the play map first. */
  function CreditsFor(c: Pricing, plays: map<string, Play>, performance: Performance): (r: Result<int>)
    ensures r.Err? <==> performance.playID !in plays
    ensures r.Err? ==> r.error == MissingPlay(performance.playID)
    ensures performance.playID in plays ==> r == Ok(VolumeCredits(c, performance, plays[performance.playID]))
    ensures r.Ok? && performance.audience >= 0 ==> r.value >= 0
  {
    match PlayFor(plays, performance)
    case Err(e) => Err(e)
    case Ok(play) => Ok(VolumeCredits(c, performance, play))
  }

  /** Every performance has a play in the map, of a recognised type. */
  predicate AllPriceable(c: Pricing, plays: map<string, Play>, ps: seq<Performance>)
  {
    forall i :: 0 <= i < |ps| ==> AmountFor(c, plays, ps[i]).Ok?
  }

  /** Every performance has a play in the map. */
  predicate AllListed(plays: map<string, Play>, ps: seq<Performance>)
  {
    forall i :: 0 <= i < |ps| ==> ps[i].playID in plays
  }

  predicate NonNegativeAudiences(ps: seq<Performance>)
  {
    forall i :: 0 <= i < |ps| ==> ps[i].audience >= 0
  }

  /** The total amount accumulated over `ps` in order; it succeeds exactly when every performance can be priced. */
  function TotalAmount(c: Pricing, plays: map<string, Play>, ps: seq<Performance>): (r: Result<int>)
    ensures r.Ok? <==> AllPriceable(c, plays, ps)
    decreases |ps|
  {
    if ps == [] then Ok(0)
    else
      var prefix, last := ps[..|ps| - 1], ps[|ps| - 1];
      assert forall i :: 0 <= i < |prefix| ==> prefix[i] == ps[i];
      match TotalAmount(c, plays, prefix)
      case Err(e) => Err(e)
      case Ok(subtotal) =>
        match AmountFor(c, plays, last)
        case Err(e) => Err(e)
        case Ok(amount) => Ok(subtotal + amount)
  }

  /**
   * The total credits accumulated over `ps` in order; it succeeds exactly when every
   * performance's play is in the map, and is then non-negative when no audience is.
   */
  function TotalVolumeCredits(c: Pricing, plays: map<string, Play>, ps: seq<Performance>): (r: Result<int>)
    ensures r.Ok? <==> AllListed(plays, ps)
    ensures r.Ok? && NonNegativeAudiences(ps) ==> r.value >= 0
    decreases |ps|
  {
    if ps == [] then Ok(0)
    else
      var prefix, last := ps[..|ps| - 1], ps[|ps| - 1];
      assert forall i :: 0 <= i < |prefix| ==> prefix[i] == ps[i];
      match TotalVolumeCredits(c, plays, prefix)
      case Err(e) => Err(e)
      case Ok(subtotal) =>
        match CreditsFor(c, plays, last)
        case Err(e) => Err(e)
        case Ok(credits) => Ok(subtotal + credits)
  }

  /** Once a prefix of the invoice fails, the total fails with the same error. */
  lemma {:induction false} TotalAmountKeepsFailure(c: Pricing, plays: map<string, Play>, ps: seq<Performance>, k: nat)
    requires k <= |ps| && TotalAmount(c, plays, ps[..k]).Err?
    ensures TotalAmount(c, plays, ps) == TotalAmount(c, plays, ps[..k])
    decreases |ps|
  {
    if k == |ps| {
      assert ps[..k] == ps;
    } else {
      var prefix := ps[..|ps| - 1];
      assert prefix[..k] == ps[..k];
      TotalAmountKeepsFailure(c, plays, prefix, k);
    }
  }

  /** Once a prefix of the invoice fails, the credit total fails with the same error. */
  lemma {:induction false} TotalVolumeCreditsKeepsFailure(c: Pricing, plays: map<string, Play>, ps: seq<Performance>, k: nat)
    requires k <= |ps| && TotalVolumeCredits(c, plays, ps[..k]).Err?
    ensures TotalVolumeCredits(c, plays, ps) == TotalVolumeCredits(c, plays, ps[..k])
    decreases |ps|
  {
    if k == |ps| {
      assert ps[..k] == ps;
    } else {
      var prefix := ps[..|ps| - 1];
      assert prefix[..k] == ps[..k];
      TotalVolumeCreditsKeepsFailure(c, plays, prefix, k);
    }
  }

  /**
   * A failing total reports the failure of the first performance in invoice order
   * that cannot be priced: all before it can be.
   */
  lemma {:induction false} TotalAmountFirstFailure(c: Pricing, plays: map<string, Play>, ps: seq<Performance>)
    requires TotalAmount(c, plays, ps).Err?
    ensures exists k :: 0 <= k < |ps| && AllPriceable(c, plays, ps[..k])
                        && AmountFor(c, plays, ps[k]) == Err(TotalAmount(c, plays, ps).error)
    decreases |ps|
  {
    var n := |ps|;
    var prefix := ps[..n - 1];
    if TotalAmount(c, plays, prefix).Err? {
      TotalAmountFirstFailure(c, plays, prefix);
      var k :| 0 <= k < |prefix| && AllPriceable(c, plays, prefix[..k])
               && AmountFor(c, plays, prefix[k]) == Err(TotalAmount(c, plays, prefix).error);
      assert prefix[..k] == ps[..k];
    } else {
      assert ps[..n - 1] == prefix;
    }
  }

  /** A successful price of every performance means every play was found, so the credit total succeeds too. */
  lemma CreditsDefinedWhenPriced(c: Pricing, plays: map<string, Play>, ps: seq<Performance>)
    requires TotalAmount(c, plays, ps).Ok?
    ensures TotalVolumeCredits(c, plays, ps).Ok?
  {
  }

  /** Adding one performance at the end adds its amount, or fails. */
  lemma TotalAmountSnoc(c: Pricing, plays: map<string, Play>, ps: seq<Performance>, p: Performance)
    ensures TotalAmount(c, plays, ps + [p]).Ok? <==> TotalAmount(c, plays, ps).Ok? && AmountFor(c, plays, p).Ok?
    ensures TotalAmount(c, plays, ps + [p]).Ok? ==>
      TotalAmount(c, plays, ps + [p]).value == TotalAmount(c, plays, ps).value + AmountFor(c, plays, p).value
  {
    assert (ps + [p])[..|ps|] == ps;
  }

  /** Adding one performance at the end adds its credits, or fails. */
  lemma TotalVolumeCreditsSnoc(c: Pricing, plays: map<string, Play>, ps: seq<Performance>, p: Performance)
    ensures TotalVolumeCredits(c, plays, ps + [p]).Ok? <==> TotalVolumeCredits(c, plays, ps).Ok? && CreditsFor(c, plays, p).Ok?
    ensures TotalVolumeCredits(c, plays, ps + [p]).Ok? ==>
      TotalVolumeCredits(c, plays, ps + [p]).value == TotalVolumeCredits(c, plays, ps).value + CreditsFor(c, plays, p).value
  {
    assert (ps + [p])[..|ps|] == ps;
  }

  /** The total over two invoices' performances laid end to end is the sum of the two totals. */
  lemma {:induction false} TotalAmountAppend(c: Pricing, plays: map<string, Play>, xs: seq<Performance>, ys: seq<Performance>)
    ensures TotalAmount(c, plays, xs + ys).Ok? <==> TotalAmount(c, plays, xs).Ok? && TotalAmount(c, plays, ys).Ok?
    ensures TotalAmount(c, plays, xs + ys).Ok? ==>
      TotalAmount(c, plays, xs + ys).value == TotalAmount(c, plays, xs).value + TotalAmount(c, plays, ys).value
    decreases |ys|
  {
    if ys == [] {
      assert xs + ys == xs;
    } else {
      var n := |ys|;
      var init, last := ys[..n - 1], ys[n - 1];
      assert ys == init + [last];
      assert xs + ys == (xs + init) + [last];
      TotalAmountAppend(c, plays, xs, init);
      TotalAmountSnoc(c, plays, xs + init, last);
      TotalAmountSnoc(c, plays, init, last);
    }
  }

  /** The credit total over two sequences laid end to end is the sum of the two totals. */
  lemma {:induction false} TotalVolumeCreditsAppend(c: Pricing, plays: map<string, Play>, xs: seq<Performance>, ys: seq<Performance>)
    ensures TotalVolumeCredits(c, plays, xs + ys).Ok? <==>
      TotalVolumeCredits(c, plays, xs).Ok? && TotalVolumeCredits(c, plays, ys).Ok?
    ensures TotalVolumeCredits(c, plays, xs + ys).Ok? ==>
      TotalVolumeCredits(c, plays, xs + ys).value
        == TotalVolumeCredits(c, plays, xs).value + TotalVolumeCredits(c, plays, ys).value
    decreases |ys|
  {
    if ys == [] {
      assert xs + ys == xs;
    } else {
      var n := |ys|;
      var init, last := ys[..n - 1], ys[n - 1];
      assert ys == init + [last];
      assert xs + ys == (xs + init) + [last];
      TotalVolumeCreditsAppend(c, plays, xs, init);
      TotalVolumeCreditsSnoc(c, plays, xs + init, last);
      TotalVolumeCreditsSnoc(c, plays, init, last);
    }
  }

  /** A sequence's multiset is that of the part before `j`, the element at `j`, and the part after it. */
  lemma MultisetAround(qs: seq<Performance>, j: nat)
    requires j < |qs|
    ensures multiset(qs) == multiset(qs[..j]) + multiset{qs[j]} + multiset(qs[j + 1..])
  {
    assert qs == qs[..j] + [qs[j]] + qs[j + 1..];
  }

  /** The last element of `ps` occurs in its permutation `qs` at some `j`; what remains of each is again a permutation. */
  lemma RemoveLast(ps: seq<Performance>, qs: seq<Performance>) returns (j: nat)
    requires ps != [] && multiset(ps) == multiset(qs)
    ensures j < |qs| && qs[j] == ps[|ps| - 1]
    ensures multiset(ps[..|ps| - 1]) == multiset(qs[..j] + qs[j + 1..])
  {
    var n := |ps|;
    var x, rest := ps[n - 1], ps[..n - 1];
    assert ps == rest + [x];
    assert x in multiset(qs);
    j :| 0 <= j < |qs| && qs[j] == x;
    var before, after := qs[..j], qs[j + 1..];
    assert multiset(ps) == multiset(rest) + multiset{x};
    MultisetAround(qs, j);
    calc {
      multiset(rest);
      multiset(ps) - multiset{x};
      multiset(qs) - multiset{x};
      multiset(before) + multiset(after);
      multiset(before + after);
    }
  }

  /** Reordering the performances changes neither whether the total succeeds nor its value. */
  lemma {:induction false} TotalAmountOrderFree(c: Pricing, plays: map<string, Play>, ps: seq<Performance>, qs: seq<Performance>)
    requires multiset(ps) == multiset(qs)
    ensures TotalAmount(c, plays, ps).Ok? <==> TotalAmount(c, plays, qs).Ok?
    ensures TotalAmount(c, plays, ps).Ok? ==> TotalAmount(c, plays, ps).value == TotalAmount(c, plays, qs).value
    decreases |ps|
  {
    if ps == [] {
      assert |qs| == |multiset(qs)| == 0;
    } else {
      var n := |ps|;
      var x, rest := ps[n - 1], ps[..n - 1];
      assert ps == rest + [x];
      var j := RemoveLast(ps, qs);
      var before, after := qs[..j], qs[j + 1..];
      assert qs == before + [x] + after;
      TotalAmountOrderFree(c, plays, rest, before + after);
      TotalAmountAppend(c, plays, rest, [x]);
      TotalAmountAppend(c, plays, before, after);
      TotalAmountAppend(c, plays, before, [x]);
      TotalAmountAppend(c, plays, before + [x], after);
    }
  }

  /** Reordering the performances changes neither whether the credit total succeeds nor its value. */
  lemma {:induction false} TotalVolumeCreditsOrderFree(c: Pricing, plays: map<string, Play>, ps: seq<Performance>, qs: seq<Performance>)
    requires multiset(ps) == multiset(qs)
    ensures TotalVolumeCredits(c, plays, ps).Ok? <==> TotalVolumeCredits(c, plays, qs).Ok?
    ensures TotalVolumeCredits(c, plays, ps).Ok? ==>
      TotalVolumeCredits(c, plays, ps).value == TotalVolumeCredits(c, plays, qs).value
    decreases |ps|
  {
    if ps == [] {
      assert |qs| == |multiset(qs)| == 0;
    } else {
      var n := |ps|;
      var x, rest := ps[n - 1], ps[..n - 1];
      assert ps == rest + [x];
      var j := RemoveLast(ps, qs);
      var before, after := qs[..j], qs[j + 1..];
      assert qs == before + [x] + after;
      TotalVolumeCreditsOrderFree(c, plays, rest, before + after);
      TotalVolumeCreditsAppend(c, plays, rest, [x]);
      TotalVolumeCreditsAppend(c, plays, before, after);
      TotalVolumeCreditsAppend(c, plays, before, [x]);
      TotalVolumeCreditsAppend(c, plays, before + [x], after);
    }
  }
}
