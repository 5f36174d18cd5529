/**
  The greedy change calculator of the vending machine: it walks the coins
  from the largest down and hands out as many of each as still fit.
 */
module ChangeCalculator {
  import opened MoneyValue

  /** One line of a change breakdown: `count` coins of `denomination` cents. */
  datatype ChangeDenomination = ChangeDenomination(denomination: nat, count: nat)

  /** The coins handed out as change, largest first. */
  const Denominations: seq<nat> := [100, 50, 20, 10, 5]

  predicate AllPositive(ds: seq<nat>) {
    forall i :: 0 <= i < |ds| ==> ds[i] > 0
  }

  predicate StrictlyDescending(ds: seq<nat>) {
    forall i, j :: 0 <= i < j < |ds| ==> ds[i] > ds[j]
  }

  /** The cents a breakdown is worth. */
  function Sum(change: seq<ChangeDenomination>): nat {
    if |change| == 0 then 0
    else change[0].denomination * change[0].count + Sum(change[1..])
  }

  /** The worth of two breakdowns put together is the sum of their worths. */
  lemma {:induction false} SumAppend(a: seq<ChangeDenomination>, b: seq<ChangeDenomination>)
    ensures Sum(a + b) == Sum(a) + Sum(b)
    decreases |a|
  {
    if |a| == 0 {
      assert a + b == b;
    } else {
      assert (a + b)[0] == a[0];
      assert (a + b)[1..] == a[1..] + b;
      SumAppend(a[1..], b);
    }
  }

  lemma AppendAssociates(a: seq<ChangeDenomination>, b: seq<ChangeDenomination>, c: seq<ChangeDenomination>)
    ensures a + b + c == a + (b + c)
  {
  }

  /** What remains of `remaining` cents after handing out as many `d` coins as fit. */
  function Rest(remaining: nat, d: nat): (r: nat)
    requires d > 0
    ensures r < d && r <= remaining
    ensures r == remaining % d
  {
    if remaining >= d then remaining - (remaining / d) * d else remaining
  }

  /** The line emitted for coin `d`: present only when at least one coin fits. */
  function Emit(remaining: nat, d: nat): seq<ChangeDenomination>
    requires d > 0
  {
    if remaining >= d then [ChangeDenomination(d, remaining / d)] else []
  }

  /** The breakdown the greedy walk over `ds` produces from `remaining` cents. */
  function Greedy(remaining: nat, ds: seq<nat>): seq<ChangeDenomination>
    requires AllPositive(ds)
  {
    if |ds| == 0 then [] else Emit(remaining, ds[0]) + Greedy(Rest(remaining, ds[0]), ds[1..])
  }

  /** The walk from position `i` of `ds` emits the line for `ds[i]`, then walks on from its `Rest`. */
  lemma GreedyStep(remaining: nat, ds: seq<nat>, i: nat)
    requires AllPositive(ds) && i < |ds|
    ensures Greedy(remaining, ds[i..]) == Emit(remaining, ds[i]) + Greedy(Rest(remaining, ds[i]), ds[i + 1..])
  {
    assert ds[i..][1..] == ds[i + 1..];
  }

  /** What is left undispensed after the greedy walk over `ds`. */
  function Leftover(remaining: nat, ds: seq<nat>): nat
    requires AllPositive(ds)
  {
    if |ds| == 0 then remaining else Leftover(Rest(remaining, ds[0]), ds[1..])
  }

  /** One step hands out exactly what it takes away. */
  lemma EmitConserves(remaining: nat, d: nat)
    requires d > 0
    ensures Sum(Emit(remaining, d)) + Rest(remaining, d) == remaining
  {
    if remaining >= d {
      assert Sum(Emit(remaining, d)) == d * (remaining / d);
    }
  }

  /** Nothing is lost: the emitted coins plus the leftover make up the input. */
  lemma {:induction false} GreedyConserves(remaining: nat, ds: seq<nat>)
    requires AllPositive(ds)
    ensures Sum(Greedy(remaining, ds)) + Leftover(remaining, ds) == remaining
    decreases |ds|
  {
    if |ds| > 0 {
      var rest := Rest(remaining, ds[0]);
      GreedyConserves(rest, ds[1..]);
      SumAppend(Emit(remaining, ds[0]), Greedy(rest, ds[1..]));
      EmitConserves(remaining, ds[0]);
    }
  }

  /** Taking whole multiples of a multiple of five does not change the residue mod 5. */
  lemma RestKeepsResidue(remaining: nat, d: nat)
    requires d > 0 && d % 5 == 0
    ensures Rest(remaining, d) % 5 == remaining % 5
  {
    var k := d / 5;
    var q := remaining / d;
    assert remaining == q * d + Rest(remaining, d);
    assert q * d == (q * k) * 5;
  }

  /** Greedy over coins that are all multiples of five keeps the input's residue mod 5. */
  lemma {:induction false} LeftoverResidue(remaining: nat, ds: seq<nat>)
    requires AllPositive(ds)
    requires forall i :: 0 <= i < |ds| ==> ds[i] % 5 == 0
    ensures Leftover(remaining, ds) % 5 == remaining % 5
    decreases |ds|
  {
    if |ds| > 0 {
      RestKeepsResidue(remaining, ds[0]);
      LeftoverResidue(Rest(remaining, ds[0]), ds[1..]);
    }
  }

  /** The leftover is below the last coin of the walk. */
  lemma {:induction false} LeftoverBelowLast(remaining: nat, ds: seq<nat>)
    requires AllPositive(ds) && |ds| > 0
    ensures Leftover(remaining, ds) < ds[|ds| - 1]
    decreases |ds|
  {
    if |ds| > 1 {
      LeftoverBelowLast(Rest(remaining, ds[0]), ds[1..]);
    }
  }

  /**
    The change handed out is the amount rounded down to a multiple of five:
    exactly the amount when it is a multiple of five.
   */
  lemma GreedyTotal(amount: nat)
    ensures Sum(Greedy(amount, Denominations)) == amount - amount % 5
    ensures Sum(Greedy(amount, Denominations)) == amount <==> amount % 5 == 0
  {
    GreedyConserves(amount, Denominations);
    LeftoverResidue(amount, Denominations);
    LeftoverBelowLast(amount, Denominations);
  }

  /** Every emitted line uses one of `ds` and holds at least one coin; lines go strictly downwards. */
  lemma {:induction false} GreedyShape(remaining: nat, ds: seq<nat>)
    requires AllPositive(ds) && StrictlyDescending(ds)
    ensures forall e :: e in Greedy(remaining, ds) ==> e.denomination in ds && e.count >= 1
    ensures forall i, j :: 0 <= i < j < |Greedy(remaining, ds)| ==>
              Greedy(remaining, ds)[i].denomination > Greedy(remaining, ds)[j].denomination
    decreases |ds|
  {
    if |ds| > 0 {
      var rest := Rest(remaining, ds[0]);
      GreedyShape(rest, ds[1..]);
      var tail := Greedy(rest, ds[1..]);
      forall e | e in tail ensures e.denomination < ds[0] {
        var k :| 0 <= k < |ds[1..]| && ds[1..][k] == e.denomination;
        assert ds[k + 1] == e.denomination;
      }
      if remaining >= ds[0] {
        var g := Greedy(remaining, ds);
        assert g == [ChangeDenomination(ds[0], remaining / ds[0])] + tail;
        forall i, j | 0 <= i < j < |g| ensures g[i].denomination > g[j].denomination {
          if i == 0 {
            assert g[j] == tail[j - 1];
            assert g[j] in tail;
          } else {
            assert g[i] == tail[i - 1] && g[j] == tail[j - 1];
          }
        }
      }
    }
  }

  /** Nothing is handed out for nothing. */
  lemma {:induction false} GreedyOfZero(ds: seq<nat>)
    requires AllPositive(ds)
    ensures Greedy(0, ds) == []
    decreases |ds|
  {
    if |ds| > 0 {
      GreedyOfZero(ds[1..]);
    }
  }

  /** After the first coin the walk continues from its `Rest`: every later line comes from there. */
  lemma LaterLines(remaining: nat, ds: seq<nat>, e: ChangeDenomination)
    requires AllPositive(ds) && |ds| > 0
    requires e in Greedy(remaining, ds) && e.denomination != ds[0]
    ensures e in Greedy(Rest(remaining, ds[0]), ds[1..])
  {
  }

  /** The line for the first coin holds `remaining / ds[0]` coins. */
  lemma FirstLine(remaining: nat, ds: seq<nat>, e: ChangeDenomination)
    requires AllPositive(ds) && StrictlyDescending(ds) && |ds| > 0
    requires e in Greedy(remaining, ds) && e.denomination == ds[0]
    ensures e.count == remaining / ds[0]
  {
    var tail := Greedy(Rest(remaining, ds[0]), ds[1..]);
    GreedyShape(Rest(remaining, ds[0]), ds[1..]);
    forall x | x in tail ensures x.denomination != ds[0] {
      var k :| 0 <= k < |ds[1..]| && ds[1..][k] == x.denomination;
      assert ds[k + 1] == x.denomination;
    }
  }

  /**
    Only the 100-cent coin can be handed out many times: after it, fewer than
    100 cents remain, so at most one 50, two 20s, one 10 and one 5 follow.
   */
  lemma GreedyCountBounds(amount: nat, e: ChangeDenomination)
    requires e in Greedy(amount, Denominations)
    ensures e.denomination == 50 ==> e.count <= 1
    ensures e.denomination == 20 ==> e.count <= 2
    ensures e.denomination == 10 ==> e.count <= 1
    ensures e.denomination == 5 ==> e.count <= 1
  {
    var ds := Denominations;
    if e.denomination != 100 {
      var r1 := Rest(amount, 100);
      LaterLines(amount, ds, e);
      assert ds[1..] == [50, 20, 10, 5];
      if e.denomination == 50 {
        FirstLine(r1, ds[1..], e);
      } else {
        var r2 := Rest(r1, 50);
        LaterLines(r1, ds[1..], e);
        assert ds[1..][1..] == [20, 10, 5];
        if e.denomination == 20 {
          FirstLine(r2, [20, 10, 5], e);
        } else {
          var r3 := Rest(r2, 20);
          LaterLines(r2, [20, 10, 5], e);
          assert [20, 10, 5][1..] == [10, 5];
          if e.denomination == 10 {
            FirstLine(r3, [10, 5], e);
          } else {
            var r4 := Rest(r3, 10);
            LaterLines(r3, [10, 5], e);
            assert [10, 5][1..] == [5];
            if e.denomination == 5 {
              FirstLine(r4, [5], e);
            }
          }
        }
      }
    }
  }

  /**
    `calculateChange`: the loop over the coins, emitting `floor(remaining / d)`
    coins of each `d` that still fits.
   */
  method CalculateChange(amount: Money) returns (change: seq<ChangeDenomination>)
    ensures change == Greedy(amount.cents, Denominations)
    ensures Sum(change) == amount.cents - amount.cents % 5
  {
    change := [];
    var remainingCents: nat := amount.cents;
    for i := 0 to |Denominations|
      invariant change + Greedy(remainingCents, Denominations[i..]) == Greedy(amount.cents, Denominations)
    {
      var denomination := Denominations[i];
      ghost var before, was := change, remainingCents;
      GreedyStep(remainingCents, Denominations, i);
      if remainingCents >= denomination {
        var count := remainingCents / denomination;
        change := change + [ChangeDenomination(denomination, count)];
        assert remainingCents - count * denomination == Rest(was, denomination);
        remainingCents := remainingCents - count * denomination;
      } else {
        assert before + Emit(was, denomination) == before;
      }
      AppendAssociates(before, Emit(was, denomination), Greedy(remainingCents, Denominations[i + 1..]));
    }
    assert Denominations[|Denominations|..] == [];
    GreedyTotal(amount.cents);
  }
}
