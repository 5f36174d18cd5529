/** The result a purchase hands back: what it cost, what was bought and the change. */
module PurchaseResults {
  import Text
  import opened ChangeCalculator

  /** One purchased line: a product name and how many of it. */
  datatype PurchasedItem = PurchasedItem(name: string, quantity: int)

  /** The change handed out, coin line by coin line, added up left to right as `reduce` does. */
  function FoldChange(total: int, change: seq<ChangeDenomination>): int
    decreases |change|
  {
    if |change| == 0 then total
    else FoldChange(total + change[0].denomination * change[0].count, change[1..])
  }

  /** The purchased quantities, added up left to right as `reduce` does. */
  function FoldQuantity(total: int, items: seq<PurchasedItem>): int
    decreases |items|
  {
    if |items| == 0 then total
    else FoldQuantity(total + items[0].quantity, items[1..])
  }

  /** Reference definition of a total quantity, independent of the fold's order. */
  function QuantitySum(items: seq<PurchasedItem>): int {
    if |items| == 0 then 0 else QuantitySum(items[..|items| - 1]) + items[|items| - 1].quantity
  }

  /** `${quantity}x ${name}` for each item. */
  function ItemTexts(items: seq<PurchasedItem>): (r: seq<string>)
    ensures |r| == |items|
    ensures forall i :: 0 <= i < |items| ==>
              |items[i].name| + 2 < |r[i]| && r[i][|r[i]| - |items[i].name|..] == items[i].name
  {
    seq(|items|, i requires 0 <= i < |items| => Text.IntToString(items[i].quantity) + "x " + items[i].name)
  }

  /** The constructor keeps its three arguments as they are. */
  datatype PurchaseResult = PurchaseResult(
    totalCost: int,
    purchasedItems: seq<PurchasedItem>,
    change: seq<ChangeDenomination>)
  {
    /** `getTotalChangeAmount`: the cents the change is worth. */
    function TotalChangeAmount(): (total: int)
      ensures total == Sum(change)
    {
      FoldChangeIsSum(0, change);
      FoldChange(0, change)
    }

    /** `getTotalQuantity`. */
    function TotalQuantity(): (total: int)
      ensures total == QuantitySum(purchasedItems)
    {
      FoldQuantityIsSum(0, purchasedItems);
      FoldQuantity(0, purchasedItems)
    }

    /** `hasChange`: at least one coin line was handed out. */
    predicate HasChange() {
      |change| > 0
    }

    /** The " (Change: N cents)" tail, present only when the change is worth something. */
    function ChangeText(): (t: string)
      ensures TotalChangeAmount() > 0 ==> |t| > 0 && t[|t| - 1] == ')'
      ensures TotalChangeAmount() <= 0 ==> t == ""
    {
      var amount := TotalChangeAmount();
      if amount > 0 then " (Change: " + Text.IntToString(amount) + " cents)" else ""
    }

    /**
      `toString`: "Purchase: <items> - Total: <cost> cents", followed by the
      change tail; the text closes with ')' exactly when change was handed out.
     */
    function ToString(): (s: string)
      ensures |s| > 0
      ensures s[|s| - 1] == ')' <==> TotalChangeAmount() > 0
      ensures TotalChangeAmount() <= 0 ==> s == Head()
    {
      Head() + ChangeText()
    }

    /** The part of `toString` before the change tail. */
    function Head(): (h: string)
      ensures |h| > 0 && h[|h| - 1] == 's'
      ensures |"Purchase: "| <= |h| && h[..|"Purchase: "|] == "Purchase: "
    {
      "Purchase: " + Text.Join(ItemTexts(purchasedItems), ", ") + " - Total: "
        + Text.IntToString(totalCost) + " cents"
    }
  }

  /** When change was handed out, the text ends by naming its value in cents. */
  lemma ToStringMentionsChange(r: PurchaseResult)
    requires r.TotalChangeAmount() > 0
    ensures var tail := " (Change: " + Text.IntToString(r.TotalChangeAmount()) + " cents)";
            && Text.Contains(r.ToString(), tail)
            && |tail| <= |r.ToString()| && r.ToString()[|r.ToString()| - |tail|..] == tail
  {
    var tail := " (Change: " + Text.IntToString(r.TotalChangeAmount()) + " cents)";
    assert r.ChangeText() == tail;
    assert tail[..|tail|] == tail;
    Text.ContainsAt(r.Head(), r.ChangeText(), tail);
    assert r.ToString() == r.Head() + tail;
  }

  /** The left fold from `total` adds `total` to the sum of the lines. */
  lemma {:induction false} FoldChangeIsSum(total: int, change: seq<ChangeDenomination>)
    ensures FoldChange(total, change) == total + Sum(change)
    decreases |change|
  {
    if |change| > 0 {
      FoldChangeIsSum(total + change[0].denomination * change[0].count, change[1..]);
    }
  }

  /** The left fold of quantities equals the reference sum taken from the right. */
  lemma {:induction false} FoldQuantityIsSum(total: int, items: seq<PurchasedItem>)
    ensures FoldQuantity(total, items) == total + QuantitySum(items)
    decreases |items|
  {
    if |items| > 0 {
      FoldQuantityIsSum(total + items[0].quantity, items[1..]);
      QuantitySumFront(items);
    }
  }

  /** Taking the first item off the front of the reference sum. */
  lemma {:induction false} QuantitySumFront(items: seq<PurchasedItem>)
    requires |items| > 0
    ensures QuantitySum(items) == items[0].quantity + QuantitySum(items[1..])
    decreases |items|
  {
    if |items| > 1 {
      var init := items[..|items| - 1];
      QuantitySumFront(init);
      assert init[1..] == items[1..][..|items[1..]| - 1];
      assert init[0] == items[0];
    } else {
      assert items[..0] == [];
      assert items[1..] == [];
    }
  }

  /** A breakdown whose lines all hold coins is worth something exactly when it is non-empty. */
  lemma {:induction false} SumPositive(change: seq<ChangeDenomination>)
    requires forall e :: e in change ==> e.denomination > 0 && e.count >= 1
    ensures Sum(change) > 0 <==> |change| > 0
    decreases |change|
  {
    if |change| > 0 {
      assert change[0] in change;
      var d := change[0].denomination;
      var c := change[0].count;
      assert d * c >= d;
    }
  }

  /**
    For change computed by the calculator, `hasChange` and "the change is
    worth something" coincide, and both hold exactly when at least 5 cents
    were due.
   */
  lemma HasChangeIffPositive(totalCost: int, items: seq<PurchasedItem>, due: nat)
    ensures var r := PurchaseResult(totalCost, items, Greedy(due, Denominations));
            (r.HasChange() <==> r.TotalChangeAmount() > 0) && (r.HasChange() <==> due >= 5)
  {
    var g := Greedy(due, Denominations);
    GreedyShape(due, Denominations);
    SumPositive(g);
    GreedyTotal(due);
  }
}
