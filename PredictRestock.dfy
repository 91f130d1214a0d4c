/** Restock recommendations in the prediction router (`GET /restock`): per-item urgency
    and order-quantity rules over the live inventory when the backend answers with at
    least one item, otherwise over a fixed list of seven medicines. */
module PredictRestock {
  import opened Wrappers
  import opened Rounding
  import opened Sorting

  datatype Urgency = Critical | High | Medium | Low

  /** The urgency bands on the estimated days of stock left. */
  function UrgencyOf(days: int): Urgency {
    if days <= 7 then Critical
    else if days <= 14 then High
    else if days <= 21 then Medium
    else Low
  }

  /** Position of an urgency from most to least pressing. */
  function Rank(u: Urgency): nat {
    match u
    case Critical => 0
    case High => 1
    case Medium => 2
    case Low => 3
  }

  /** Fewer days left is never less urgent. */
  lemma UrgencyMonotone(d1: int, d2: int)
    requires d1 <= d2
    ensures Rank(UrgencyOf(d1)) <= Rank(UrgencyOf(d2))
  {
  }

  datatype Source = Live | Simulated

  /** One recommendation; `confidence` is in hundredths. */
  datatype Rec = Rec(medicineName: string, currentStock: int, predictedDemand: int,
                     orderQty: int, urgency: Urgency, daysRemaining: int,
                     confidence: int, source: Source)

  function Max(a: int, b: int): int {
    if a >= b then a else b
  }

  /** `round(stock / max(demand / 30, 1))`, the quotient taken exactly. */
  function DaysRemaining(stock: int, demand: int): (r: int)
    ensures demand >= 30 ==> NearestEven(30 * stock, demand, r)
    ensures demand < 30 ==> r == stock
  {
    if demand >= 30 then RoundHalfEven(30 * stock, demand) else stock
  }

  /** The record built for one medicine from its stock and its 30-day demand. */
  function MakeRec(name: string, stock: int, demand: int, confidence: int, source: Source): (r: Rec)
    ensures r.orderQty >= 200 && r.orderQty >= demand - stock + 200
    ensures r.orderQty == 200 <==> demand <= stock
    ensures demand > stock ==> r.orderQty == demand - stock + 200
    ensures r.medicineName == name && r.currentStock == stock && r.predictedDemand == demand
    ensures r.confidence == confidence && r.source == source
    ensures r.urgency == UrgencyOf(r.daysRemaining) && r.daysRemaining == DaysRemaining(stock, demand)
  {
    var days := DaysRemaining(stock, demand);
    Rec(name, stock, demand, Max(demand - stock, 0) + 200, UrgencyOf(days), days, confidence, source)
  }

  /** An inventory item as the backend sends it; both spellings of each field are read. */
  datatype InventoryItem = InventoryItem(stockQuantity: Option<int>, quantity: Option<int>,
                                         name: Option<string>, medicineName: Option<string>)

  function ItemStock(item: InventoryItem): int {
    item.stockQuantity.GetOr(item.quantity.GetOr(0))
  }

  function ItemName(item: InventoryItem): string {
    item.name.GetOr(item.medicineName.GetOr("Unknown"))
  }

  /** `max(stock * 2, 100)`. */
  function LiveDemand(stock: int): int {
    Max(stock * 2, 100)
  }

  function LiveRec(item: InventoryItem): Rec {
    var stock := ItemStock(item);
    MakeRec(ItemName(item), stock, LiveDemand(stock), 85, Live)
  }

  function LiveRecs(items: seq<InventoryItem>): seq<Rec> {
    seq(|items|, i requires 0 <= i < |items| => LiveRec(items[i]))
  }

  datatype Stocked = Stocked(name: string, stock: int, demand: int)

  /** The simulated inventory used when the live one is unavailable or empty. */
  const FallbackMedicines: seq<Stocked> := [
    Stocked("Azithromycin 500mg", 200, 750),
    Stocked("Paracetamol 500mg", 1500, 2400),
    Stocked("Amoxicillin 500mg", 450, 900),
    Stocked("Cetirizine 10mg", 800, 1350),
    Stocked("Omeprazole 20mg", 600, 1100),
    Stocked("Metformin 500mg", 350, 800),
    Stocked("Amlodipine 5mg", 280, 600)
  ]

  function FallbackRec(m: Stocked): Rec {
    MakeRec(m.name, m.stock, m.demand, 82, Simulated)
  }

  function FallbackRecs(meds: seq<Stocked>): seq<Rec> {
    seq(|meds|, i requires 0 <= i < |meds| => FallbackRec(meds[i]))
  }

  function DaysKey(r: Rec): int {
    r.daysRemaining
  }

  datatype RestockResponse = RestockResponse(recommendations: seq<Rec>, source: Source)

  /** The handler's answer; `inventory` is the decoded item list of a successful backend
      call, `None` when the call failed or answered otherwise. */
  function Restock(inventory: Option<seq<InventoryItem>>): RestockResponse {
    if inventory.Some? && inventory.value != [] then
      RestockResponse(Take(SortBy(LiveRecs(inventory.value), DaysKey), 10), Live)
    else
      RestockResponse(SortBy(FallbackRecs(FallbackMedicines), DaysKey), Simulated)
  }

  /** The loop over the live items. */
  method BuildLiveRecs(items: seq<InventoryItem>) returns (recs: seq<Rec>)
    ensures recs == LiveRecs(items)
  {
    recs := [];
    for i := 0 to |items|
      invariant |recs| == i && forall k :: 0 <= k < i ==> recs[k] == LiveRec(items[k])
    {
      var stock := ItemStock(items[i]);
      var name := ItemName(items[i]);
      var demand := LiveDemand(stock);
      recs := recs + [MakeRec(name, stock, demand, 85, Live)];
    }
  }

  /** The loop over the simulated list. */
  method BuildFallbackRecs(meds: seq<Stocked>) returns (recs: seq<Rec>)
    ensures recs == FallbackRecs(meds)
  {
    recs := [];
    for i := 0 to |meds|
      invariant |recs| == i && forall k :: 0 <= k < i ==> recs[k] == FallbackRec(meds[k])
    {
      recs := recs + [MakeRec(meds[i].name, meds[i].stock, meds[i].demand, 82, Simulated)];
    }
  }

  /** The handler: live recommendations when there are any, else the simulated ones. */
  method RestockRecommendations(inventory: Option<seq<InventoryItem>>) returns (resp: RestockResponse)
    ensures resp == Restock(inventory)
  {
    if inventory.Some? {
      var recs := BuildLiveRecs(inventory.value);
      if recs != [] {
        return RestockResponse(Take(SortBy(recs, DaysKey), 10), Live);
      }
    }
    var recs := BuildFallbackRecs(FallbackMedicines);
    resp := RestockResponse(SortBy(recs, DaysKey), Simulated);
  }

  // ---------------------------------------------------------------- properties

  /** The ten most urgent of a non-empty list: sorted, exactly ten of them (all of them when
      there are fewer), drawn
      from the list (all of it when it has ten or fewer), and nothing left out is more
      urgent than something kept. */
  lemma TopTen(recs: seq<Rec>)
    requires recs != []
    ensures var all := SortBy(recs, DaysKey);
            var t := Take(all, 10);
            SortedBy(t, DaysKey) &&
            |t| == (if |recs| <= 10 then |recs| else 10) &&
            multiset(t) <= multiset(recs) &&
            (|recs| <= 10 ==> multiset(t) == multiset(recs)) &&
            (forall i, j :: 0 <= i < |t| <= j < |all| ==> t[i].daysRemaining <= all[j].daysRemaining)
  {
    var all := SortBy(recs, DaysKey);
    SortBySorted(recs, DaysKey);
    var t := Take(all, 10);
    assert all == t + all[|t|..];
    assert multiset(all) == multiset(t) + multiset(all[|t|..]);
    forall i, j | 0 <= i < j < |t| ensures t[i].daysRemaining <= t[j].daysRemaining {
      assert t[i] == all[i] && t[j] == all[j];
    }
    forall i, j | 0 <= i < |t| <= j < |all| ensures t[i].daysRemaining <= all[j].daysRemaining {
      assert t[i] == all[i];
    }
  }

  /** The answer is sorted by days remaining, most urgent first. The live answer holds the
      ten most urgent items (every item when there are ten or fewer), drawn from the items, with nothing left out that is more
      urgent than something kept; the simulated answer is the whole list reordered. */
  lemma RestockSortedSelection(inventory: Option<seq<InventoryItem>>)
    ensures SortedBy(Restock(inventory).recommendations, DaysKey)
    ensures var r := Restock(inventory);
            r.source == Live ==>
              var all := SortBy(LiveRecs(inventory.value), DaysKey);
              |r.recommendations| == (if |inventory.value| <= 10 then |inventory.value| else 10) &&
              multiset(r.recommendations) <= multiset(LiveRecs(inventory.value)) &&
              (|inventory.value| <= 10 ==> multiset(r.recommendations) == multiset(LiveRecs(inventory.value))) &&
              (forall i, j :: 0 <= i < |r.recommendations| <= j < |all| ==>
                 r.recommendations[i].daysRemaining <= all[j].daysRemaining)
    ensures var r := Restock(inventory);
            r.source == Simulated ==>
              multiset(r.recommendations) == multiset(FallbackRecs(FallbackMedicines)) &&
              |r.recommendations| == 7
  {
    if inventory.Some? && inventory.value != [] {
      TopTen(LiveRecs(inventory.value));
    } else {
      SortBySorted(FallbackRecs(FallbackMedicines), DaysKey);
    }
  }

  /** Sorting and truncating keep only elements of the list. */
  lemma SelectedFrom(recs: seq<Rec>, x: Rec, n: nat)
    requires x in Take(SortBy(recs, DaysKey), n)
    ensures x in recs
  {
    var all := SortBy(recs, DaysKey);
    var t := Take(all, n);
    var i :| 0 <= i < |t| && t[i] == x;
    assert all[i] == x;
    assert x in multiset(all);
  }

  /** Every simulated or live recommendation carries the tag of the path it came from. */
  lemma RestockTagged(inventory: Option<seq<InventoryItem>>)
    ensures var r := Restock(inventory);
            forall x :: x in r.recommendations ==>
              x.source == r.source && x.confidence == (if r.source == Live then 85 else 82)
  {
    var r := Restock(inventory);
    if inventory.Some? && inventory.value != [] {
      var recs := LiveRecs(inventory.value);
      forall x | x in r.recommendations ensures x.source == Live && x.confidence == 85 {
        SelectedFrom(recs, x, 10);
      }
    } else {
      var recs := FallbackRecs(FallbackMedicines);
      forall x | x in r.recommendations ensures x.source == Simulated && x.confidence == 82 {
        SelectedFrom(recs, x, |recs|);
      }
    }
  }

  /** Live demand is at least twice the stock, so a live item never shows more than fifteen
      days of stock, exactly fifteen (medium) from 50 units up, and is never low. */
  lemma LiveDaysBound(item: InventoryItem)
    ensures LiveRec(item).daysRemaining <= 15
    ensures ItemStock(item) >= 50 ==> LiveRec(item).daysRemaining == 15
    ensures LiveRec(item).urgency != Low
    ensures ItemStock(item) >= 50 ==> LiveRec(item).urgency == Medium
  {
    var s := ItemStock(item);
    var r := LiveRec(item);
    if s >= 50 {
      assert 30 * s == 15 * (2 * s);
      RoundWhole(15, 2 * s);
    } else {
      assert LiveDemand(s) == 100;
      assert 2 * (r.daysRemaining * 100 - 30 * s) <= 100;
    }
  }

  /** The simulated list's days remaining and urgencies; none of them is critical. */
  lemma FallbackFigures()
    ensures var recs := FallbackRecs(FallbackMedicines);
            |recs| == 7 &&
            recs[0].daysRemaining == 8 && recs[1].daysRemaining == 19 &&
            recs[2].daysRemaining == 15 && recs[3].daysRemaining == 18 &&
            recs[4].daysRemaining == 16 && recs[5].daysRemaining == 13 &&
            recs[6].daysRemaining == 14 &&
            forall i :: 0 <= i < 7 ==> recs[i].urgency != Critical
  {
    var recs := FallbackRecs(FallbackMedicines);
    assert RoundHalfEven(30 * 200, 750) == 8;
    assert RoundHalfEven(30 * 1500, 2400) == 19;
    assert RoundHalfEven(30 * 450, 900) == 15;
    assert RoundHalfEven(30 * 800, 1350) == 18;
    assert RoundHalfEven(30 * 600, 1100) == 16;
    assert RoundHalfEven(30 * 350, 800) == 13;
    assert RoundHalfEven(30 * 280, 600) == 14;
  }
}
