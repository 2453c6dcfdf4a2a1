/** The rewards arcade (components/Arcade.tsx): buying a market item with
    points, and the daily-spin wheel. `Math.random()` becomes the parameter
    `offset`; the 4-second timer becomes a separate `Settle` step; confetti
    is left out. */
module Arcade {
  import opened Types
  import Ledger
  import AppState

  datatype ItemType = Raffle | Access | Drop

  /** The fields of `ArcadeItem` the logic reads or shows as status. */
  datatype ArcadeItem = ArcadeItem(
    id: string,
    title: string,
    itemType: ItemType,
    cost: int,
    actionLabel: string,
    successLabel: string)

  /** `MARKET_ITEMS` (Arcade.tsx:25-86). */
  const MarketItems: seq<ArcadeItem> := [
    ArcadeItem("1", "Signed Tour Hoodie", Raffle, 500, "Enter", "Entered"),
    ArcadeItem("2", "Presale Access: Wembley", Access, 2000, "Reserve", "Reserved"),
    ArcadeItem("3", "Digital Tour Sticker", Drop, 250, "Buy Now", "Owned"),
    ArcadeItem("4", "VIP Upgrade Access", Access, 1500, "Reserve", "Reserved"),
    ArcadeItem("5", "Meet & Greet Pass", Raffle, 100, "Enter", "Entered")
  ]

  /** The cards of the market grid that show their action button rather
      than the purchased mark (Arcade.tsx:354-378), in catalogue order. */
  function OfferedItems(purchased: set<string>): (r: seq<ArcadeItem>)
    ensures forall item :: item in r <==> item in MarketItems && item.id !in purchased
    ensures |r| <= |MarketItems|
  {
    OfferedFrom(MarketItems, purchased)
  }

  function OfferedFrom(items: seq<ArcadeItem>, purchased: set<string>): (r: seq<ArcadeItem>)
    ensures forall item :: item in r <==> item in items && item.id !in purchased
    ensures |r| <= |items|
  {
    if items == [] then []
    else if items[0].id in purchased then OfferedFrom(items[1..], purchased)
    else [items[0]] + OfferedFrom(items[1..], purchased)
  }

  /** At first every card is offered; once an item's id is purchased its
      card shows the purchased mark and offers it no more. */
  lemma OfferedShrinks(purchased: set<string>, item: ArcadeItem)
    requires item in MarketItems
    ensures item in OfferedItems({})
    ensures item !in OfferedItems(purchased + {item.id})
    ensures forall other :: other in OfferedItems(purchased + {item.id}) ==> other in OfferedItems(purchased)
  {
  }

  /** The `Arcade` component's own state. */
  class ArcadeView {
    var selectedItem: Option<ArcadeItem>
    var purchasedItems: set<string>

    /** Only a card that still shows its action button can be selected, so a
        selected item is a catalogue item not yet purchased. */
    ghost predicate Valid()
      reads this
    {
      selectedItem.Some? ==> selectedItem.value in OfferedItems(purchasedItems)
    }

    constructor ()
      ensures Valid()
      ensures selectedItem == None && purchasedItems == {}
    {
      selectedItem, purchasedItems := None, {};
    }

    /** Opening the confirmation for an item (Arcade.tsx:373): the button
        exists only on a card that is not purchased (Arcade.tsx:367-377). */
    method Select(item: ArcadeItem)
      requires item in OfferedItems(purchasedItems)
      modifies this
      ensures Valid()
      ensures selectedItem == Some(item) && purchasedItems == old(purchasedItems)
    {
      selectedItem := Some(item);
    }

    /** Closing or cancelling the confirmation (Arcade.tsx:264, 293). */
    method Cancel()
      modifies this
      ensures Valid()
      ensures selectedItem == None && purchasedItems == old(purchasedItems)
    {
      selectedItem := None;
    }

    /** `handlePurchase` (Arcade.tsx:240-256): with an item selected and
        enough points, spend its cost through the app's `handleSpendPoints`,
        record its id and clear the selection; otherwise change nothing. */
    method HandlePurchase(app: AppState.App, now: int)
      requires Valid() && app.Valid()
      modifies this, app
      ensures Valid() && app.Valid()
      ensures app.user != old(app.user) ==>
        old(selectedItem).Some? && old(selectedItem).value.id !in old(purchasedItems)
      ensures old(selectedItem).None? ==>
        selectedItem == old(selectedItem) && purchasedItems == old(purchasedItems) && app.user == old(app.user)
      ensures old(selectedItem).Some? && old(app.user.points) < old(selectedItem).value.cost ==>
        selectedItem == old(selectedItem) && purchasedItems == old(purchasedItems) && app.user == old(app.user)
      ensures old(selectedItem).Some? && old(app.user.points) >= old(selectedItem).value.cost ==>
        && app.user == Ledger.SpendPoints(old(app.user), old(selectedItem).value.cost, old(selectedItem).value.title, now)
        && app.user.points >= 0
        && purchasedItems == old(purchasedItems) + {old(selectedItem).value.id}
        && selectedItem == None
      ensures old(purchasedItems) <= purchasedItems
      ensures app.quests == old(app.quests) && app.tiers == old(app.tiers)
    {
      if selectedItem.None? {
        return;
      }
      var item := selectedItem.value;
      if app.user.points >= item.cost {
        app.SpendPoints(item.cost, item.title, now);
        purchasedItems := purchasedItems + {item.id};
        selectedItem := None;
      }
    }
  }

  // ---------------------------------------------------------------------
  // WheelModal (Arcade.tsx:88-143)

  datatype WinResult = WinResult(labelText: string, value: int)

  /** The six slices drawn on the wheel (Arcade.tsx:94-101). */
  const WheelSlices: seq<WinResult> := [
    WinResult("50 Pts", 50), WinResult("100 XP", 0), WinResult("200 Pts", 200),
    WinResult("Try Again", 0), WinResult("500 Pts", 500), WinResult("10 XP", 0)
  ]

  /** The fixed result every spin ends with (Arcade.tsx:118). */
  const DemoWin: WinResult := WinResult("100 Pts", 100)

  /** Five full turns (Arcade.tsx:110). */
  const SpinTurns: int := 5 * 360

  /** The wheel's angle after a spin from `rotation` with random offset
      `offset`, taken from `[0, 360)` as `Math.floor(Math.random() * 360)`. */
  function SpunRotation(rotation: int, offset: int): (r: int)
    requires 0 <= offset < 360
    ensures rotation + 1800 <= r < rotation + 2160
  {
    rotation + SpinTurns + offset
  }

  /** The award is none of the amounts on the wheel: it does not depend on
      where the wheel stops. */
  lemma AwardNotOnWheel()
    ensures forall i :: 0 <= i < |WheelSlices| ==> WheelSlices[i].value != DemoWin.value
  {
  }

  /** One mounted `WheelModal`: idle, then spinning, then won. `awards`
      counts the `onWin` calls this instance has made. */
  class Wheel {
    var spinning: bool
    var rotation: int
    var winResult: Option<WinResult>
    ghost var awards: nat

    ghost predicate Valid()
      reads this
    {
      (spinning ==> winResult.None?) && (awards == if winResult.Some? then 1 else 0)
    }

    constructor ()
      ensures Valid()
      ensures !spinning && rotation == 0 && winResult == None && awards == 0
    {
      spinning, rotation, winResult := false, 0, None;
      awards := 0;
    }

    /** `spin` up to the timer: refused while spinning or after a win. */
    method Spin(offset: int)
      requires Valid() && 0 <= offset < 360
      modifies this
      ensures Valid() && awards == old(awards)
      ensures old(spinning) || old(winResult).Some? ==>
        spinning == old(spinning) && rotation == old(rotation) && winResult == old(winResult)
      ensures !old(spinning) && old(winResult).None? ==>
        spinning && rotation == SpunRotation(old(rotation), offset) && winResult == None
    {
      if spinning || winResult.Some? {
        return;
      }
      spinning := true;
      rotation := SpunRotation(rotation, offset);
    }

    /** The timer callback of a spin: stop, show the fixed result and pass
        its value to `onWin`, which is the app's spin credit. */
    method Settle(app: AppState.App, now: int) returns (award: int)
      requires Valid() && spinning && app.Valid()
      modifies this, app
      ensures Valid() && app.Valid()
      ensures award == 100 && awards == old(awards) + 1 == 1
      ensures !spinning && winResult == Some(DemoWin) && rotation == old(rotation)
      ensures app.user == Ledger.SpinCredit(old(app.user), award, now)
      ensures app.quests == old(app.quests) && app.tiers == old(app.tiers)
    {
      spinning, winResult, awards := false, Some(DemoWin), awards + 1;
      award := winResult.value.value;
      app.CreditSpin(award, now);
    }
  }
}
