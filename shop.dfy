/**
 * `purchaseHearts`: buying a shop item with points (and gems, for items
 * that require them) for hearts.
 */
module Shop {
  import opened Wrappers
  import opened GameStore

  const UNAUTHORIZED: string := "Unauthorized"
  const ITEM_NOT_FOUND: string := "Item not found"
  const PROGRESS_NOT_FOUND: string := "User progress not found"
  const NOT_ENOUGH_POINTS: string := "Not enough points"
  const NOT_ENOUGH_GEMS: string := "Not enough gems"

  datatype ShopStep = ShopStep(reply: Reply, progress: map<string, UserProgress>)

  /** The balances after a purchase the guards let through. */
  function Purchased(p: UserProgress, item: ShopItem): UserProgress {
    p.(hearts := p.hearts + item.hearts,
       points := p.points - item.points,
       gems := if Truthy(item.gemsRequired) then p.gems - item.gemsRequired.value else p.gems)
  }

  /** The checks in order, then the update of the caller's row. */
  function PurchaseStep(progress: map<string, UserProgress>, userId: Option<string>, itemId: int,
                        items: seq<ShopItem>): (s: ShopStep)
    ensures s.reply != Success ==> s.progress == progress
    ensures !Present(userId) ==> s.reply == Thrown(UNAUTHORIZED)
    ensures Present(userId) && FindItem(items, itemId).None? ==> s.reply == Thrown(ITEM_NOT_FOUND)
    ensures Present(userId) && FindItem(items, itemId).Some? && userId.value !in progress ==>
              s.reply == Thrown(PROGRESS_NOT_FOUND)
    ensures s.reply == Thrown(NOT_ENOUGH_POINTS) <==>
              Present(userId) && FindItem(items, itemId).Some? && userId.value in progress &&
              progress[userId.value].points < FindItem(items, itemId).value.points
    ensures s.reply == Thrown(NOT_ENOUGH_GEMS) <==>
              Present(userId) && FindItem(items, itemId).Some? && userId.value in progress &&
              progress[userId.value].points >= FindItem(items, itemId).value.points &&
              Truthy(FindItem(items, itemId).value.gemsRequired) &&
              progress[userId.value].gems < FindItem(items, itemId).value.gemsRequired.value
    ensures s.reply == Success <==>
              Present(userId) && FindItem(items, itemId).Some? && userId.value in progress &&
              progress[userId.value].points >= FindItem(items, itemId).value.points &&
              !(Truthy(FindItem(items, itemId).value.gemsRequired) &&
                progress[userId.value].gems < FindItem(items, itemId).value.gemsRequired.value)
    ensures s.reply == Success ==>
              s.progress == progress[userId.value := Purchased(progress[userId.value], FindItem(items, itemId).value)]
  {
    if !Present(userId) then ShopStep(Thrown(UNAUTHORIZED), progress)
    else
      var found := FindItem(items, itemId);
      if found.None? then ShopStep(Thrown(ITEM_NOT_FOUND), progress)
      else if userId.value !in progress then ShopStep(Thrown(PROGRESS_NOT_FOUND), progress)
      else
        var item := found.value;
        var p := progress[userId.value];
        if p.points < item.points then ShopStep(Thrown(NOT_ENOUGH_POINTS), progress)
        else if Truthy(item.gemsRequired) && p.gems < item.gemsRequired.value then
          ShopStep(Thrown(NOT_ENOUGH_GEMS), progress)
        else ShopStep(Success, progress[userId.value := Purchased(p, item)])
  }

  method PurchaseHearts(s: Store, userId: Option<string>, itemId: int, items: seq<ShopItem>) returns (reply: Reply)
    modifies s
    ensures ShopStep(reply, s.progress) == PurchaseStep(old(s.progress), userId, itemId, items)
    ensures s.challenges == old(s.challenges) && s.redeemed == old(s.redeemed)
  {
    if !Present(userId) {
      return Thrown(UNAUTHORIZED);
    }
    var found := FindItem(items, itemId);
    if found.None? {
      return Thrown(ITEM_NOT_FOUND);
    }
    var item := found.value;
    if userId.value !in s.progress {
      return Thrown(PROGRESS_NOT_FOUND);
    }
    var existing := s.progress[userId.value];
    if existing.points < item.points {
      return Thrown(NOT_ENOUGH_POINTS);
    }
    if Truthy(item.gemsRequired) && existing.gems < item.gemsRequired.value {
      return Thrown(NOT_ENOUGH_GEMS);
    }
    var gems := existing.gems;
    if Truthy(item.gemsRequired) {
      gems := existing.gems - item.gemsRequired.value;
    }
    s.progress := s.progress[userId.value := existing.(hearts := existing.hearts + item.hearts,
                                                       points := existing.points - item.points,
                                                       gems := gems)];
    reply := Success;
  }

  /** A successful purchase credits the item's hearts and debits its points
      and required gems, leaving other users and the wallet alone. */
  lemma PurchaseMovesBalances(progress: map<string, UserProgress>, userId: Option<string>, itemId: int,
                              items: seq<ShopItem>)
    requires PurchaseStep(progress, userId, itemId, items).reply == Success
    ensures var item := FindItem(items, itemId).value;
            var before := progress[userId.value];
            var after := PurchaseStep(progress, userId, itemId, items).progress[userId.value];
            && after.hearts == before.hearts + item.hearts
            && after.points == before.points - item.points
            && after.gems == before.gems - (if Truthy(item.gemsRequired) then item.gemsRequired.value else 0)
            && after.walletAddress == before.walletAddress
  {
  }

  /** Balances that start non-negative stay non-negative. */
  lemma PurchaseKeepsBalancesNonNegative(progress: map<string, UserProgress>, userId: Option<string>, itemId: int,
                                         items: seq<ShopItem>)
    requires PurchaseStep(progress, userId, itemId, items).reply == Success
    requires progress[userId.value].points >= 0 && progress[userId.value].gems >= 0
    ensures var after := PurchaseStep(progress, userId, itemId, items).progress[userId.value];
            after.points >= 0 && after.gems >= 0
  {
  }

  /** An item without a gem price (or with 0) never fails on gems. */
  lemma NoGemPriceNoGemCheck(progress: map<string, UserProgress>, userId: Option<string>, itemId: int,
                             items: seq<ShopItem>)
    requires FindItem(items, itemId).Some? && !Truthy(FindItem(items, itemId).value.gemsRequired)
    ensures PurchaseStep(progress, userId, itemId, items).reply != Thrown(NOT_ENOUGH_GEMS)
  {
  }
}
