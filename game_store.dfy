/**
 * The in-game economy tables: each user's progress (hearts, points, gems and
 * linked wallet), the completed-challenge records, and the BYTE
 * transactions already redeemed. The shop catalogue is an input.
 */
module GameStore {
  import opened Wrappers

  /** A shop catalogue entry. `gemsRequired` and `byteCost` are optional
      keys of the item literal. */
  datatype ShopItem = ShopItem(
    id: int,
    hearts: int,
    points: int,
    gemsRequired: Option<int>,
    byteCost: Option<int>)

  /** JavaScript truthiness of an optional number: present and not 0. */
  predicate Truthy(n: Option<int>) {
    n.Some? && n.value != 0
  }

  /** `SHOP_ITEMS.find((i) => i.id === itemId)`: the first item with that id. */
  function FindItem(items: seq<ShopItem>, id: int): (r: Option<ShopItem>)
    ensures r.None? <==> forall i :: 0 <= i < |items| ==> items[i].id != id
    ensures r.Some? ==> r.value.id == id &&
                        exists i :: 0 <= i < |items| && items[i] == r.value &&
                                    forall j :: 0 <= j < i ==> items[j].id != id
  {
    if items == [] then None
    else if items[0].id == id then Some(items[0])
    else
      var r := FindItem(items[1..], id);
      assert forall i :: 1 <= i < |items| ==> items[i] == items[1..][i - 1];
      if r.Some? then
        ghost var k :| 0 <= k < |items[1..]| && items[1..][k] == r.value &&
                       forall j :: 0 <= j < k ==> items[1..][j].id != id;
        assert items[k + 1] == r.value && forall j :: 0 <= j < k + 1 ==> items[j].id != id;
        r
      else r
  }

  /** A row of `userProgress`. */
  datatype UserProgress = UserProgress(hearts: int, points: int, gems: int, walletAddress: Option<string>)

  /** A row of `redeemedTransactions`, keyed by the transaction hash. */
  datatype Redemption = Redemption(userId: string, itemId: int)

  /** How a server action ends: it returns success, returns an `{ error }`
      object, or throws. */
  datatype Reply = Success | ErrorReply(error: string) | Thrown(message: string)

  /** The economy tables, updated in place by the actions. */
  class Store {
    var progress: map<string, UserProgress>
    var challenges: map<(string, int), bool>
    var redeemed: map<string, Redemption>

    constructor (progress0: map<string, UserProgress>, challenges0: map<(string, int), bool>,
                 redeemed0: map<string, Redemption>)
      ensures progress == progress0 && challenges == challenges0 && redeemed == redeemed0
    {
      progress := progress0;
      challenges := challenges0;
      redeemed := redeemed0;
    }
  }
}
