/**
 * `verifyRedemption`: a shop item bought with BYTE tokens. The user sends
 * the tokens on chain and submits the transaction hash; the action checks
 * the hash was not redeemed before, checks the receipt, scans its logs for
 * a Transfer of the right amount from the user's wallet to the shop, then
 * records the hash and credits the item's hearts. The RPC receipt (with
 * each log already decoded, or marked as failing to decode) and the two
 * configured addresses are inputs.
 */
module RedeemVoucher {
  import opened Wrappers
  import opened Text
  import opened GameStore
  import Auth0
  import Ethers

  const NOT_REDEEMABLE: string := "Item not found or not redeemable with BYTE"
  const ALREADY_REDEEMED: string := "Transaction already redeemed."
  const TX_FAILED: string := "Transaction failed or not found."
  const NO_WALLET: string := "User wallet not linked."
  const WRONG_SENDER: string := "Transaction was not sent from your wallet."
  const NO_MATCH: string := "Transaction data does not match purchase details."
  const VERIFY_FAILED: string := "Failed to verify transaction."

  function Pow10(n: nat): (r: nat)
    ensures r >= 1
  {
    if n == 0 then 1 else 10 * Pow10(n - 1)
  }

  /** Base units per whole BYTE: ten to the token's decimals. */
  const WEI_PER_BYTE: nat := 1_000_000_000_000_000_000

  lemma WeiPerByte()
    ensures WEI_PER_BYTE == Pow10(Ethers.B_DECIMALS)
  {
    assert Pow10(6) == 1_000_000;
    Pow10Add(6, 6);
    Pow10Add(12, 6);
  }

  lemma {:induction false} Pow10Add(m: nat, n: nat)
    ensures Pow10(m + n) == Pow10(m) * Pow10(n)
    decreases n
  {
    if n > 0 {
      Pow10Add(m, n - 1);
      assert Pow10(m + n) == 10 * Pow10(m + n - 1);
    }
  }

  /** `parseUnits(byteCost.toString(), B_DECIMALS)` for a whole-number cost. */
  function ExpectedAmount(byteCost: int): int {
    byteCost * WEI_PER_BYTE
  }

  /** A receipt's `status` as the RPC reports it: a string or a number. */
  datatype ReceiptStatus = StatusText(text: string) | StatusNumber(n: int)

  /** A log decoded against the Transfer ABI. */
  datatype DecodedEvent = DecodedEvent(eventName: string, from: string, to: string, value: int)

  /** A receipt log; `decoded` is `None` when decoding throws. */
  datatype Log = Log(address: string, decoded: Option<DecodedEvent>)

  datatype Receipt = Receipt(status: Option<ReceiptStatus>, from: Option<string>, logs: Option<seq<Log>>)

  /** What `getTransactionReceipt` does: throws, or returns a receipt or
      nothing. */
  datatype ReceiptFetch = RpcFailed | Fetched(receipt: Option<Receipt>)

  /** `NEXT_PUBLIC_SHOP_WALLET_ADDRESS` and `NEXT_PUBLIC_BYTE_TOKEN_ADDRESS`. */
  datatype Chain = Chain(shopWallet: string, tokenAddress: string)

  /** `status?.toString() === '0x1' || status === 1`. */
  predicate StatusOk(status: Option<ReceiptStatus>) {
    status.Some? &&
    match status.value
    case StatusText(t) => t == "0x1"
    case StatusNumber(n) => n == 1
  }

  /** `receipt.logs ?? []`. */
  function LogsOf(r: Receipt): seq<Log> {
    if r.logs.Some? then r.logs.value else []
  }

  /** One log is the payment: emitted by the token, a Transfer, from the
      wallet to the shop, of exactly the expected amount; addresses are
      compared case-insensitively. */
  predicate Matches(log: Log, wallet: string, chain: Chain, expected: int) {
    && EqualsIgnoreCase(log.address, chain.tokenAddress)
    && log.decoded.Some?
    && log.decoded.value.eventName == "Transfer"
    && EqualsIgnoreCase(log.decoded.value.from, wallet)
    && EqualsIgnoreCase(log.decoded.value.to, chain.shopWallet)
    && log.decoded.value.value == expected
  }

  predicate TransferValid(logs: seq<Log>, wallet: string, chain: Chain, expected: int) {
    exists i :: 0 <= i < |logs| && Matches(logs[i], wallet, chain, expected)
  }

  /** The scan of the logs, stopping at the first match. */
  method ScanLogs(logs: seq<Log>, wallet: string, chain: Chain, expected: int) returns (transferValid: bool)
    ensures transferValid <==> TransferValid(logs, wallet, chain, expected)
  {
    transferValid := false;
    var i := 0;
    while i < |logs|
      invariant 0 <= i <= |logs|
      invariant forall j :: 0 <= j < i ==> !Matches(logs[j], wallet, chain, expected)
    {
      var log := logs[i];
      if EqualsIgnoreCase(log.address, chain.tokenAddress) {
        if log.decoded.Some? && log.decoded.value.eventName == "Transfer" {
          var parsed := log.decoded.value;
          if EqualsIgnoreCase(parsed.from, wallet) && EqualsIgnoreCase(parsed.to, chain.shopWallet) &&
             parsed.value == expected {
            transferValid := true;
            break;
          }
        }
      }
      i := i + 1;
    }
  }

  datatype RedeemStep = RedeemStep(reply: Reply, progress: map<string, UserProgress>, redeemed: map<string, Redemption>)

  /** The hearts credit: only for an item with a positive heart count. */
  function Credited(p: UserProgress, item: ShopItem): UserProgress {
    if item.hearts > 0 then p.(hearts := p.hearts + item.hearts) else p
  }

  /** `verifyRedemption` as a function of the tables. */
  function VerifyStep(progress: map<string, UserProgress>, redeemed: map<string, Redemption>,
                      user: Option<Auth0.AuthUser>, itemId: int, txHash: string, items: seq<ShopItem>,
                      fetch: ReceiptFetch, chain: Chain): (s: RedeemStep)
    ensures s.reply != Success ==> s.progress == progress && s.redeemed == redeemed
    ensures user.None? ==> s.reply == Thrown(Auth0.UNAUTHORIZED)
    ensures user.Some? && (FindItem(items, itemId).None? || !Truthy(FindItem(items, itemId).value.byteCost))
        ==> s.reply == ErrorReply(NOT_REDEEMABLE)
    ensures user.Some? && FindItem(items, itemId).Some? && Truthy(FindItem(items, itemId).value.byteCost) &&
            txHash in redeemed
        ==> s.reply == ErrorReply(ALREADY_REDEEMED)
    ensures s.reply == Success ==> user.Some? && user.value.id in progress && FindItem(items, itemId).Some?
    ensures s.reply == Success ==>
              var item := FindItem(items, itemId).value;
              && s.redeemed == redeemed[txHash := Redemption(user.value.id, item.id)]
              && s.progress == progress[user.value.id := Credited(progress[user.value.id], item)]
  {
    if user.None? then RedeemStep(Thrown(Auth0.UNAUTHORIZED), progress, redeemed)
    else
      var found := FindItem(items, itemId);
      if found.None? || !Truthy(found.value.byteCost) then RedeemStep(ErrorReply(NOT_REDEEMABLE), progress, redeemed)
      else if txHash in redeemed then RedeemStep(ErrorReply(ALREADY_REDEEMED), progress, redeemed)
      else if fetch.RpcFailed? then RedeemStep(ErrorReply(VERIFY_FAILED), progress, redeemed)
      else if fetch.receipt.None? || !StatusOk(fetch.receipt.value.status) then
        RedeemStep(ErrorReply(TX_FAILED), progress, redeemed)
      else
        var receipt := fetch.receipt.value;
        var userId := user.value.id;
        if userId !in progress || !Present(progress[userId].walletAddress) then
          RedeemStep(ErrorReply(NO_WALLET), progress, redeemed)
        else
          var wallet := progress[userId].walletAddress.value;
          if Present(receipt.from) && !EqualsIgnoreCase(receipt.from.value, wallet) then
            RedeemStep(ErrorReply(WRONG_SENDER), progress, redeemed)
          else if !TransferValid(LogsOf(receipt), wallet, chain, ExpectedAmount(found.value.byteCost.value)) then
            RedeemStep(ErrorReply(NO_MATCH), progress, redeemed)
          else
            var item := found.value;
            RedeemStep(Success, progress[userId := Credited(progress[userId], item)],
                       redeemed[txHash := Redemption(userId, item.id)])
  }

  /** A redemption succeeds exactly when every check passes. */
  lemma VerifySucceedsIff(progress: map<string, UserProgress>, redeemed: map<string, Redemption>,
                          user: Option<Auth0.AuthUser>, itemId: int, txHash: string, items: seq<ShopItem>,
                          fetch: ReceiptFetch, chain: Chain)
    ensures VerifyStep(progress, redeemed, user, itemId, txHash, items, fetch, chain).reply == Success <==>
              && user.Some?
              && FindItem(items, itemId).Some? && Truthy(FindItem(items, itemId).value.byteCost)
              && txHash !in redeemed
              && fetch.Fetched? && fetch.receipt.Some? && StatusOk(fetch.receipt.value.status)
              && user.value.id in progress && Present(progress[user.value.id].walletAddress)
              && (Present(fetch.receipt.value.from) ==>
                    EqualsIgnoreCase(fetch.receipt.value.from.value, progress[user.value.id].walletAddress.value))
              && TransferValid(LogsOf(fetch.receipt.value), progress[user.value.id].walletAddress.value, chain,
                               ExpectedAmount(FindItem(items, itemId).value.byteCost.value))
  {
  }

  method VerifyRedemption(s: Store, user: Option<Auth0.AuthUser>, itemId: int, txHash: string, items: seq<ShopItem>,
                          fetch: ReceiptFetch, chain: Chain) returns (reply: Reply)
    modifies s
    ensures RedeemStep(reply, s.progress, s.redeemed) ==
            VerifyStep(old(s.progress), old(s.redeemed), user, itemId, txHash, items, fetch, chain)
    ensures s.challenges == old(s.challenges)
  {
    if user.None? {
      return Thrown(Auth0.UNAUTHORIZED);
    }
    var userId := user.value.id;
    var found := FindItem(items, itemId);
    if found.None? || !Truthy(found.value.byteCost) {
      return ErrorReply(NOT_REDEEMABLE);
    }
    var item := found.value;
    if txHash in s.redeemed {
      return ErrorReply(ALREADY_REDEEMED);
    }
    if fetch.RpcFailed? {
      return ErrorReply(VERIFY_FAILED);
    }
    if fetch.receipt.None? || !StatusOk(fetch.receipt.value.status) {
      return ErrorReply(TX_FAILED);
    }
    var receipt := fetch.receipt.value;
    if userId !in s.progress || !Present(s.progress[userId].walletAddress) {
      return ErrorReply(NO_WALLET);
    }
    var uProgress := s.progress[userId];
    var wallet := uProgress.walletAddress.value;
    if Present(receipt.from) && !EqualsIgnoreCase(receipt.from.value, wallet) {
      return ErrorReply(WRONG_SENDER);
    }
    var expectedAmount := ExpectedAmount(item.byteCost.value);
    var transferValid := ScanLogs(LogsOf(receipt), wallet, chain, expectedAmount);
    if !transferValid {
      return ErrorReply(NO_MATCH);
    }
    s.redeemed := s.redeemed[txHash := Redemption(userId, item.id)];
    if item.hearts > 0 {
      s.progress := s.progress[userId := uProgress.(hearts := uProgress.hearts + item.hearts)];
    }
    reply := Success;
  }

  /** A redeemed hash cannot be redeemed again: the second attempt is
      refused and changes nothing. */
  lemma NoReplay(progress: map<string, UserProgress>, redeemed: map<string, Redemption>,
                 user: Auth0.AuthUser, itemId: int, txHash: string, items: seq<ShopItem>,
                 fetch: ReceiptFetch, chain: Chain, itemId2: int, fetch2: ReceiptFetch)
    requires VerifyStep(progress, redeemed, Some(user), itemId, txHash, items, fetch, chain).reply == Success
    requires FindItem(items, itemId2).Some? && Truthy(FindItem(items, itemId2).value.byteCost)
    ensures var first := VerifyStep(progress, redeemed, Some(user), itemId, txHash, items, fetch, chain);
            var second := VerifyStep(first.progress, first.redeemed, Some(user), itemId2, txHash, items, fetch2, chain);
            second == RedeemStep(ErrorReply(ALREADY_REDEEMED), first.progress, first.redeemed)
  {
  }

  /** A successful redemption credits exactly the item's hearts (when
      positive) to the caller and changes no other balance or user. */
  lemma RedemptionCreditsOnlyHearts(progress: map<string, UserProgress>, redeemed: map<string, Redemption>,
                                    user: Auth0.AuthUser, itemId: int, txHash: string, items: seq<ShopItem>,
                                    fetch: ReceiptFetch, chain: Chain)
    requires VerifyStep(progress, redeemed, Some(user), itemId, txHash, items, fetch, chain).reply == Success
    ensures var s := VerifyStep(progress, redeemed, Some(user), itemId, txHash, items, fetch, chain);
            var item := FindItem(items, itemId).value;
            var before := progress[user.id];
            var after := s.progress[user.id];
            && after.hearts == before.hearts + (if item.hearts > 0 then item.hearts else 0)
            && after.points == before.points && after.gems == before.gems
            && after.walletAddress == before.walletAddress
            && (forall u :: u in progress && u != user.id ==> s.progress[u] == progress[u])
            && s.redeemed.Keys == redeemed.Keys + {txHash}
  {
  }

  /** A receipt without a sender skips the sender check: the redemption
      then depends on the logs alone. */
  lemma MissingSenderIsNotChecked(progress: map<string, UserProgress>, redeemed: map<string, Redemption>,
                                  user: Auth0.AuthUser, itemId: int, txHash: string, items: seq<ShopItem>,
                                  receipt: Receipt, chain: Chain)
    requires receipt.from.None?
    ensures VerifyStep(progress, redeemed, Some(user), itemId, txHash, items, Fetched(Some(receipt)), chain).reply !=
            ErrorReply(WRONG_SENDER)
  {
  }

  /** An RPC failure is reported with the generic message. */
  lemma RpcFailureIsGeneric(progress: map<string, UserProgress>, redeemed: map<string, Redemption>,
                            user: Auth0.AuthUser, itemId: int, txHash: string, items: seq<ShopItem>, chain: Chain)
    requires FindItem(items, itemId).Some? && Truthy(FindItem(items, itemId).value.byteCost)
    requires txHash !in redeemed
    ensures VerifyStep(progress, redeemed, Some(user), itemId, txHash, items, RpcFailed, chain).reply ==
            ErrorReply(VERIFY_FAILED)
  {
  }
}
