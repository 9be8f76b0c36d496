/**
 * The BYTE token ledger as its tests describe it: the balances, total
 * supply and transfer of the ERC-20 Token Standard (the Specification
 * section of EIP-20), plus a mint open only to holders of the minter role
 * and capped at one billion whole tokens. Accounts are opaque strings;
 * the amounts are in base units (18 decimals).
 */
module ByteToken {
  import opened Wrappers

  const NAME: string := "BrainByte"
  const SYMBOL: string := "BYTE"
  const DECIMALS: nat := 18

  /** One billion tokens of 18 decimals. */
  const MAX_SUPPLY: nat := 1000000000 * 1000000000000000000

  /** One whole token in base units. */
  const ONE_TOKEN: nat := 1000000000000000000

  type Address = string

  datatype Role = MinterRole | AdminRole

  /** Why a transaction reverted. */
  datatype Revert = NotMinter | ExceedsMaxSupply | InsufficientBalance | MissingAdminRole

  /** The revert strings the tests fix; the other two reasons carry no
      string of their own here. */
  function RevertMessage(r: Revert): (m: Option<string>)
    ensures r == NotMinter ==> m == Some("Caller is not a minter")
    ensures r == ExceedsMaxSupply ==> m == Some("Exceeds maximum supply")
    ensures m.None? <==> r == InsufficientBalance || r == MissingAdminRole
  {
    match r
    case NotMinter => Some("Caller is not a minter")
    case ExceedsMaxSupply => Some("Exceeds maximum supply")
    case InsufficientBalance => None
    case MissingAdminRole => None
  }

  datatype TxResult = Ok | Reverted(reason: Revert)

  /** The contract state. */
  datatype Ledger = Ledger(balances: map<Address, nat>, totalSupply: nat, minters: set<Address>, admins: set<Address>)

  datatype Tx = Tx(result: TxResult, ledger: Ledger)

  /** What an account holds, as `balanceOf` reports it: an account never
      credited holds zero. */
  function Holding(l: Ledger, a: Address): nat {
    if a in l.balances then l.balances[a] else 0
  }

  /** The sum of all balances. */
  ghost function Total(m: map<Address, nat>): nat
    decreases |m|
  {
    if m == map[] then 0
    else
      var k :| k in m;
      m[k] + Total(m - {k})
  }

  /** Every token in existence is in some balance and the cap holds. */
  ghost predicate Consistent(l: Ledger) {
    l.totalSupply == Total(l.balances) && l.totalSupply <= MAX_SUPPLY
  }

  /** The state right after deployment: no tokens, and the deployer holds
      both roles. */
  function Deployed(deployer: Address): (l: Ledger)
    ensures Consistent(l)
    ensures l.totalSupply == 0 && deployer in l.minters && deployer in l.admins
  {
    Ledger(map[], 0, {deployer}, {deployer})
  }

  /** `mint(to, amount)` sent by `caller`: the role is checked first, then
      the cap. */
  function MintStep(l: Ledger, caller: Address, to: Address, amount: nat): (t: Tx)
    requires Consistent(l)
    ensures Consistent(t.ledger)
    ensures t.result == Ok <==> caller in l.minters && l.totalSupply + amount <= MAX_SUPPLY
    ensures caller !in l.minters ==> t.result == Reverted(NotMinter)
    ensures caller in l.minters && l.totalSupply + amount > MAX_SUPPLY ==> t.result == Reverted(ExceedsMaxSupply)
    ensures t.result.Reverted? ==> t.ledger == l
    ensures t.result == Ok ==>
              && Holding(t.ledger, to) == Holding(l, to) + amount
              && t.ledger.totalSupply == l.totalSupply + amount
              && (forall a :: a != to ==> Holding(t.ledger, a) == Holding(l, a))
              && t.ledger.minters == l.minters && t.ledger.admins == l.admins
  {
    if caller !in l.minters then Tx(Reverted(NotMinter), l)
    else if l.totalSupply + amount > MAX_SUPPLY then Tx(Reverted(ExceedsMaxSupply), l)
    else
      var balances := l.balances[to := Holding(l, to) + amount];
      TotalUpdate(l.balances, to, Holding(l, to) + amount);
      Tx(Ok, l.(balances := balances, totalSupply := l.totalSupply + amount))
  }

  /** `transfer(to, amount)` sent by `caller`: reverts when the caller holds
      too little, and otherwise moves the amount. */
  function TransferStep(l: Ledger, caller: Address, to: Address, amount: nat): (t: Tx)
    requires Consistent(l)
    ensures Consistent(t.ledger)
    ensures t.result == Ok <==> Holding(l, caller) >= amount
    ensures t.result.Reverted? ==> t.result.reason == InsufficientBalance && t.ledger == l
    ensures t.ledger.totalSupply == l.totalSupply
    ensures t.ledger.minters == l.minters && t.ledger.admins == l.admins
    ensures t.result == Ok && caller != to ==>
              && Holding(t.ledger, caller) == Holding(l, caller) - amount
              && Holding(t.ledger, to) == Holding(l, to) + amount
    ensures t.result == Ok ==> forall a :: a != caller && a != to ==> Holding(t.ledger, a) == Holding(l, a)
    ensures t.result == Ok && caller == to ==> Holding(t.ledger, caller) == Holding(l, caller)
  {
    var from := Holding(l, caller);
    if from < amount then Tx(Reverted(InsufficientBalance), l)
    else
      var debited := l.balances[caller := from - amount];
      TotalUpdate(l.balances, caller, from - amount);
      var credit := (if to in debited then debited[to] else 0) + amount;
      var credited := debited[to := credit];
      TotalUpdate(debited, to, credit);
      var after := l.(balances := credited);
      assert forall a :: a != caller && a != to ==> Holding(after, a) == Holding(l, a);
      Tx(Ok, after)
  }

  /** `grantRole(role, account)` sent by `caller`, who must be an admin. */
  function GrantRoleStep(l: Ledger, caller: Address, role: Role, account: Address): (t: Tx)
    requires Consistent(l)
    ensures Consistent(t.ledger) && t.ledger.balances == l.balances && t.ledger.totalSupply == l.totalSupply
    ensures t.result == Ok <==> caller in l.admins
    ensures t.result.Reverted? ==> t.result.reason == MissingAdminRole && t.ledger == l
    ensures t.result == Ok && role == MinterRole ==> t.ledger.minters == l.minters + {account} && t.ledger.admins == l.admins
    ensures t.result == Ok && role == AdminRole ==> t.ledger.admins == l.admins + {account} && t.ledger.minters == l.minters
  {
    if caller !in l.admins then Tx(Reverted(MissingAdminRole), l)
    else if role == MinterRole then Tx(Ok, l.(minters := l.minters + {account}))
    else Tx(Ok, l.(admins := l.admins + {account}))
  }

  /** `revokeRole(role, account)` sent by `caller`, who must be an admin. */
  function RevokeRoleStep(l: Ledger, caller: Address, role: Role, account: Address): (t: Tx)
    requires Consistent(l)
    ensures Consistent(t.ledger) && t.ledger.balances == l.balances && t.ledger.totalSupply == l.totalSupply
    ensures t.result == Ok <==> caller in l.admins
    ensures t.result.Reverted? ==> t.result.reason == MissingAdminRole && t.ledger == l
    ensures t.result == Ok && role == MinterRole ==> t.ledger.minters == l.minters - {account} && t.ledger.admins == l.admins
    ensures t.result == Ok && role == AdminRole ==> t.ledger.admins == l.admins - {account} && t.ledger.minters == l.minters
  {
    if caller !in l.admins then Tx(Reverted(MissingAdminRole), l)
    else if role == MinterRole then Tx(Ok, l.(minters := l.minters - {account}))
    else Tx(Ok, l.(admins := l.admins - {account}))
  }

  /** Removing one account from the sum. */
  lemma {:induction false} TotalRemove(m: map<Address, nat>, k: Address)
    requires k in m
    ensures Total(m) == m[k] + Total(m - {k})
    decreases |m|
  {
    var j :| j in m && Total(m) == m[j] + Total(m - {j});
    if j != k {
      var mj := m - {j};
      var mk := m - {k};
      assert k in mj && j in mk;
      TotalRemove(mj, k);
      TotalRemove(mk, j);
      assert mj - {k} == mk - {j};
    }
  }

  /** Setting one balance changes the sum by the difference. */
  lemma TotalUpdate(m: map<Address, nat>, k: Address, v: nat)
    ensures Total(m[k := v]) + (if k in m then m[k] else 0) == Total(m) + v
  {
    var n := m[k := v];
    TotalRemove(n, k);
    if k in m {
      TotalRemove(m, k);
      assert n - {k} == m - {k};
    } else {
      assert n - {k} == m;
    }
  }

  /** The contract. */
  class Token {
    var balances: map<Address, nat>
    var totalSupply: nat
    var minters: set<Address>
    var admins: set<Address>

    function State(): Ledger
      reads this
    {
      Ledger(balances, totalSupply, minters, admins)
    }

    ghost predicate Valid()
      reads this
    {
      Consistent(State())
    }

    /** Deployment by `deployer`. */
    constructor(deployer: Address)
      ensures Valid() && State() == Deployed(deployer)
    {
      balances := map[];
      totalSupply := 0;
      minters := {deployer};
      admins := {deployer};
    }

    method BalanceOf(a: Address) returns (b: nat)
      ensures b == Holding(State(), a)
    {
      b := if a in balances then balances[a] else 0;
    }

    method Mint(caller: Address, to: Address, amount: nat) returns (r: TxResult)
      requires Valid()
      modifies this
      ensures Valid()
      ensures Tx(r, State()) == MintStep(old(State()), caller, to, amount)
    {
      if caller !in minters {
        return Reverted(NotMinter);
      }
      if totalSupply + amount > MAX_SUPPLY {
        return Reverted(ExceedsMaxSupply);
      }
      var before := if to in balances then balances[to] else 0;
      TotalUpdate(balances, to, before + amount);
      balances := balances[to := before + amount];
      totalSupply := totalSupply + amount;
      r := Ok;
    }

    method Transfer(caller: Address, to: Address, amount: nat) returns (r: TxResult)
      requires Valid()
      modifies this
      ensures Valid()
      ensures Tx(r, State()) == TransferStep(old(State()), caller, to, amount)
    {
      var from := if caller in balances then balances[caller] else 0;
      if from < amount {
        return Reverted(InsufficientBalance);
      }
      balances := balances[caller := from - amount];
      var credit := (if to in balances then balances[to] else 0) + amount;
      balances := balances[to := credit];
      r := Ok;
      assert State() == TransferStep(old(State()), caller, to, amount).ledger;
    }

    method GrantRole(caller: Address, role: Role, account: Address) returns (r: TxResult)
      requires Valid()
      modifies this
      ensures Valid()
      ensures Tx(r, State()) == GrantRoleStep(old(State()), caller, role, account)
    {
      if caller !in admins {
        return Reverted(MissingAdminRole);
      }
      if role == MinterRole {
        minters := minters + {account};
      } else {
        admins := admins + {account};
      }
      r := Ok;
    }

    method RevokeRole(caller: Address, role: Role, account: Address) returns (r: TxResult)
      requires Valid()
      modifies this
      ensures Valid()
      ensures Tx(r, State()) == RevokeRoleStep(old(State()), caller, role, account)
    {
      if caller !in admins {
        return Reverted(MissingAdminRole);
      }
      if role == MinterRole {
        minters := minters - {account};
      } else {
        admins := admins - {account};
      }
      r := Ok;
    }
  }

  /** Two mints of half the cap each reach the cap exactly; after that,
      minting even one more base unit reverts. */
  lemma MintingUpToTheCap(deployer: Address, minter: Address)
    ensures var l0 := GrantRoleStep(Deployed(deployer), deployer, MinterRole, minter).ledger;
            var half := 500000000 * ONE_TOKEN;
            var t1 := MintStep(l0, minter, minter, half);
            var t2 := MintStep(t1.ledger, minter, minter, half);
            && t1.result == Ok && t2.result == Ok
            && t2.ledger.totalSupply == MAX_SUPPLY && Holding(t2.ledger, minter) == MAX_SUPPLY
            && MintStep(t2.ledger, minter, minter, 1).result == Reverted(ExceedsMaxSupply)
  {
  }

  /** Once the supply is at the cap, every mint of a positive amount
      reverts, whoever sends it. */
  lemma CapIsFinal(l: Ledger, caller: Address, to: Address, amount: nat)
    requires Consistent(l) && l.totalSupply == MAX_SUPPLY && amount > 0
    ensures MintStep(l, caller, to, amount).result.Reverted?
    ensures MintStep(l, caller, to, amount).ledger == l
  {
  }

  /** Granting the minter role lets an account mint, and revoking it stops
      it again. */
  lemma GrantThenRevoke(l: Ledger, admin: Address, account: Address, amount: nat)
    requires Consistent(l) && admin in l.admins && l.totalSupply + amount <= MAX_SUPPLY
    ensures var granted := GrantRoleStep(l, admin, MinterRole, account).ledger;
            var revoked := RevokeRoleStep(granted, admin, MinterRole, account).ledger;
            && MintStep(granted, account, account, amount).result == Ok
            && MintStep(revoked, account, account, amount).result == Reverted(NotMinter)
  {
  }

  /** A transfer followed by the reverse transfer restores every balance. */
  lemma TransferBack(l: Ledger, a: Address, b: Address, amount: nat)
    requires Consistent(l) && Holding(l, a) >= amount
    ensures var there := TransferStep(l, a, b, amount);
            var back := TransferStep(there.ledger, b, a, amount);
            && back.result == Ok
            && forall x :: Holding(back.ledger, x) == Holding(l, x)
  {
  }
}
