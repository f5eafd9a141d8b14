/** The resource ledger: one balance per resource kind and one storage cap
    (`maxStorage`) that every kind is clamped to separately. */
module Resources {
  import opened Wrappers

  datatype ResourceKind = Wood | Stone | Food | Water | Iron | Crystal

  /** A bundle of amounts keyed by kind: the ledger's stock, a build cost or
      an expedition reward. */
  type Bundle = map<ResourceKind, real>

  const InitialCap: real := 100.0

  /** The stock at game start and after a reset. */
  function InitialStock(): Bundle {
    map[Wood := 0.0, Stone := 0.0, Food := 10.0, Water := 10.0, Iron := 0.0, Crystal := 0.0]
  }

  /** The balance of `kind`; a kind missing from the stock reads as 0. */
  function Amount(res: Bundle, kind: ResourceKind): (r: real)
    ensures kind !in res ==> r == 0.0
    ensures kind in res ==> r == res[kind]
  {
    if kind in res then res[kind] else 0.0
  }

  ghost predicate NonNegative(res: Bundle) {
    forall k :: k in res ==> res[k] >= 0.0
  }

  /** Each kind separately stays within the cap (the sum is not bounded). */
  ghost predicate WithinCap(res: Bundle, cap: real) {
    forall k :: k in res ==> res[k] <= cap
  }

  /** The sum of every balance: never negative for a non-negative stock, and
      at least any single balance. */
  function Total(res: Bundle): (r: real)
    ensures NonNegative(res) ==> r >= 0.0
    ensures NonNegative(res) ==> forall k :: Amount(res, k) <= r
  {
    var sum := Amount(res, Wood) + Amount(res, Stone) + Amount(res, Food)
      + Amount(res, Water) + Amount(res, Iron) + Amount(res, Crystal);
    assert NonNegative(res) ==> forall k :: Amount(res, k) <= sum by {
      forall k | NonNegative(res) ensures Amount(res, k) <= sum {
        assert k.Wood? || k.Stone? || k.Food? || k.Water? || k.Iron? || k.Crystal?;
      }
    }
    sum
  }

  /** The stock after crediting `amount` of `kind`: the new balance is the old
      one plus `amount`, clamped to the cap and then to zero. */
  function Credit(res: Bundle, cap: real, kind: ResourceKind, amount: real): Bundle {
    res[kind := Max(0.0, Min(Amount(res, kind) + amount, cap))]
  }

  /** What `addResource` reports as added: the capped balance minus the old
      one (before the clamp to zero). */
  function CreditDelta(res: Bundle, cap: real, kind: ResourceKind, amount: real): real {
    Min(Amount(res, kind) + amount, cap) - Amount(res, kind)
  }

  /** Crediting never goes below zero or above a non-negative cap and touches
      no other kind; with a non-negative amount and a balance within the cap,
      the reported delta lies between 0 and the amount. */
  lemma CreditBounds(res: Bundle, cap: real, kind: ResourceKind, amount: real)
    ensures 0.0 <= Amount(Credit(res, cap, kind, amount), kind)
    ensures cap >= 0.0 ==> Amount(Credit(res, cap, kind, amount), kind) <= cap
    ensures forall k :: k != kind ==> Amount(Credit(res, cap, kind, amount), k) == Amount(res, k)
    ensures amount >= 0.0 && Amount(res, kind) <= cap ==>
              0.0 <= CreditDelta(res, cap, kind, amount) <= amount
    ensures amount >= 0.0 && 0.0 <= Amount(res, kind) && Amount(res, kind) + amount <= cap ==>
              CreditDelta(res, cap, kind, amount) == amount
              && Amount(Credit(res, cap, kind, amount), kind) == Amount(res, kind) + amount
  {
  }

  /** `canAfford`: every line of the cost is covered by the balance of its
      kind, a missing kind counting as 0. */
  predicate Affords(res: Bundle, cost: Bundle) {
    forall k :: k in cost ==> Amount(res, k) >= cost[k]
  }

  /** The stock once the lines of `cost` whose kinds are in `paid` have been
      deducted. */
  function Deducted(res: Bundle, cost: Bundle, paid: set<ResourceKind>): Bundle
    requires paid <= cost.Keys
  {
    map k | k in res.Keys + paid :: if k in paid then Amount(res, k) - cost[k] else res[k]
  }

  /** The stock after `payCost`: every line of the cost deducted. */
  function Pay(res: Bundle, cost: Bundle): Bundle {
    Deducted(res, cost, cost.Keys)
  }

  /** Paying drops every cost kind by exactly its amount and leaves every
      other kind as it was; an affordable cost leaves no balance negative. */
  lemma PayEffect(res: Bundle, cost: Bundle)
    ensures forall k :: k in cost ==> Amount(Pay(res, cost), k) == Amount(res, k) - cost[k]
    ensures forall k :: k !in cost ==> Amount(Pay(res, cost), k) == Amount(res, k)
    ensures NonNegative(res) && Affords(res, cost) ==> NonNegative(Pay(res, cost))
  {
  }

  /** The amounts that keep each balance within the cap do so under every
      ledger operation: crediting (whatever the amount), consuming or paying
      non-negative amounts, and raising the cap by a non-negative amount. */
  lemma CapPreserved(res: Bundle, cap: real, kind: ResourceKind, amount: real, cost: Bundle, raise: real)
    requires WithinCap(res, cap) && cap >= 0.0
    ensures WithinCap(Credit(res, cap, kind, amount), cap)
    ensures amount >= 0.0 && Amount(res, kind) >= amount ==>
              WithinCap(res[kind := Amount(res, kind) - amount], cap)
    ensures (forall k :: k in cost ==> cost[k] >= 0.0) ==> WithinCap(Pay(res, cost), cap)
    ensures raise >= 0.0 ==> WithinCap(res, cap + raise)
  {
  }

  /** The cap is per kind: from the initial stock, filling wood to the cap
      leaves a total above the cap. */
  lemma TotalExceedsCap()
    ensures var res := Credit(InitialStock(), InitialCap, Wood, 100.0);
            WithinCap(res, InitialCap) && Total(res) == 120.0 && Total(res) > InitialCap
  {
  }

  /** The ledger store: `resources` and `maxStorage`, updated in place. */
  class Ledger {
    var resources: Bundle
    var maxStorage: real

    /** Every balance is non-negative; every operation keeps it so, whatever
        the sign of its amount. */
    ghost predicate Valid()
      reads this
    {
      NonNegative(resources)
    }

    constructor ()
      ensures Valid()
      ensures resources == InitialStock() && maxStorage == InitialCap
    {
      resources := InitialStock();
      maxStorage := InitialCap;
    }

    /** `getResource`. */
    function GetResource(kind: ResourceKind): (r: real)
      reads this
      ensures kind !in resources ==> r == 0.0
      ensures kind in resources ==> r == resources[kind]
    {
      Amount(resources, kind)
    }

    /** `totalResources`: the sum over every kind. */
    function TotalResources(): (r: real)
      reads this
      ensures Valid() ==> r >= 0.0
      ensures Valid() ==> forall k :: Amount(resources, k) <= r
    {
      Total(resources)
    }

    /** `addResource`: clamp the new balance of `kind` to the cap, then to 0;
        report the capped balance minus the old one. */
    method AddResource(kind: ResourceKind, amount: real) returns (added: real)
      requires Valid()
      modifies this
      ensures Valid()
      ensures resources == Credit(old(resources), maxStorage, kind, amount)
      ensures added == CreditDelta(old(resources), maxStorage, kind, amount)
      ensures maxStorage == old(maxStorage)
    {
      var current := GetResource(kind);
      var newAmount := Min(current + amount, maxStorage);
      resources := resources[kind := Max(0.0, newAmount)];
      added := newAmount - current;
    }

    /** `consumeResource`: all or nothing for one kind. */
    method ConsumeResource(kind: ResourceKind, amount: real) returns (ok: bool)
      requires Valid()
      modifies this
      ensures Valid()
      ensures ok == (old(GetResource(kind)) >= amount)
      ensures resources == if ok then old(resources)[kind := old(GetResource(kind)) - amount]
                           else old(resources)
      ensures maxStorage == old(maxStorage)
    {
      var current := GetResource(kind);
      if current < amount {
        return false;
      }
      resources := resources[kind := current - amount];
      return true;
    }

    /** `canAfford`: scans the cost lines and stops at the first one the
        stock does not cover. */
    method CanAfford(cost: Bundle) returns (ok: bool)
      ensures ok == Affords(resources, cost)
    {
      var pending := cost.Keys;
      while pending != {}
        invariant pending <= cost.Keys
        invariant forall k :: k in cost && k !in pending ==> Amount(resources, k) >= cost[k]
        decreases pending
      {
        var k :| k in pending;
        if GetResource(k) < cost[k] {
          return false;
        }
        pending := pending - {k};
      }
      return true;
    }

    /** `payCost`: when the cost is affordable, deduct it line by line;
        otherwise change nothing. */
    method PayCost(cost: Bundle) returns (ok: bool)
      requires Valid()
      modifies this
      ensures Valid()
      ensures ok == Affords(old(resources), cost)
      ensures resources == if ok then Pay(old(resources), cost) else old(resources)
      ensures maxStorage == old(maxStorage)
    {
      ok := CanAfford(cost);
      if !ok {
        return;
      }
      ghost var before := resources;
      var pending := cost.Keys;
      while pending != {}
        invariant pending <= cost.Keys
        invariant resources == Deducted(before, cost, cost.Keys - pending)
        invariant maxStorage == old(maxStorage)
        decreases pending
      {
        var k :| k in pending;
        ghost var paid := cost.Keys - pending;
        assert Amount(resources, k) == Amount(before, k);
        resources := resources[k := GetResource(k) - cost[k]];
        pending := pending - {k};
        assert cost.Keys - pending == paid + {k};
      }
      assert cost.Keys - pending == cost.Keys;
      PayEffect(before, cost);
    }

    /** `increaseMaxStorage`. */
    method IncreaseMaxStorage(amount: real)
      modifies this
      ensures maxStorage == old(maxStorage) + amount
      ensures resources == old(resources)
    {
      maxStorage := maxStorage + amount;
    }

    /** `resetResources`. */
    method ResetResources()
      modifies this
      ensures Valid()
      ensures resources == InitialStock() && maxStorage == InitialCap
    {
      resources := InitialStock();
      maxStorage := InitialCap;
    }
  }
}
