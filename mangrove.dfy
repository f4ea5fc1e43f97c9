/** The Mangrove entry point, reduced to what it computes itself: offer
    provisions (the native-token bounty an offer must lock, from its gas
    price and gas needs), the base/quote ordering of a token pair by
    "cashness", and the static registry of contract addresses per
    network. */
module Mangrove {
  import opened Common
  import opened OrderedMap

  /* ------------------------------------------------------------------ */
  /* Provisions                                                          */
  /* ------------------------------------------------------------------ */

  /** Gas price is in gwei (10^9 wei); the provision is in ether (10^18
      wei). */
  const GWEI_DECIMALS: nat := 9

  /** The provision an offer locks: `gasprice` gwei for each unit of its own
      gas requirement and of the list's gas base, in ether. */
  function CalculateOfferProvision(gasprice: nat, gasreq: nat, gasbase: nat): (p: real)
    ensures p >= 0.0
  {
    FromUnits(Pow10(GWEI_DECIMALS) * gasprice * (gasreq + gasbase), NATIVE_DECIMALS)
  }

  /** In gwei the provision is gas price times gas. */
  lemma OfferProvisionInGwei(gasprice: nat, gasreq: nat, gasbase: nat)
    ensures CalculateOfferProvision(gasprice, gasreq, gasbase) * (Pow10(GWEI_DECIMALS) as real)
         == (gasprice * (gasreq + gasbase)) as real
  {
    assert Pow10(GWEI_DECIMALS) == 1000000000;
    assert Pow10(NATIVE_DECIMALS) == 1000000000000000000;
    var k := gasprice * (gasreq + gasbase);
    assert Pow10(GWEI_DECIMALS) * gasprice * (gasreq + gasbase) == 1000000000 * k;
  }

  /** More gas never costs less provision. */
  lemma OfferProvisionMonotone(gasprice: nat, gasreq: nat, gasbase: nat, gasreq': nat)
    requires gasreq <= gasreq'
    ensures CalculateOfferProvision(gasprice, gasreq, gasbase) <= CalculateOfferProvision(gasprice, gasreq', gasbase)
  {
    OfferProvisionInGwei(gasprice, gasreq, gasbase);
    OfferProvisionInGwei(gasprice, gasreq', gasbase);
    assert gasprice * (gasreq + gasbase) <= gasprice * (gasreq' + gasbase);
  }

  datatype OfferProvisionParams = OfferProvisionParams(gasprice: nat, gasreq: nat, gasbase: nat)

  function ProvisionOf(o: OfferProvisionParams): real {
    CalculateOfferProvision(o.gasprice, o.gasreq, o.gasbase)
  }

  /** The provision of several offers, accumulated from zero in list
      order. */
  function CalculateOffersProvision(offers: seq<OfferProvisionParams>): (p: real)
    ensures p >= 0.0
    ensures offers == [] ==> p == 0.0
    ensures forall i :: 0 <= i < |offers| ==> ProvisionOf(offers[i]) <= p
  {
    if offers == [] then 0.0
    else
      var init := offers[..|offers| - 1];
      var acc := CalculateOffersProvision(init);
      assert forall i :: 0 <= i < |init| ==> offers[i] == init[i];
      acc + ProvisionOf(offers[|offers| - 1])
  }

  /** The provision of a concatenation is the sum of the provisions. */
  lemma {:induction false} OffersProvisionAppend(a: seq<OfferProvisionParams>, b: seq<OfferProvisionParams>)
    ensures CalculateOffersProvision(a + b) == CalculateOffersProvision(a) + CalculateOffersProvision(b)
  {
    if b == [] {
      assert a + b == a;
    } else {
      var bInit := b[..|b| - 1];
      assert (a + b)[..|a + b| - 1] == a + bInit;
      OffersProvisionAppend(a, bInit);
    }
  }

  /** Two identical offers need twice the provision of one. */
  lemma TwoIdenticalOffers(o: OfferProvisionParams)
    ensures CalculateOffersProvision([o, o]) == 2.0 * ProvisionOf(o)
  {
    OffersProvisionAppend([o], [o]);
    assert [o] + [o] == [o, o];
    assert [o][..0] == [];
  }

  /** What remains to be provided beyond what is locked; never negative. */
  function GetMissingProvision(lockedProvision: real, totalRequiredProvision: real): (m: real)
    ensures m >= 0.0
    ensures m == 0.0 <==> lockedProvision >= totalRequiredProvision
    ensures lockedProvision + m >= totalRequiredProvision
    ensures m > 0.0 ==> lockedProvision + m == totalRequiredProvision
  {
    if totalRequiredProvision > lockedProvision then totalRequiredProvision - lockedProvision else 0.0
  }

  /* ------------------------------------------------------------------ */
  /* Base and quote by cashness                                          */
  /* ------------------------------------------------------------------ */

  /** JavaScript's `<` on strings: code-unit-wise lexicographic order, a
      proper prefix first. */
  predicate StrLess(a: string, b: string) {
    if b == [] then false
    else if a == [] then true
    else if a[0] != b[0] then a[0] < b[0]
    else StrLess(a[1..], b[1..])
  }

  lemma {:induction false} StrLessAsymmetric(a: string, b: string)
    ensures StrLess(a, b) ==> !StrLess(b, a)
  {
    if a != [] && b != [] && a[0] == b[0] {
      StrLessAsymmetric(a[1..], b[1..]);
    }
  }

  lemma {:induction false} StrLessTotal(a: string, b: string)
    requires a != b
    ensures StrLess(a, b) || StrLess(b, a)
  {
    if a != [] && b != [] && a[0] == b[0] {
      assert a == [a[0]] + a[1..] && b == [b[0]] + b[1..];
      StrLessTotal(a[1..], b[1..]);
    }
  }

  datatype BaseQuote = BaseQuote(baseName: string, quoteName: string)

  /** The cashness of each name, or 0 for both unless both are known. */
  function CashnessPair(cashness: map<string, real>, name0: string, name1: string): (real, real) {
    if name0 in cashness && name1 in cashness then (cashness[name0], cashness[name1]) else (0.0, 0.0)
  }

  /** The less cash-like token is the base; at equal cashness the name
      that sorts first is. */
  function ToBaseQuoteByCashness(cashness: map<string, real>, name0: string, name1: string): (r: BaseQuote)
    ensures r == BaseQuote(name0, name1) || r == BaseQuote(name1, name0)
    ensures var c := CashnessPair(cashness, name0, name1);
      c.0 < c.1 ==> r == BaseQuote(name0, name1)
    ensures var c := CashnessPair(cashness, name0, name1);
      c.1 < c.0 ==> r == BaseQuote(name1, name0)
  {
    var c := CashnessPair(cashness, name0, name1);
    if c.0 < c.1 || (c.0 == c.1 && StrLess(name0, name1)) then BaseQuote(name0, name1)
    else BaseQuote(name1, name0)
  }

  /** When the cashness does not decide (equal, or not both known) the
      name that sorts first is the base. */
  lemma TieBrokenByName(cashness: map<string, real>, name0: string, name1: string)
    requires name0 != name1
    requires !(name0 in cashness && name1 in cashness) || cashness[name0] == cashness[name1]
    ensures ToBaseQuoteByCashness(cashness, name0, name1).baseName == if StrLess(name0, name1) then name0 else name1
    ensures StrLess(ToBaseQuoteByCashness(cashness, name0, name1).baseName, ToBaseQuoteByCashness(cashness, name0, name1).quoteName)
  {
    StrLessTotal(name0, name1);
  }

  /** The order of the arguments does not matter. */
  lemma ToBaseQuoteSymmetric(cashness: map<string, real>, name0: string, name1: string)
    ensures ToBaseQuoteByCashness(cashness, name0, name1) == ToBaseQuoteByCashness(cashness, name1, name0)
  {
    if name0 != name1 {
      StrLessTotal(name0, name1);
      StrLessAsymmetric(name0, name1);
    }
  }

  /* ------------------------------------------------------------------ */
  /* Address registry                                                    */
  /* ------------------------------------------------------------------ */

  /** The addresses known per network, each network's names in the order
      they were first set, and the cashness of token names. */
  class Registry {
    var addresses: map<string, Table<string, Address>>
    var cashness: map<string, real>

    ghost predicate Valid()
      reads this
    {
      forall network :: network in addresses ==> UniqueKeys(addresses[network])
    }

    constructor (addresses: map<string, Table<string, Address>>, cashness: map<string, real>)
      requires forall network :: network in addresses ==> UniqueKeys(addresses[network])
      ensures Valid()
      ensures this.addresses == addresses && this.cashness == cashness
    {
      this.addresses := addresses;
      this.cashness := cashness;
    }

    /** The address registered for `name` on `network`, if any. */
    function Lookup(name: string, network: string): Option<Address>
      reads this
    {
      if network in addresses then Get(addresses[network], name) else None
    }

    /** An unknown network throws, and so does a missing or empty address. */
    function GetAddress(name: string, network: string): (r: Result<Address>)
      reads this
      ensures network !in addresses ==> r == Err("No addresses for network " + network + ".")
      ensures r.Ok? <==> Lookup(name, network).Some? && Lookup(name, network).value != ""
      ensures r.Ok? ==> Lookup(name, network) == Some(r.value)
      ensures network in addresses && r.Err? ==> r.msg == "No address for " + name + " on network " + network + "."
    {
      if network !in addresses then Err("No addresses for network " + network + ".")
      else
        var a := Get(addresses[network], name);
        if a.None? || a.value == "" then Err("No address for " + name + " on network " + network + ".")
        else Ok(a.value)
    }

    /** Registers the normalised `address` for `name` on `network`,
        creating the network when it is missing. */
    method SetAddress(name: string, address: Address, network: string, normalize: Address -> Address)
      requires Valid()
      modifies this`addresses
      ensures Valid()
      ensures network in addresses
      ensures addresses == old(addresses)[network := Set(if network in old(addresses) then old(addresses)[network] else [], name, normalize(address))]
      ensures Lookup(name, network) == Some(normalize(address))
      ensures forall n, net :: (n, net) != (name, network) ==> Lookup(n, net) == old(Lookup(n, net))
    {
      if network !in addresses {
        addresses := addresses[network := []];
      }
      var table := addresses[network];
      SetGet(table, name, normalize(address));
      addresses := addresses[network := Set(table, name, normalize(address))];
    }

    /** Records the cashness of a token name. */
    method SetCashness(name: string, c: real)
      modifies this`cashness
      ensures cashness == old(cashness)[name := c]
    {
      cashness := cashness[name := c];
    }

    /** The first name on `network` (in registration order) whose address
        is the normalised query, or none. */
    method GetNameFromAddress(address: Address, network: string, normalize: Address -> Address)
      returns (r: Option<string>)
      requires Valid()
      ensures r.None? <==> (network !in addresses
        || forall i :: 0 <= i < |addresses[network]| ==> addresses[network][i].value != normalize(address))
      ensures r.Some? ==> exists i :: (0 <= i < |addresses[network]|
        && addresses[network][i] == Entry(r.value, normalize(address))
        && forall j :: 0 <= j < i ==> addresses[network][j].value != normalize(address))
      ensures r.Some? ==> Lookup(r.value, network) == Some(normalize(address))
    {
      if network !in addresses {
        return None;
      }
      var table := addresses[network];
      var query := normalize(address);
      var i := 0;
      while i < |table|
        invariant 0 <= i <= |table|
        invariant forall j :: 0 <= j < i ==> table[j].value != query
      {
        if table[i].value == query {
          GetAt(table, i);
          return Some(table[i].key);
        }
        i := i + 1;
      }
      return None;
    }
  }
}
