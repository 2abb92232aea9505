/**
 The proxy cache: the life of its client, and the decisions taken from its lookups.
 */
module ProxyCache {
  import opened Ledger

  // ----- the client

  class Client {
    var isConnected: bool

    constructor ()
      ensures !isConnected
    {
      isConnected := false;
    }

    /** `reachable` says whether the attempt goes through. */
    method Connect(reachable: bool)
      modifies this
      ensures isConnected == reachable
    {
      isConnected := reachable;
    }

    /** An attempt that fails throws and leaves the client connected. */
    method Disconnect(reachable: bool)
      modifies this
      ensures isConnected == (old(isConnected) && !reachable)
    {
      if reachable {
        isConnected := false;
      }
    }
  }

  datatype Operation = GetCache | Connect(reachable: bool) | Disconnect(reachable: bool) | Reset(reachable: bool)

  /** The module variable, and every client made so far. */
  class Holder {
    var proxyCache: Client?
    ghost var made: set<Client>

    /** Only the current client may be connected. */
    ghost predicate Valid()
      reads this, made
    {
      && (proxyCache != null ==> proxyCache in made)
      && forall c :: c in made && c.isConnected ==> c == proxyCache
    }

    constructor ()
      ensures Valid() && proxyCache == null && made == {}
    {
      proxyCache, made := null, {};
    }

    method GetCache() returns (client: Client)
      requires Valid()
      modifies this
      ensures Valid() && client == proxyCache
      ensures if old(proxyCache) == null then fresh(client) && !client.isConnected && made == old(made) + {client}
              else client == old(proxyCache) && made == old(made)
    {
      if proxyCache == null {
        proxyCache := new Client();
        made := made + {proxyCache};
      }
      client := proxyCache;
    }

    method Connect(reachable: bool)
      requires Valid()
      modifies this, made
      ensures Valid() && proxyCache != null && old(made) <= made && fresh(made - old(made))
      ensures proxyCache.isConnected <==> reachable || (old(proxyCache) != null && old(proxyCache.isConnected))
    {
      if proxyCache == null || !proxyCache.isConnected {
        var client := GetCache();
        client.Connect(reachable);
      }
    }

    /** A failing disconnect throws before the variable is cleared. */
    method Disconnect(reachable: bool) returns (thrown: bool)
      requires Valid()
      modifies this, made
      ensures Valid() && made == old(made)
      ensures thrown <==> old(proxyCache) != null && old(proxyCache.isConnected) && !reachable
      ensures proxyCache == if thrown then old(proxyCache) else null
    {
      if proxyCache != null && proxyCache.isConnected {
        proxyCache.Disconnect(reachable);
        if !reachable {
          return true;
        }
      }
      proxyCache := null;
      thrown := false;
    }

    method Reset(reachable: bool) returns (thrown: bool)
      requires Valid()
      modifies this, made
      ensures Valid() && made == old(made)
      ensures thrown <==> old(proxyCache) != null && old(proxyCache.isConnected) && !reachable
      ensures proxyCache == if thrown then old(proxyCache) else null
    {
      thrown := Disconnect(reachable);
      if !thrown {
        proxyCache := null;
      }
    }

    ghost predicate NoneConnected()
      reads this, made
    {
      forall c :: c in made ==> !c.isConnected
    }

    /**
     Any run of operations: no client is ever dropped while connected, and after a disconnect or reset that goes
     through there is no current client and none is connected.
     */
    method Perform(operations: seq<Operation>)
      requires Valid()
      modifies this, made
      ensures Valid() && old(made) <= made && fresh(made - old(made))
      ensures operations != [] && operations[|operations| - 1] in {Operation.Disconnect(true), Operation.Reset(true)} ==>
                proxyCache == null && NoneConnected()
    {
      for i := 0 to |operations|
        invariant Valid() && old(made) <= made && fresh(made - old(made))
        invariant i > 0 && operations[i - 1] in {Operation.Disconnect(true), Operation.Reset(true)} ==> proxyCache == null
      {
        match operations[i]
        case GetCache => var _ := GetCache();
        case Connect(reachable) => Connect(reachable);
        case Disconnect(reachable) => var _ := Disconnect(reachable);
        case Reset(reachable) => var _ := Reset(reachable);
      }
    }
  }

  // ----- lookups

  datatype CurrencyAccount = CurrencyAccount(currency: string, accountType: nat, isActive: int)

  datatype Wanted = Wanted(currency: string, accountType: nat)

  datatype Options = Options(validateCurrencyAccounts: bool, accounts: seq<Wanted>)

  datatype ProxyOrParticipant = ProxyOrParticipant(inScheme: bool, proxyId: Option<string>, name: string)

  /** What the participant service and the cache answer. An account is found by name and currency. */
  datatype Lookups = Lookups(
    participants: map<string, seq<CurrencyAccount>>, proxies: map<string, string>,
    positionAccounts: map<(string, string), nat>)

  predicate Active(list: seq<CurrencyAccount>, w: Wanted) {
    exists a :: a in list && a.currency == w.currency && a.accountType == w.accountType && a.isActive == 1
  }

  function ProxyOf(l: Lookups, name: string): Option<string> {
    if name in l.proxies then Some(l.proxies[name]) else None
  }

  method GetFSPProxy(l: Lookups, dfspId: string, options: Option<Options>) returns (r: ProxyOrParticipant)
    ensures r.name == dfspId
    ensures r.inScheme <==>
              && dfspId in l.participants
              && (options.Some? && options.value.validateCurrencyAccounts ==>
                    && options.value.accounts != []
                    && forall w :: w in options.value.accounts ==>
                         exists a :: a in l.participants[dfspId] && a.currency == w.currency
                                     && a.accountType == w.accountType && a.isActive == 1)
    ensures r.proxyId == if dfspId in l.participants then None else ProxyOf(l, dfspId)
  {
    var inScheme := dfspId in l.participants;
    if inScheme && options.Some? && options.value.validateCurrencyAccounts {
      var accountsAreActive := false;
      var accounts := options.value.accounts;
      for i := 0 to |accounts|
        invariant accountsAreActive <==> i > 0
        invariant forall k :: 0 <= k < i ==> Active(l.participants[dfspId], accounts[k])
      {
        accountsAreActive := Active(l.participants[dfspId], accounts[i]);
        if !accountsAreActive {
          assert accounts[i] in accounts;
          break;
        }
      }
      inScheme := accountsAreActive;
    }
    r := ProxyOrParticipant(inScheme, if dfspId in l.participants then None else ProxyOf(l, dfspId), dfspId);
  }

  /** An empty proxy identifier counts as none. */
  predicate HasProxy(l: Lookups, name: string) {
    name in l.proxies && l.proxies[name] != ""
  }

  predicate CheckSameCreditorDebtorProxy(l: Lookups, debtor: string, creditor: string) {
    if HasProxy(l, debtor) && HasProxy(l, creditor) then l.proxies[debtor] == l.proxies[creditor] else false
  }

  /** Having the same proxy, by name, is an equivalence on the names that have one, and relates no others. */
  lemma SameProxyEquivalence(l: Lookups, a: string, b: string, c: string)
    ensures CheckSameCreditorDebtorProxy(l, a, b) <==> ProxyOf(l, a) == ProxyOf(l, b) && ProxyOf(l, a) !in {None, Some("")}
    ensures CheckSameCreditorDebtorProxy(l, a, a) <==> HasProxy(l, a)
    ensures CheckSameCreditorDebtorProxy(l, a, b) <==> CheckSameCreditorDebtorProxy(l, b, a)
    ensures CheckSameCreditorDebtorProxy(l, a, b) && CheckSameCreditorDebtorProxy(l, b, c) ==>
              CheckSameCreditorDebtorProxy(l, a, c)
  {
  }

  /** An account identifier of zero counts as none. */
  function AccountOf(l: Lookups, name: string, currency: string): Option<nat> {
    if (name, currency) in l.positionAccounts && l.positionAccounts[(name, currency)] != 0 then
      Some(l.positionAccounts[(name, currency)])
    else None
  }

  /** The account found for a name and currency, if its identifier is not zero. */
  lemma AccountFound(l: Lookups, name: string, currency: string, account: nat)
    ensures AccountOf(l, name, currency) == Some(account)
            <==> account > 0 && (name, currency) in l.positionAccounts && l.positionAccounts[(name, currency)] == account
  {
  }

  method GetProxyParticipantAccountDetails(l: Lookups, fspName: string, currency: string)
    returns (inScheme: bool, participantCurrencyId: Option<nat>)
    ensures inScheme <==> fspName in l.participants
    ensures fspName in l.participants ==> participantCurrencyId == AccountOf(l, fspName, currency)
    ensures fspName !in l.participants && HasProxy(l, fspName) ==>
              participantCurrencyId == AccountOf(l, l.proxies[fspName], currency)
    ensures fspName !in l.participants && !HasProxy(l, fspName) ==> participantCurrencyId == None
  {
    var proxyLookupResult := GetFSPProxy(l, fspName, None);
    if proxyLookupResult.inScheme {
      return true, AccountOf(l, fspName, currency);
    }
    if proxyLookupResult.proxyId.Some? && proxyLookupResult.proxyId.value != "" {
      return false, AccountOf(l, proxyLookupResult.proxyId.value, currency);
    }
    return false, None;
  }
}
