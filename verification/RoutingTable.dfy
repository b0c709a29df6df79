/**
 The address association table of the proxy: a pair of edge client address and application name is mapped
 to the end-point of an edge router. The empty address is the wildcard.
 */
module RoutingTable {
  import opened Wrappers

  const WILDCARD := ""

  datatype AddressAppKey = AddressAppKey(address: string, appName: string)

  type Table = map<AddressAppKey, string>

  /** No entry has an empty application name or an empty end-point. */
  ghost predicate WellFormed(table: Table) {
    forall key <- table :: key.appName != "" && table[key] != ""
  }

  /** The entry that serves a client: its own one, else the wildcard one, else none. */
  function Find(table: Table, address: string, appName: string): (key: Option<AddressAppKey>)
    ensures key.Some? ==> key.value in table
  {
    var specific := AddressAppKey(address, appName);
    var wildcard := AddressAppKey(WILDCARD, appName);
    if specific in table then Some(specific)
    else if wildcard in table then Some(wildcard)
    else None
  }

  /** The end-point assigned to a client, empty when the table has none. */
  function Route(table: Table, address: string, appName: string): string {
    match Find(table, address, appName)
    case Some(key) => table[key]
    case None => ""
  }

  /** An entry applies to a client when it names the client or names nobody. */
  predicate Matches(key: AddressAppKey, address: string, appName: string) {
    key.appName == appName && (key.address == address || key.address == WILDCARD)
  }

  /**
   Most-specific matching: `Find` fails only if no entry applies, and yields the wildcard only if nothing else
   applies.
   */
  lemma FindIsMostSpecific(table: Table, address: string, appName: string)
    ensures Find(table, address, appName).None? <==> forall key <- table :: !Matches(key, address, appName)
    ensures forall key ::
      Find(table, address, appName) == Some(key) <==>
      key in table && Matches(key, address, appName) &&
      forall other <- table :: Matches(other, address, appName) ==> other == key || other.address == WILDCARD
  {
  }

  lemma RouteEmptyIffUnrouted(table: Table, address: string, appName: string)
    requires WellFormed(table)
    ensures Route(table, address, appName) == "" <==> Find(table, address, appName).None?
  {
  }

  /** Whether a client would be served through `key`, were `key` in the table. */
  predicate ResolvesThrough(table: Table, key: AddressAppKey, address: string, appName: string) {
    key.appName == appName &&
    (key.address == address || (key.address == WILDCARD && AddressAppKey(address, appName) !in table))
  }

  /** Adding or changing one entry affects exactly the clients that resolve through it. */
  lemma RouteAfterInsert(table: Table, key: AddressAppKey, router: string, address: string, appName: string)
    ensures Route(table[key := router], address, appName) ==
      if ResolvesThrough(table, key, address, appName) then router else Route(table, address, appName)
  {
  }

  /** Removing one entry affects no client that does not resolve through it. */
  lemma RouteAfterRemove(table: Table, key: AddressAppKey, address: string, appName: string)
    requires !ResolvesThrough(table, key, address, appName)
    ensures Route(table - {key}, address, appName) == Route(table, address, appName)
  {
  }
}
