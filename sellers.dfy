/**
 * `SellerService`: the seller table, a DynamoDB table keyed by the seller's
 * `id`.  `putItem` stores a record under its own key, replacing any record
 * already there; fresh ids (`UUID.randomUUID()`) are parameters.
 */
module Sellers {
  import opened Wrappers

  datatype Seller = Seller(
    id: string,
    name: string,
    email: string,
    phone: string,
    address: string,
    businessType: string,
    taxId: string,
    active: bool)

  type Table = map<string, Seller>

  /** Every record is stored under its own id. */
  predicate KeyedById(t: Table) {
    forall k :: k in t ==> t[k].id == k
  }

  /** `sellerTable.putItem(s)`. */
  function Put(t: Table, s: Seller): Table {
    t[s.id := s]
  }

  /** The table after `deactivateSeller(id)`. */
  function Deactivate(t: Table, id: string): (r: Table)
    ensures KeyedById(t) ==> KeyedById(r) && r.Keys == t.Keys
  {
    if id in t then Put(t, t[id].(active := false)) else t
  }

  /** The two sample sellers `init` stores. */
  function TechStore(id: string): Seller {
    Seller(id, "Tech Store", "tech@store.com", "+1234567890", "123 Tech Street, Silicon Valley", "Retail", "TAX123456", true)
  }

  function GamingGear(id: string): Seller {
    Seller(id, "Gaming Gear", "info@gaminggear.com", "+0987654321", "456 Game Avenue, Gaming City", "Online Retail", "TAX789012", true)
  }

  /** The table after `init`, seeding with ids `id1` and `id2` only an empty table. */
  function Seeded(t: Table, id1: string, id2: string): Table {
    if t == map[] then Put(Put(t, TechStore(id1)), GamingGear(id2)) else t
  }

  /** Storing a record keeps every record under its own id. */
  lemma PutKeepsKeys(t: Table, s: Seller)
    requires KeyedById(t)
    ensures KeyedById(Put(t, s))
    ensures s.id in Put(t, s) && Put(t, s)[s.id] == s
    ensures forall k :: k in t && k != s.id ==> k in Put(t, s) && Put(t, s)[k] == t[k]
  {
  }

  /**
   * Deactivating a present seller clears its `active` flag and changes
   * nothing else, in that record or any other; an absent seller leaves the
   * table as it was.  Deactivating twice is deactivating once.
   */
  lemma DeactivateEffect(t: Table, id: string)
    requires KeyedById(t)
    ensures var t' := Deactivate(t, id);
            && t'.Keys == t.Keys
            && (id in t ==> t'[id] == t[id].(active := false) && !t'[id].active)
            && (forall k :: k in t && k != id ==> t'[k] == t[k])
            && (id !in t ==> t' == t)
            && Deactivate(t', id) == t'
  {
  }

  /**
   * Seeding an empty table stores exactly the two sample sellers, both
   * active, when the two fresh ids differ; a table with any seller in it is
   * left unchanged.
   */
  lemma SeedingOnlyWhenEmpty(t: Table, id1: string, id2: string)
    ensures t != map[] ==> Seeded(t, id1, id2) == t
    ensures t == map[] && id1 != id2 ==>
              && Seeded(t, id1, id2) == map[id1 := TechStore(id1), id2 := GamingGear(id2)]
              && |Seeded(t, id1, id2)| == 2
              && forall k :: k in Seeded(t, id1, id2) ==> Seeded(t, id1, id2)[k].active
    ensures KeyedById(Seeded(t, id1, id2)) <==> KeyedById(t)
  {
    if t == map[] && id1 != id2 {
      var s := Seeded(t, id1, id2);
      assert s.Keys == {id1, id2};
      assert |{id1, id2}| == 2;
    }
  }

  class SellerService {
    var table: Table

    ghost predicate Valid()
      reads this
    {
      KeyedById(table)
    }

    /** The service over a table that does not hold any seller yet. */
    constructor ()
      ensures table == map[] && Valid()
    {
      table := map[];
    }

    /** `getAllSellers`: every stored seller (the scan order is not modelled). */
    function GetAllSellers(): (r: set<Seller>)
      reads this
      ensures forall s :: s in r <==> exists k :: k in table && table[k] == s
    {
      table.Values
    }

    /** `getSeller(id)`: the stored seller, or null. */
    function GetSeller(id: string): (r: Option<Seller>)
      reads this
      ensures r.Some? <==> id in table
      ensures r.Some? ==> r.value == table[id]
      ensures Valid() && r.Some? ==> r.value.id == id
    {
      if id in table then Some(table[id]) else None
    }

    /** `addSeller(seller)`: a fresh id, `active` forced on, stored and returned. */
    method AddSeller(seller: Seller, freshId: string) returns (r: Seller)
      requires Valid()
      modifies this
      ensures Valid()
      ensures r == seller.(id := freshId, active := true)
      ensures table == Put(old(table), r)
    {
      r := seller.(id := freshId, active := true);
      table := Put(table, r);
    }

    /** `updateSeller(id, seller)`: stored wholesale under `id`, present before or not. */
    method UpdateSeller(id: string, seller: Seller) returns (r: Seller)
      requires Valid()
      modifies this
      ensures Valid()
      ensures r == seller.(id := id)
      ensures table == Put(old(table), r)
    {
      r := seller.(id := id);
      table := Put(table, r);
    }

    /** `deleteSeller(id)`: only `id` goes. */
    method DeleteSeller(id: string)
      requires Valid()
      modifies this
      ensures Valid()
      ensures table == old(table) - {id}
    {
      table := table - {id};
    }

    /** `deactivateSeller(id)`: the deactivated record, or null when there is none. */
    method DeactivateSeller(id: string) returns (r: Option<Seller>)
      requires Valid()
      modifies this
      ensures Valid()
      ensures table == Deactivate(old(table), id)
      ensures r.Some? <==> id in old(table)
      ensures r.Some? ==> r.value == table[id]
    {
      r := GetSeller(id);
      if r.Some? {
        r := Some(r.value.(active := false));
        table := Put(table, r.value);
      }
    }

    /** `createSeller(...)`: a record with a fresh id and exactly the given fields. */
    method CreateSeller(name: string, email: string, phone: string, address: string,
                        businessType: string, taxId: string, active: bool, freshId: string)
      requires Valid()
      modifies this
      ensures Valid()
      ensures table == Put(old(table), Seller(freshId, name, email, phone, address, businessType, taxId, active))
    {
      var seller := Seller(freshId, name, email, phone, address, businessType, taxId, active);
      table := Put(table, seller);
    }

    /** `init`: seed the two sample sellers if the table is empty. */
    method Init(id1: string, id2: string)
      requires Valid()
      modifies this
      ensures Valid()
      ensures table == Seeded(old(table), id1, id2)
    {
      if GetAllSellers() == {} {
        assert table == map[];
        table := Put(table, TechStore(id1));
        table := Put(table, GamingGear(id2));
      } else {
        assert table != map[];
      }
    }
  }
}
