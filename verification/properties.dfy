/** How the operations of the House contract relate to one another. */
module ContractProperties {
  import opened Outcomes
  import opened Houses
  import opened WorldState
  import opened AssetContract

  /** A created House reads back with the caller as Owner and the given details, and
      the id goes from absent to present. */
  lemma CreateThenRead(ledger: Ledger, faults: Faults, caller: Identity,
                       id: string, address: string, size: Int64, later: Faults)
    requires CreateHouse(ledger, faults, caller, id, address, size).result.Ok?
    requires id !in later.get
    ensures HouseExists(ledger, faults, id).result == Ok(false)
    ensures var post := CreateHouse(ledger, faults, caller, id, address, size).ledger;
      && HouseExists(post, later, id).result == Ok(true)
      && ReadHouse(post, later, id).result == Ok(House(id, caller.mspId, address, size))
  {
  }

  /** Creating under an id already in use fails whoever asks, in any later invocation
      that can read the id, and the first House keeps its values. */
  lemma CreateTwiceFails(ledger: Ledger, faults: Faults, caller: Identity, id: string,
                         address: string, size: Int64,
                         later: Faults, caller2: Identity, address2: string, size2: Int64)
    requires CreateHouse(ledger, faults, caller, id, address, size).result.Ok?
    requires id !in later.get
    ensures var post := CreateHouse(ledger, faults, caller, id, address, size).ledger;
      && CreateHouse(post, later, caller2, id, address2, size2) == Step(Err(AlreadyExists(id)), post)
      && ReadHouse(post, later, id).result == Ok(House(id, caller.mspId, address, size))
  {
  }

  /** After a transfer the House reads back with the new Owner and its other fields
      as before, and a previous Owner other than the new one is refused from then on,
      in any later invocation that can read the id. */
  lemma TransferThenRead(ledger: Ledger, faults: Faults, caller: Identity, id: string,
                         newOwner: string, later: Faults, anyone: string)
    requires TransferHouse(ledger, faults, caller, id, newOwner).result.Ok?
    requires id !in later.get
    ensures var before := ReadHouse(ledger, faults, id).result;
      var post := TransferHouse(ledger, faults, caller, id, newOwner).ledger;
      && before.Ok?
      && ReadHouse(post, later, id).result == Ok(before.value.(owner := newOwner))
      && (caller.mspId != newOwner ==>
            TransferHouse(post, later, caller, id, anyone) == Step(Err(NotOwner), post))
  {
  }

  /** A transfer is undone by the new Owner transferring back: up to decoding, the
      world state is exactly what it was. */
  lemma TransferBackRestores(ledger: Ledger, faults: Faults, a: string, b: string, id: string)
    requires TransferHouse(ledger, faults, Resolved(a), id, b).result.Ok?
    ensures var mid := TransferHouse(ledger, faults, Resolved(a), id, b).ledger;
      TransferHouse(mid, faults, Resolved(b), id, a) == Step(Ok(()), ledger)
  {
  }

  /** ReadHouse reports "does not exist" exactly when HouseExists reports false, and
      both report the same storage failure. */
  lemma ReadAgreesWithExists(ledger: Ledger, faults: Faults, id: string)
    ensures HouseExists(ledger, faults, id).result == Ok(false) <==>
            ReadHouse(ledger, faults, id).result == Err(DoesNotExist(id))
    ensures HouseExists(ledger, faults, id).result.Err? <==>
            ReadHouse(ledger, faults, id).result == Err(ReadFailed(id))
    ensures ReadHouse(ledger, faults, id).result.Ok? ==>
            HouseExists(ledger, faults, id).result == Ok(true)
  {
  }

  /** Without the caller's identity, neither mutating operation writes, and the
      identity error is what the caller sees once the record checks have passed. */
  lemma NoIdentityNoWrite(ledger: Ledger, faults: Faults, reason: string, id: string,
                          address: string, size: Int64, newOwner: string)
    ensures CreateHouse(ledger, faults, Unresolved(reason), id, address, size).ledger == ledger
    ensures TransferHouse(ledger, faults, Unresolved(reason), id, newOwner).ledger == ledger
    ensures HouseExists(ledger, faults, id).result == Ok(false) ==>
      CreateHouse(ledger, faults, Unresolved(reason), id, address, size).result == Err(IdentityFailure(reason))
    ensures ReadHouse(ledger, faults, id).result.Ok? ==>
      TransferHouse(ledger, faults, Unresolved(reason), id, newOwner).result == Err(IdentityFailure(reason))
  {
  }

  /** The result of scanning all Houses depends on the world state alone, not on
      which listing of its keys is used. */
  lemma GetAllHousesDeterministic(ledger: Ledger, faults: Faults, xs: seq<string>, ys: seq<string>)
    requires ScanOrder(ledger, xs) && ScanOrder(ledger, ys)
    ensures GetAllHouses(ledger, faults, xs) == GetAllHouses(ledger, faults, ys)
  {
    ScanOrderUnique(ledger, xs, ys);
  }

  /** An example session: OrgA creates H1 at "221B Baker St" with size 120, OrgB's
      attempt to take it is refused, and OrgA then hands it to OrgB. */
  lemma Walkthrough()
    ensures var s0: Ledger := map[];
      var c := CreateHouse(s0, NoFaults, Resolved("OrgA"), "H1", "221B Baker St", 120);
      var byB := TransferHouse(c.ledger, NoFaults, Resolved("OrgB"), "H1", "OrgB");
      var byA := TransferHouse(byB.ledger, NoFaults, Resolved("OrgA"), "H1", "OrgB");
      && HouseExists(s0, NoFaults, "H1").result == Ok(false)
      && c.result.Ok?
      && HouseExists(c.ledger, NoFaults, "H1").result == Ok(true)
      && ReadHouse(c.ledger, NoFaults, "H1").result == Ok(House("H1", "OrgA", "221B Baker St", 120))
      && byB == Step(Err(NotOwner), c.ledger)
      && byA.result.Ok?
      && ReadHouse(byA.ledger, NoFaults, "H1").result == Ok(House("H1", "OrgB", "221B Baker St", 120))
  {
  }
}
