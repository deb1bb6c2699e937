/** Sequences of invocations of the two writing operations, and what every such
    history preserves. The reading operations never write (their contracts say so),
    so they cannot affect any of these properties. */
module Histories {
  import opened Outcomes
  import opened Houses
  import opened WorldState
  import opened AssetContract

  datatype Tx =
    | Create(id: string, address: string, size: Int64)
    | Transfer(id: string, newOwner: string)

  /** One submitted transaction, with who submitted it and which storage calls fail. */
  datatype Invocation = Invocation(caller: Identity, faults: Faults, tx: Tx)

  function Apply(ledger: Ledger, inv: Invocation): Step<()>
  {
    match inv.tx
    case Create(id, address, size) => CreateHouse(ledger, inv.faults, inv.caller, id, address, size)
    case Transfer(id, newOwner) => TransferHouse(ledger, inv.faults, inv.caller, id, newOwner)
  }

  /** The world state after the invocations, in order; failed ones leave it unchanged. */
  function Run(ledger: Ledger, invs: seq<Invocation>): Ledger
    decreases |invs|
  {
    if invs == [] then ledger else Run(Apply(ledger, invs[0]).ledger, invs[1..])
  }

  /** `after` may follow `before` under `key`: a House keeps its id, address and size,
      and bytes that do not decode stay untouched. */
  predicate Compatible(before: Stored, after: Stored)
  {
    match before
    case Foreign(_) => after == before
    case Good(h) =>
      && after.Good?
      && after.house.nagarPalikaId == h.nagarPalikaId
      && after.house.address == h.address
      && after.house.size == h.size
  }

  /** Nothing stored in `pre` is removed, and everything stored stays compatible. */
  predicate Evolves(pre: Ledger, post: Ledger)
  {
    forall k :: k in pre ==> k in post && Compatible(pre[k], post[k])
  }

  /** Every House is stored under its own NagarPalikaID. */
  predicate WellKeyed(ledger: Ledger)
  {
    forall k :: k in ledger && ledger[k].Good? ==> ledger[k].house.nagarPalikaId == k
  }

  /** Every stored value decodes to a House. */
  predicate AllDecodable(ledger: Ledger)
  {
    forall k :: k in ledger ==> ledger[k].Good?
  }

  lemma ApplyEvolves(ledger: Ledger, inv: Invocation)
    ensures Evolves(ledger, Apply(ledger, inv).ledger)
  {
  }

  lemma EvolvesTransitive(a: Ledger, b: Ledger, c: Ledger)
    requires Evolves(a, b) && Evolves(b, c)
    ensures Evolves(a, c)
  {
  }

  /** Over any history, no key is ever removed, a House's NagarPalikaID, Address and
      Size never change, and undecodable values are never overwritten. */
  lemma {:induction false} RunEvolves(ledger: Ledger, invs: seq<Invocation>)
    ensures Evolves(ledger, Run(ledger, invs))
    decreases |invs|
  {
    if invs != [] {
      var next := Apply(ledger, invs[0]).ledger;
      ApplyEvolves(ledger, invs[0]);
      RunEvolves(next, invs[1..]);
      EvolvesTransitive(ledger, next, Run(next, invs[1..]));
    }
  }

  /** One invocation changes a stored House only when it is a transfer of that House
      by its current Owner, and only to the Owner the transfer names; it adds a key
      only when it is a creation of that key, owned by the caller. */
  lemma ApplyAuthorized(ledger: Ledger, inv: Invocation, k: string)
    ensures var post := Apply(ledger, inv).ledger;
      k in ledger && k in post && post[k] != ledger[k] ==>
        && inv.tx == Transfer(k, post[k].house.owner)
        && ledger[k].Good?
        && inv.caller == Resolved(ledger[k].house.owner)
    ensures var post := Apply(ledger, inv).ledger;
      k !in ledger && k in post ==>
        && inv.tx.Create? && inv.tx.id == k && inv.caller.Resolved?
        && post[k] == Encode(House(k, inv.caller.mspId, inv.tx.address, inv.tx.size))
  {
  }

  lemma ApplyPreservesWellKeyed(ledger: Ledger, inv: Invocation)
    requires WellKeyed(ledger)
    ensures WellKeyed(Apply(ledger, inv).ledger)
  {
  }

  lemma ApplyPreservesAllDecodable(ledger: Ledger, inv: Invocation)
    requires AllDecodable(ledger)
    ensures AllDecodable(Apply(ledger, inv).ledger)
  {
  }

  /** From any world state whose values all decode to Houses kept under their own
      NagarPalikaID, every history keeps it so. */
  lemma {:induction false} RunKeepsHousesWellFormed(ledger: Ledger, invs: seq<Invocation>)
    requires WellKeyed(ledger) && AllDecodable(ledger)
    ensures WellKeyed(Run(ledger, invs)) && AllDecodable(Run(ledger, invs))
    decreases |invs|
  {
    if invs != [] {
      ApplyPreservesWellKeyed(ledger, invs[0]);
      ApplyPreservesAllDecodable(ledger, invs[0]);
      RunKeepsHousesWellFormed(Apply(ledger, invs[0]).ledger, invs[1..]);
    }
  }

  /** On any world state the contract builds from nothing, whose keys the range scan
      can all return, a fault-free scan returns every stored House, each exactly as
      ReadHouse returns it, in ascending id order. */
  lemma GetAllHousesOnBuiltState(invs: seq<Invocation>, keys: seq<string>)
    requires forall k :: k in Run(map[], invs) ==> SimpleKey(k)
    requires ScanOrder(Run(map[], invs), keys)
    ensures var ledger := Run(map[], invs);
      var all := GetAllHouses(ledger, NoFaults, keys).result;
      && all.Ok?
      && |all.value| == |ledger|
      && forall i :: 0 <= i < |keys| ==>
           && all.value[i].nagarPalikaId == keys[i]
           && ReadHouse(ledger, NoFaults, keys[i]).result == Ok(all.value[i])
  {
    RunKeepsHousesWellFormed(map[], invs);
    ScanOrderLength(Run(map[], invs), keys);
  }
}
