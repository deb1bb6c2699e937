/** The House asset registry: five operations over the world state. Each takes the
    world state, the storage faults of the invocation, the caller's identity where it
    is needed, and the operation's arguments, and yields a result and the world state
    after the invocation. */
module AssetContract {
  import opened Outcomes
  import opened Houses
  import opened WorldState

  /** Whether anything is stored under `id`. Never writes; absence is `false`, not an error. */
  function HouseExists(ledger: Ledger, faults: Faults, id: string): (s: Step<bool>)
    ensures s.ledger == ledger
    ensures s.result.Err? <==> id in faults.get
    ensures s.result.Err? ==> s.result.error == ReadFailed(id)
    ensures s.result.Ok? ==> (s.result.value <==> id in ledger)
  {
    match GetState(ledger, faults, id)
    case LookupFailed => Step(Err(ReadFailed(id)), ledger)
    case Absent => Step(Ok(false), ledger)
    case Present(_) => Step(Ok(true), ledger)
  }

  /** The House stored under `id`. Never writes; fails when nothing is stored there
      or the stored bytes do not decode. */
  function ReadHouse(ledger: Ledger, faults: Faults, id: string): (s: Step<House>)
    ensures s.ledger == ledger
    ensures s.result.Ok? <==> id !in faults.get && id in ledger && ledger[id].Good?
    ensures s.result.Ok? ==> ledger[id] == Encode(s.result.value)
    ensures id in faults.get ==> s.result == Err(ReadFailed(id))
    ensures id !in faults.get && id !in ledger ==> s.result == Err(DoesNotExist(id))
    ensures id !in faults.get && id in ledger && ledger[id].Foreign? ==> s.result == Err(Undecodable)
  {
    match GetState(ledger, faults, id)
    case LookupFailed => Step(Err(ReadFailed(id)), ledger)
    case Absent => Step(Err(DoesNotExist(id)), ledger)
    case Present(v) => Step(Decode(v), ledger)
  }

  /** Stores a new House under a free `id`, owned by the caller. */
  function CreateHouse(ledger: Ledger, faults: Faults, caller: Identity,
                       id: string, address: string, size: Int64): (s: Step<()>)
    // the only successful path: a readable free key, a resolved caller, a writable key
    ensures s.result.Ok? <==>
      id !in faults.get && id !in ledger && caller.Resolved? && id !in faults.put
    // it adds exactly one entry, under `id`, and touches nothing else
    ensures s.result.Ok? ==>
      && s.ledger.Keys == ledger.Keys + {id}
      && s.ledger[id] == Encode(House(id, caller.mspId, address, size))
      && forall k :: k in ledger ==> s.ledger[k] == ledger[k]
    // every failure leaves the world state as it was, and says why
    ensures s.result.Err? ==> s.ledger == ledger
    ensures id in faults.get ==> s.result == Err(ReadFailed(id))
    ensures id !in faults.get && id in ledger ==> s.result == Err(AlreadyExists(id))
    ensures id !in faults.get && id !in ledger && caller.Unresolved? ==>
      s.result == Err(IdentityFailure(caller.reason))
    ensures id !in faults.get && id !in ledger && caller.Resolved? && id in faults.put ==>
      s.result == Err(WriteFailed(id))
  {
    var found := HouseExists(ledger, faults, id).result;
    if found.Err? then Step(Err(found.error), ledger)
    else if found.value then Step(Err(AlreadyExists(id)), ledger)
    else match caller
      case Unresolved(reason) => Step(Err(IdentityFailure(reason)), ledger)
      case Resolved(owner) => PutState(ledger, faults, id, Encode(House(id, owner, address, size)))
  }

  /** Hands the House under `id` to `newOwner`; only its current Owner may do so. */
  function TransferHouse(ledger: Ledger, faults: Faults, caller: Identity,
                         id: string, newOwner: string): (s: Step<()>)
    // the only successful path: a decodable House, read and rewritten, by its Owner
    ensures s.result.Ok? <==>
      && id !in faults.get && id in ledger && ledger[id].Good?
      && caller.Resolved? && ledger[id].house.owner == caller.mspId
      && id !in faults.put
    // it rewrites the Owner of the House under `id` and nothing else
    ensures s.result.Ok? ==>
      && s.ledger.Keys == ledger.Keys
      && s.ledger[id] == Encode(ledger[id].house.(owner := newOwner))
      && forall k :: k in ledger && k != id ==> s.ledger[k] == ledger[k]
    // every failure leaves the world state as it was
    ensures s.result.Err? ==> s.ledger == ledger
    // a failed read is reported exactly as ReadHouse reports it
    ensures ReadHouse(ledger, faults, id).result.Err? ==>
      s.result == Err(ReadHouse(ledger, faults, id).result.error)
    ensures ReadHouse(ledger, faults, id).result.Ok? && caller.Unresolved? ==>
      s.result == Err(IdentityFailure(caller.reason))
    ensures ReadHouse(ledger, faults, id).result.Ok? && caller.Resolved? &&
            ReadHouse(ledger, faults, id).result.value.owner != caller.mspId ==>
      s.result == Err(NotOwner)
    ensures ReadHouse(ledger, faults, id).result.Ok? && caller.Resolved? &&
            ReadHouse(ledger, faults, id).result.value.owner == caller.mspId && id in faults.put ==>
      s.result == Err(WriteFailed(id))
  {
    var read := ReadHouse(ledger, faults, id).result;
    if read.Err? then Step(Err(read.error), ledger)
    else match caller
      case Unresolved(reason) => Step(Err(IdentityFailure(reason)), ledger)
      case Resolved(mspId) =>
        if read.value.owner != mspId then Step(Err(NotOwner), ledger)
        else PutState(ledger, faults, id, Encode(read.value.(owner := newOwner)))
  }

  /** Whether the scan can read and decode the value under `k`. */
  predicate Readable(ledger: Ledger, faults: Faults, k: string)
    requires k in ledger
  {
    k !in faults.get && ledger[k].Good?
  }

  /** The error the scan stops with at a key it cannot read or decode. */
  function ScanError(ledger: Ledger, faults: Faults, k: string): Error
    requires k in ledger
  {
    if k in faults.get then IteratorFailed(k) else Undecodable
  }

  predicate AllStored(ledger: Ledger, keys: seq<string>)
  {
    forall i :: 0 <= i < |keys| ==> keys[i] in ledger
  }

  /** `keys[i]` is the first key of the scan that cannot be read or decoded. */
  predicate FirstUnreadable(ledger: Ledger, faults: Faults, keys: seq<string>, i: int)
    requires AllStored(ledger, keys)
  {
    && 0 <= i < |keys|
    && !Readable(ledger, faults, keys[i])
    && forall j :: 0 <= j < i ==> Readable(ledger, faults, keys[j])
  }

  /** Decodes the scanned values in order, stopping at the first one that fails. */
  function Collect(ledger: Ledger, faults: Faults, keys: seq<string>): (r: Result<seq<House>>)
    requires AllStored(ledger, keys)
    ensures r.Ok? <==> forall i :: 0 <= i < |keys| ==> Readable(ledger, faults, keys[i])
    ensures r.Ok? ==>
      && |r.value| == |keys|
      && forall i :: 0 <= i < |keys| ==> ledger[keys[i]] == Encode(r.value[i])
    ensures r.Err? ==>
      exists i :: FirstUnreadable(ledger, faults, keys, i) && r.error == ScanError(ledger, faults, keys[i])
    decreases |keys|
  {
    if keys == [] then Ok([])
    else
      var k := keys[0];
      if k in faults.get then Err(IteratorFailed(k))
      else match Decode(ledger[k])
        case Err(e) => Err(e)
        case Ok(h) =>
          var rest := Collect(ledger, faults, keys[1..]);
          if rest.Err? then
            // the first bad key of the tail is the first bad key of the whole scan
            assert exists i :: FirstUnreadable(ledger, faults, keys, i) && rest.error == ScanError(ledger, faults, keys[i]) by {
              var i :| FirstUnreadable(ledger, faults, keys[1..], i) && rest.error == ScanError(ledger, faults, keys[1..][i]);
              assert FirstUnreadable(ledger, faults, keys, i + 1);
            }
            Err(rest.error)
          else Ok([h] + rest.value)
  }

  /** Every House in the world state, in scan order. Never writes; one value that
      cannot be read or decoded fails the whole call, and no partial list is returned. */
  function GetAllHouses(ledger: Ledger, faults: Faults, keys: seq<string>): (s: Step<seq<House>>)
    requires ScanOrder(ledger, keys)
    ensures s.ledger == ledger
    ensures s.result.Ok? <==>
      !faults.scan && forall k :: k in ledger ==> Readable(ledger, faults, k)
    ensures s.result.Ok? ==>
      && |s.result.value| == |keys|
      && forall i :: 0 <= i < |keys| ==> ledger[keys[i]] == Encode(s.result.value[i])
    ensures faults.scan ==> s.result == Err(ScanFailed)
    ensures !faults.scan && s.result.Err? ==>
      exists i :: FirstUnreadable(ledger, faults, keys, i) && s.result.error == ScanError(ledger, faults, keys[i])
  {
    if faults.scan then Step(Err(ScanFailed), ledger)
    else Step(Collect(ledger, faults, keys), ledger)
  }

  /** The scan as the contract performs it: iterate, decode each value, append, and
      return early on the first failure. It agrees with `GetAllHouses`. */
  method GetAllHousesByIterator(ledger: Ledger, faults: Faults, keys: seq<string>)
    returns (r: Result<seq<House>>)
    requires ScanOrder(ledger, keys)
    ensures r == GetAllHouses(ledger, faults, keys).result
  {
    if faults.scan {
      return Err(ScanFailed);
    }
    var houses: seq<House> := [];
    var i := 0;
    while i < |keys|
      invariant 0 <= i <= |keys|
      invariant |houses| == i
      invariant forall j :: 0 <= j < i ==>
        Readable(ledger, faults, keys[j]) && ledger[keys[j]] == Encode(houses[j])
    {
      var k := keys[i];
      if k in faults.get {
        r := Err(IteratorFailed(k));
        SameFirstUnreadable(ledger, faults, keys, i);
        return;
      }
      var decoded := Decode(ledger[k]);
      if decoded.Err? {
        r := Err(decoded.error);
        SameFirstUnreadable(ledger, faults, keys, i);
        return;
      }
      houses := houses + [decoded.value];
      i := i + 1;
    }
    r := Ok(houses);
    var expected := GetAllHouses(ledger, faults, keys).result;
    assert expected.Ok?;
    assert expected.value == houses;
  }

  /** A failing scan has exactly one first unreadable key, and that key decides its error. */
  lemma SameFirstUnreadable(ledger: Ledger, faults: Faults, keys: seq<string>, i: int)
    requires AllStored(ledger, keys)
    requires FirstUnreadable(ledger, faults, keys, i)
    ensures forall j :: FirstUnreadable(ledger, faults, keys, j) ==> j == i
    ensures Collect(ledger, faults, keys) == Err(ScanError(ledger, faults, keys[i]))
  {
  }
}
