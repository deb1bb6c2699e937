# House asset registry — a Dafny model

This project models the House registry chaincode (`atcc.go`), a Hyperledger Fabric smart
contract. The contract keeps House records in the ledger's world state, keyed by their
NagarPalikaID. It offers five operations: `CreateHouse`, `ReadHouse`, `HouseExists`,
`TransferHouse` and `GetAllHouses`. Only a House's current Owner may transfer it.

The model is functional. The world state is an immutable `map<string, Stored>`. Each
operation is a pure function. It takes the world state, the storage faults of the
invocation, the caller's identity where needed, and the operation's arguments. It returns a
`Step`: the `Result` (a value or an `Error`) together with the world state afterwards.

- `outcomes.dfy` (`Outcomes`): the error kinds the contract returns, `Result`, and the
  caller `Identity`. The identity is either a resolved MSP id or an unresolved reason.
- `house.dfy` (`Houses`): the `House` record, whose `Size` is Go's 64-bit `int`, and the
  stored form `Stored = Good(House) | Foreign(bytes)`.
- `world_state.dfy` (`WorldState`): point reads and writes, the storage `Faults` input, and
  key order. `ScanOrder` says what the open-ended range scan visits: every stored key, once,
  in ascending code-point order. That order is the byte order of the keys' UTF-8 encodings.
- `contract.dfy` (`AssetContract`): the five operations. It also has the scan loop as a
  method that mirrors the source's iterator loop.
- `properties.dfy` (`ContractProperties`): lemmas that relate the operations to each other.
- `history.dfy` (`Histories`): arbitrary sequences of create and transfer invocations, and
  the invariants every such history keeps.

Inputs that stand in for the platform:

- Storage failures are the `Faults` argument. GetState fails for the keys in `get`, and the
  scan's iterator fails at those same keys. PutState fails for the keys in `put`.
  GetStateByRange fails when `scan` is set.
- Client identity resolution is the `Identity` argument.
- The range scan's key listing is the `keys` argument, which must satisfy `ScanOrder`.
  `WorldState.ScanOrderUnique` shows that the world state alone fixes this listing.

Behaviour of the source kept as written:

- `CreateHouse` checks for an existing record before it resolves the caller's identity. A
  taken id therefore reports "already exists" even when the identity cannot be resolved.
- `TransferHouse` reads the House before it resolves the caller's identity. A missing or
  undecodable record is reported before any identity or ownership error.
- No argument is validated: `size` may be zero or negative, and `address` and `newOwner`
  may be empty.
- A GetState failure is reported wrapped as `ReadFailed(key)`. PutState, scan and iterator
  errors are passed on as they are.

## Model

| member | source | states |
|---|---|---|
| `Houses.Encode` | atcc.go:20-25 | Decoding the stored form of a House gives back the same four fields |
| `Houses.EncodingCanonical` | atcc.go:67-71 | Up to decoding, a stored value decodes to a House exactly when it is that House's encoding |
| `WorldState.ScanOrderUnique` | atcc.go:116-118 | Two listings that each visit every stored key once, in ascending order, are identical |
| `WorldState.ScanOrderLength` | atcc.go:116-118 | An open-ended scan visits exactly as many keys as the world state holds |
| `AssetContract.HouseExists` | atcc.go:78-85 | Never writes. Fails only when GetState fails, with the wrapped read error. Otherwise true exactly when a value is stored under the id, and absence is `false`, not an error |
| `AssetContract.ReadHouse` | atcc.go:58-74 | Never writes. Succeeds exactly when the id is readable, present and decodable, returning the House stored there. Otherwise fails with the read error, "does not exist", or the decode error, in that order |
| `AssetContract.CreateHouse` | atcc.go:29-54 | Succeeds exactly when the id is readable, unused and writable and the caller is resolved. Success adds exactly one entry, under the id, with NagarPalikaID = id, Owner = the caller's MSP id and the given Address and Size. No other key changes. Each failure leaves the state unchanged and names its cause: read error, "already exists", identity error, write error |
| `AssetContract.TransferHouse` | atcc.go:90-112 | Succeeds exactly when the House reads and decodes, the caller is resolved and is its Owner, and the key is writable. Success rewrites only that key, sets Owner := newOwner and keeps NagarPalikaID, Address and Size. Read failures are passed on exactly as `ReadHouse` reports them, then identity, not-owner and write failures, and no failure writes |
| `AssetContract.Collect` | atcc.go:124-139 | Succeeds exactly when every scanned value is readable and decodable. It then returns one House per key, in key order. Otherwise it fails with the error of the first key that cannot be read or decoded |
| `AssetContract.GetAllHouses` | atcc.go:115-140 | Never writes. Succeeds exactly when the scan opens and every stored value is readable and decodable. It then returns one House per stored key, in scan order, with no key filtered out. A failed scan open, or any bad value, fails the whole call with no partial list |
| `AssetContract.GetAllHousesByIterator` | atcc.go:118-139 | The source's loop, with its early returns, computes exactly what `GetAllHouses` specifies |
| `AssetContract.SameFirstUnreadable` | atcc.go:125-135 | A failing scan has a single first bad key, and that key alone decides the error returned |
| `ContractProperties.CreateThenRead` | atcc.go:29-74 | After a successful create, the id goes from absent to present. In any later invocation that can read the id, it reads back as (id, caller, address, size) |
| `ContractProperties.CreateTwiceFails` | atcc.go:30-36 | A second create under the same id, in any later invocation that can read the id, fails with "already exists" for any caller. It leaves the state unchanged, and the first House keeps its values |
| `ContractProperties.TransferThenRead` | atcc.go:101-111 | After a transfer, in any later invocation that can read the id, the House reads back with the new Owner and its other fields unchanged. A previous Owner other than the new one is then refused |
| `ContractProperties.TransferBackRestores` | atcc.go:101-111 | A transfer from A to B followed by B transferring back to A succeeds and restores the world state exactly, up to decoding |
| `ContractProperties.ReadAgreesWithExists` | atcc.go:58-85 | ReadHouse says "does not exist" exactly when HouseExists says false. The two report the same read failure, and a successful read means HouseExists says true |
| `ContractProperties.NoIdentityNoWrite` | atcc.go:38-41 | Without a resolved caller, neither create nor transfer writes. Once the record checks pass, the identity error is returned (the transfer counterpart is atcc.go:96-99) |
| `ContractProperties.GetAllHousesDeterministic` | atcc.go:118-139 | Any two valid scan listings of the same state give the same GetAllHouses result |
| `ContractProperties.Walkthrough` | atcc.go:29-112 | OrgA creates H1 at "221B Baker St" with size 120. OrgB's transfer is refused with no change. OrgA's transfer to OrgB succeeds, and H1 then reads back owned by OrgB with the other fields unchanged |
| `Histories.ApplyEvolves` | atcc.go:43-53 | One create or transfer removes no key, changes no House's NagarPalikaID, Address or Size, and never overwrites undecodable bytes |
| `Histories.RunEvolves` | atcc.go:105-111 | Over any history of invocations, keys are never removed and a House's NagarPalikaID, Address and Size never change |
| `Histories.ApplyAuthorized` | atcc.go:101-111 | A stored value changes only by a transfer of that key, by its current Owner, to the Owner the transfer names. A key appears only by a create of that key, owned by the caller |
| `Histories.ApplyPreservesWellKeyed` | atcc.go:43-53 | Each invocation keeps every House stored under its own NagarPalikaID |
| `Histories.ApplyPreservesAllDecodable` | atcc.go:49-53 | Each invocation keeps every stored value decodable |
| `Histories.RunKeepsHousesWellFormed` | atcc.go:43-53 | Over any history from a well-formed state, every value stays decodable and stays stored under its own NagarPalikaID |
| `Histories.GetAllHousesOnBuiltState` | atcc.go:115-139 | On any state built from nothing whose keys are all simple keys (non-empty, not starting with U+0000), a fault-free GetAllHouses succeeds. It returns as many Houses as there are stored keys. Its i-th House has the i-th key as NagarPalikaID and is what ReadHouse returns |

## Left out

- `main` and chaincode bootstrapping (atcc.go:143-154), and the `contractapi.Contract`
  embedding and dispatcher. These are host-platform plumbing.
- The JSON codec. `Good(h)` stands for any bytes that decode to `h`, and `Foreign` for bytes
  the decoder rejects. The leniency of Go's decoder is covered by this abstraction: unknown
  fields are ignored and missing fields become zero values. The codec itself is not verified.
- Byte-level stored form. Equalities between world states, as in
  `ContractProperties.TransferBackRestores`, hold up to decoding. A transfer re-marshals the
  decoded House (atcc.go:105-111). It therefore rewrites the stored bytes in canonical form:
  fields in declaration order, with unknown fields dropped.
- Strings are modelled as Unicode text, not Go's byte strings. `json.Marshal` replaces
  invalid UTF-8 with U+FFFD. The read-back claims assume arguments that are valid UTF-8:
  `Houses.Encode`, `ContractProperties.CreateThenRead`, `ContractProperties.TransferThenRead`
  and `ContractProperties.Walkthrough`.
- `json.Marshal` failures (atcc.go:49-52, 106-109). Encoding a struct of strings and an
  `int` cannot fail, so `Encode` is total and these error branches are not modelled.
- MSP identity and certificate resolution. The resolved identity is an input value.
- Platform key rules. PutState rejects an empty key, and the open-ended range scan skips the
  composite-key namespace. A key PutState rejects corresponds to a key in `Faults.put`.
  `ScanOrder` lists every stored key, so it assumes that all stored keys are simple keys.
  `Histories.GetAllHousesOnBuiltState` states this assumption as a precondition (`SimpleKey`).
  Nothing in the model stops `CreateHouse` storing an id that starts with U+0000.
- Sorting the keys for the range scan. The listing is an input constrained by `ScanOrder`.
- Iterator `Close` (atcc.go:122), consensus, ordering, concurrency and transaction atomicity.
  These belong to the platform.
- Error message text. Each distinct error is a constructor of `Outcomes.Error`.
- Go returns a nil slice when the scan is empty. The model returns the empty sequence.
