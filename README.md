# kitcoin ledger engine in Dafny

This project models the ledger engine of kitcoin's `app.rb`. Clients append blocks to a hash-chained
store. Each block carries a miner and a message; the message may encode a
transfer `sender,receiver,quantity`. The engine keeps a per-(account, block) balance cache in Redis.

The model has five modules:

- `Wrappers` holds `Option` and `Result`.
- `Formats` holds the regular-expression field checks for hashes, nonces and names, the ASCII
  lower-casing of `prev`, and the leading-zero count that serves as the proof of work.
- `TransferMsg` holds `parse_msg_as_transfer`, plus the formatting it inverts.
- `Chain` holds the store as values:
  - blocks keyed by hash, and `get_prev_hash_of`;
  - what `get_balance` returns (`Lookup`) and the snapshots it writes on the way (`Fill`);
  - what `add_balance` writes (`AddSnapshot`, and `ApplyCredits` for several calls in a row);
  - a cache-free reference balance (`Balance`). It is the sum of the per-block credits along the
    chain, and `Coherent` says the snapshots are a cache of it.
- `Ledger` holds the class `Ledger`. Its fields are the Redis keys the helpers touch: the blocks,
  the `users` set, the `balance:#{user}:#{h}` snapshots, and the `difficulty` and
  `transfer_charge` tunables, unset until assigned. Its methods are:
  - the helpers `get_balance`, `set_balance`, `add_balance` and `register_user`;
  - the checks of `post "/blocks"`, as the function `Check`;
  - the handler itself, as `Submit`.

`Submit` returns a `Result` with one error constructor per `halt`.

Each stateful method states its new state exactly, as a function of the old state:

| method | new state |
|---|---|
| `GetBalance` | `Fill` |
| `AddBalance` | `AddSnapshot` |
| `PayTransfer` | `ApplyCredits` |
| `Submit` | the stored block, then `AccountSnapshots` |

Lemmas about those functions then state what the source promises:

- A second lookup writes nothing.
- Two `add_balance` calls accumulate.
- No other account is touched.
- An accepted transfer moves exactly the amounts the handler computes, which sum to the mining reward.
- A refused transfer leaves every account reading its parent's balance at the new block.
- Measured against the reference balance, the cache stays exact. Older blocks keep their balances,
  and no account goes negative while the charge rate lies between 0 and 1.

Parent links stay acyclic because blocks are only added under an existing parent and with a fresh
hash. The model carries this as a ghost `height` map: a parent is one level above its child. The
map is the termination argument of the recursive balance lookup.

Three behaviours of the code are worth noting, and the model keeps them:

- The `msg` key is required. `block_keys - %w(datetime) - params.keys` lists it among the missing
  keys when it is absent (app.rb:167).
- The transfer checks run in this order: sender registered, receiver registered, sufficient funds,
  then receiver different from the miner (app.rb:228-243).
- A transfer refused after the block is stored gets no `add_balance` at all, not even the miner's
  reward: the `halt` at app.rb:229-242 returns before app.rb:248 or app.rb:250 runs.

## Model

| member | source | states |
|---|---|---|
| `Formats.IsHash` | app.rb:180 | the accepted form of `prev`: exactly 64 hex digits of either case; `DowncaseHash` states how it interacts with lower-casing |
| `Formats.IsNonce` | app.rb:188 | the accepted form of a nonce: at most 64 ASCII letters and digits |
| `Formats.IsName` | app.rb:192 | the accepted form of a user name, used for the miner, for registration (app.rb:139) and for transfer parties (app.rb:72): at most 64 letters, digits, `-` and `_` |
| `Formats.Downcase` | app.rb:173 | lower-casing `prev` keeps its length, leaves no upper-case ASCII letter, and changes a character only by mapping an upper-case letter to its lower-case form |
| `Formats.DowncaseHash` | app.rb:173-182 | lower-casing `prev` keeps the 64-hex-digit format test unchanged, produces a lower-case hash, and leaves a lower-case hash as it is |
| `Formats.LeadingZeros` | app.rb:212 | the given difficulty is the length of the maximal run of `'0'` at the start of the hash: all characters before it are `'0'`, and the next one, if any, is not |
| `Formats.LeadingZerosMeets` | app.rb:212-215 | the hash meets difficulty `d` exactly when it is at least `d` long and its first `d` characters are `'0'` |
| `TransferMsg.IndexOf` | app.rb:72 | the first position of the separator, or none when the string has no separator |
| `TransferMsg.Parse` | app.rb:71-73 | `parse_msg_as_transfer`: a message that parses yields a well-formed transfer; `ParseThenFormat`, `FormatThenParse` and `ParseExactly` state which messages parse |
| `TransferMsg.DecimalIsNumeral` | app.rb:72 | a positive quantity spelled in decimal matches `[1-9]\d*` and denotes the quantity |
| `TransferMsg.NumeralIsDecimal` | app.rb:72 | a numeral matching `[1-9]\d*` is the decimal spelling of its value |
| `TransferMsg.FormatThenParse` | app.rb:71-73 | a well-formed transfer written as `sender,receiver,q` parses back to itself |
| `TransferMsg.ParseThenFormat` | app.rb:71-73 | a message that parses has names of the name format and a quantity of at least 1, and it is exactly the formatted transfer |
| `TransferMsg.ParseExactly` | app.rb:71-73 | a message parses as `t` if and only if `t` is well formed and the message is `t` written with commas |
| `Chain.ParentOf` | app.rb:75-78 | `get_prev_hash_of`: a parent is returned only for a stored block whose `prev` is present and non-empty, and then it is that `prev` |
| `Chain.Lookup` | app.rb:80-90 | the value `get_balance` returns, without its writes: 0 at a root, the snapshot when there is one, otherwise the parent's value; `LookupIsBalance`, `FillSettles`, `FillTransparent` and `LookupOwn` state its properties, and `GetBalance` is proved to return it |
| `Chain.Fill` | app.rb:80-90 | the snapshots `get_balance` leaves behind; `FillExtends`, `FillSettles`, `FillStored` and `FillCoherent` state its properties, and `GetBalance` is proved to write exactly it |
| `Chain.FillExtends` | app.rb:80-90 | `get_balance` only adds snapshots: all for the queried user, each holding the value the lookup reads there, and each for the queried hash or a stored block |
| `Chain.FillTransparent` | app.rb:80-90 | the snapshots one lookup writes change no later lookup, for any account at any block |
| `Chain.FillSettles` | app.rb:80-90 | a second `get_balance` on the same pair returns the same value and writes nothing |
| `Chain.FillStored` | app.rb:80-90 | a lookup at a root or a stored block writes snapshots of stored blocks only |
| `Chain.LookupOwn` | app.rb:80-90 | a lookup for an account reads only that account's snapshots |
| `Chain.NoCreditsNoBalance` | app.rb:80-81 | before any block is accounted, every balance is 0 |
| `Chain.LookupIsBalance` | app.rb:80-90 | while the snapshots are a cache of the reference balance, the memoised lookup returns the reference balance |
| `Chain.FillCoherent` | app.rb:80-90 | a lookup at a root or a stored block keeps the snapshots a cache of the reference balance |
| `Chain.ShiftLeaf` | app.rb:245-250 | changing only the credits of a block without children changes the balances at that block by the same amounts, and no other balance |
| `Chain.CreditLeafCoherent` | app.rb:96-99 | adding `diff` to the snapshot and to the credit of a childless block keeps the cache exact |
| `Chain.AdoptRanked` | app.rb:217-221 | storing a fresh hash under an existing parent keeps the parent links acyclic and leaves the new block childless |
| `Chain.AdoptFrame` | app.rb:217-221 | storing a new block leaves every existing balance as it was, and gives the new block its parent's balances |
| `Chain.AdoptCoherent` | app.rb:217-221 | storing a new block keeps the snapshots a cache of the reference balance |
| `Chain.TransferCredits` | app.rb:245-248 | an accepted transfer gives the sender `-q`, the receiver `q - charge` and the miner `charge + reward`; the amounts sum to the reward |
| `Chain.MiningCredits` | app.rb:250 | a mining-only block gives the miner the reward and nobody else anything |
| `Chain.TransferKeepsSolvent` | app.rb:236-248 | with a charge between 0 and `q`, an accepted transfer takes no account below zero when the sender held at least `q` |
| `Chain.AddSnapshotEffect` | app.rb:96-99 | after `add_balance(u, h, diff)`, `get_balance(u, h)` returns its former value plus `diff`; every other account keeps its snapshots and reads the same balance everywhere |
| `Chain.AddSnapshotTwice` | app.rb:96-99 | two `add_balance` calls on the same pair accumulate both diffs |
| `Chain.AddSnapshotCoherent` | app.rb:96-99 | `add_balance` on a childless stored block, with the credit recorded, keeps the snapshots a cache of the reference balance |
| `Chain.CreditedMoves` | app.rb:245-250 | recording a block's `add_balance` calls moves each account's credit at that block by its share, and no other credit |
| `Chain.ApplyCreditsCoherent` | app.rb:245-250 | the `add_balance` calls of a childless stored block keep the snapshots a cache of the reference balance, with the calls recorded as credits |
| `Chain.ApplyCreditsKeeps` | app.rb:245-250 | a block's `add_balance` calls write snapshots of stored blocks only, and change no snapshot of any other block |
| `Chain.ApplyCreditsLookup` | app.rb:245-250 | a block's `add_balance` calls move `get_balance(u, h)` by `u`'s share of the calls |
| `Ledger.MissingKeysOf` | app.rb:167-171 | the missing-keys list is empty exactly when all four keys are present, and names exactly the absent keys |
| `Ledger.ChargeBounded` | app.rb:246 | with a charge rate between 0 and 1, the charge `q * rate` lies between 0 and `q` |
| `Ledger.Settlement` | app.rb:223-250 | the transfer checks in the handler's order: each refusal (sender not registered, receiver not registered, insufficient funds, receiver is the miner) is returned exactly when every earlier check passed and this one fails; otherwise the transfer's credits at charge `q * rate` are granted; a mining-only block grants the reward; granted credits always sum to the reward |
| `Ledger.AccountLookups` | app.rb:223-251 | after accounting, `get_balance` at the new block returns the parent's balance plus the account's share of the granted calls; for a refused transfer, every account, the miner included, reads the parent's balance |
| `Ledger.AccountCoherent` | app.rb:223-251 | the accounting stage keeps the snapshots a cache of the reference balance and changes no snapshot of another block |
| `Ledger.SubmitAccounting` | app.rb:217-251 | storing and accounting a block keeps the links acyclic and the cache exact; every older block keeps its balances; the new block's balance is its parent's plus the granted share; no earlier snapshot changes |
| `Ledger.GrantedSolvent` | app.rb:236-250 | with a rate between 0 and 1, the granted calls take no account below zero |
| `Ledger.SubmitSolvent` | app.rb:217-251 | with a rate between 0 and 1, if no account is negative at any block before a submission, none is after it |
| `Ledger.InitialCoherent` | app.rb:80-90 | the store the constructor builds, with seeded blocks and no snapshot, has an exact (empty) cache of the reference balance and no negative balance |
| `Ledger.ParseScenario` | app.rb:71-73 | the message `alice,bob,40` requests 40 from alice to bob |
| `Ledger.TransferScenario` | app.rb:245-248 | at the default rate, that transfer mined with reward 2 moves alice by -40, bob by 36 and the miner by 6 |
| `Ledger.Ledger.constructor` | app.rb:55-69 | the store starts from the seeded root blocks and users, with no snapshots and both tunables unset |
| `Ledger.Ledger.CurrentDifficulty` | app.rb:55-57 | the stored difficulty, or 4 when it was never set |
| `Ledger.Ledger.CurrentTransferCharge` | app.rb:63-65 | the stored transfer charge rate, or 0.1 when it was never set |
| `Ledger.Ledger.CalcHash` | app.rb:35-37 | the SHA-256 digest of the parent hash followed by the nonce; a 64-character lower-case hex string, hence never empty |
| `Ledger.Ledger.SetDifficulty` | app.rb:55-61 | after `set_difficulty(d)`, the current difficulty is `d` |
| `Ledger.Ledger.SetTransferCharge` | app.rb:63-69 | after `set_transfer_charge(c)`, the current transfer charge is `c` |
| `Ledger.Ledger.RegisterUser` | app.rb:137-145 | a malformed name is refused with `users` unchanged; otherwise the name is in `users` afterwards, and the result is true exactly when it was not there before |
| `Ledger.Ledger.GetBalance` | app.rb:80-90 | returns the memoised lookup, writes exactly the snapshots of `Fill`, and keeps the store invariant when queried at a root or a stored block |
| `Ledger.Ledger.SetBalance` | app.rb:92-94 | overwrites the one snapshot |
| `Ledger.Ledger.AddBalance` | app.rb:96-99 | writes the snapshots of `AddSnapshot`: the lookup's writes, then the pair's snapshot set to the prior balance plus `diff` |
| `Ledger.Ledger.Check` | app.rb:166-215 | the pre-persistence checks in the handler's order: each error is returned exactly when every earlier check passed and this one fails; an existing block is reported under the computed hash, and insufficient difficulty carries the current difficulty and the hash's leading-zero count; success carries the lower-cased parent, the hash `sha256(prev ++ nonce)` and the achieved difficulty as reward |
| `Ledger.Ledger.StoreBlock` | app.rb:217-221 | the block's five fields are stored under its hash, one level below its parent |
| `Ledger.Ledger.PayTransfer` | app.rb:245-248 | the three `add_balance` calls write the snapshots of applying the transfer's credits at charge `q * rate` |
| `Ledger.Ledger.Account` | app.rb:223-251 | returns the settlement's outcome and writes the accounting snapshots: the sender lookup for a transfer between registered users, then the granted calls, or none |
| `Ledger.Ledger.Persist` | app.rb:217-251 | an accepted submission's block is stored under its hash one level below its parent, the result is the settlement's outcome, the snapshots are the accounting snapshots, and `get_balance` at the new block reads the parent's balance plus the granted share |
| `Ledger.Ledger.Submit` | app.rb:166-254 | a refused check returns that error and changes no block, height or snapshot; otherwise the block is stored under its hash, the result is the settlement's outcome, and `get_balance` at the new block reads the parent's balance plus the granted share |

## Left out

- HTTP plumbing is left out: routes, status codes, CORS (app.rb:102-109), the error log and `before` hook (app.rb:15-16, app.rb:111-113) and `not_found` (app.rb:115-122). Each `halt` becomes an error constructor, and the response bodies are not modelled.
- `lib/sinatra/json_helpers.rb` is left out. It only serialises to JSON.
- The SHA-256 implementation is left out. `sha256` is an uninterpreted function given to the constructor, and it is assumed to return 64 lower-case hex digits, as `hexdigest` does.
- Redis transport is left out. So are the key enumerations `get_all_block_hashes` and `get_all_users`, `get_block`, the block listings `get "/"` and `get "/blocks"` with their date sort (app.rb:124-135, app.rb:156-164), and the balance maps built by `get "/blocks/:hash"` (app.rb:266-279) and by `get "/users/:user_name"` (app.rb:147-149). Each of those maps is a loop of `get_balance` calls, and `GetBalance` models one such call.
- Time is left out: the `DateTime.now` stamp is the `now` parameter.
- Float rounding is left out. Balances, quantities and the charge are exact reals, and snapshots are stored as numbers rather than strings read back with `to_f`.
- Concurrency is left out: the race between the existence check (app.rb:204) and the writes (app.rb:217-221). Submissions are serialised.
- Name trimming is left out: `.strip` of the user name (app.rb:138) and of a queried hash (app.rb:267). `RegisterUser` receives the trimmed name.
- `Formats.Downcase` lower-cases ASCII letters only. Ruby's `downcase` also maps other letters, but none of them to a hex digit, so the outcome of the `prev` check is the same.
- Redis stores `difficulty` and `transfer_charge` as strings converted by `to_i` and `to_f`. The model stores them as `int` and `real`.
- Nothing creates a genesis block. The store starts from a seed of blocks whose parents are all stored blocks or empty.
- `Ledger.Ledger.GetBalance` keeps the store invariant only for lookups at roots or stored blocks. Every call in `app.rb` is of that kind (app.rb:236, app.rb:273-277, and the stored block of `add_balance`). A lookup at an unknown hash would leave a snapshot for a block that does not exist.
- The reference balance is a separate function, not a field of the class. `SubmitAccounting` and `SubmitSolvent` state, for any credit history the snapshots are a cache of, what a submission does to it.
