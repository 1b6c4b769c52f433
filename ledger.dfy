/** The ledger engine: the Redis store as fields of one object (blocks, the
    `users` set, the balance snapshots and the two tunables), and the helpers
    and handlers of app.rb that read and write them. */
module Ledger {
  import opened Wrappers
  import opened Formats
  import opened TransferMsg
  import opened Chain

  /** Used when `difficulty` has never been set. */
  const DefaultDifficulty: int := 4

  /** Used when `transfer_charge` has never been set. */
  const DefaultTransferCharge: real := 0.1

  /** The parameters of `post "/blocks"`; None is a missing key. */
  datatype Submission = Submission(prev: Option<string>, nonce: Option<string>, miner: Option<string>, msg: Option<string>)

  /** One constructor per `halt` of `post "/blocks"`. */
  datatype SubmitError =
    | MissingKeys(keys: seq<string>)
    | BadPrevFormat
    | BadNonceFormat
    | BadMinerFormat
    | MinerNotRegistered
    | PrevNotFound
    | BlockExists(hash: string)
    | InsufficientDifficulty(current: int, given: nat)
    | SenderNotRegistered(sender: string)
    | ReceiverNotRegistered(receiver: string)
    | InsufficientFunds(sender: string, quantity: nat)
    | ReceiverIsMiner

  /** The `halt` of `get "/users/:user_name"`. */
  datatype RegisterError = BadUserName

  /** A submission that passed every check before persistence: the
      lower-cased parent, the other fields, the computed hash and the
      difficulty it achieves (which is also the miner's reward). */
  datatype Accepted = Accepted(prev: string, nonce: string, miner: string, msg: string, hash: string, reward: nat)

  predicate Complete(req: Submission) {
    req.prev.Some? && req.nonce.Some? && req.miner.Some? && req.msg.Some?
  }

  /** The required keys that are absent, in the order prev, nonce, miner, msg. */
  function MissingKeysOf(req: Submission): (keys: seq<string>)
    ensures keys == [] <==> Complete(req)
    ensures ("prev" in keys <==> req.prev.None?) && ("nonce" in keys <==> req.nonce.None?)
    ensures ("miner" in keys <==> req.miner.None?) && ("msg" in keys <==> req.msg.None?)
  {
    (if req.prev.None? then ["prev"] else []) +
    (if req.nonce.None? then ["nonce"] else []) +
    (if req.miner.None? then ["miner"] else []) +
    (if req.msg.None? then ["msg"] else [])
  }

  /** The record an accepted submission stores, stamped `now`. */
  function NewBlock(a: Accepted, now: string): Block
  {
    Block(Some(a.prev), a.nonce, a.miner, a.msg, now)
  }

  /** The transfer charge on quantity `q` at rate `rate`. */
  function Charge(q: nat, rate: real): real
  {
    q as real * rate
  }

  /** At a rate between 0 and 1 the charge is between 0 and the quantity. */
  lemma ChargeBounded(q: nat, rate: real)
    requires 0.0 <= rate <= 1.0
    ensures 0.0 <= Charge(q, rate) <= q as real
  {
    assert q as real * rate <= q as real * 1.0;
  }

  /** What a submission that passed Check reports: the block itself, or the
      error of the transfer it carries. */
  function Outcome(a: Accepted, s: Result<seq<(string, real)>, SubmitError>): Result<Accepted, SubmitError>
  {
    if s.Success? then Success(a) else Failure(s.error)
  }

  /** The accounting stage of `post "/blocks"`, after the block is stored:
      a transfer message is refused when its sender or receiver is not
      registered, when the sender's balance at the parent is below the
      quantity, or when the receiver is the miner; otherwise (or for a
      mining-only block) it yields the add_balance calls of the block. */
  ghost function Settlement(blocks: Blocks, height: Heights, cache: Snapshots, users: set<string>, rate: real, a: Accepted): (r: Result<seq<(string, real)>, SubmitError>)
    requires Ranked(blocks, height)
    ensures r.Success? ==> Total(r.value) == a.reward as real
    ensures Parse(a.msg).None? ==> r == Success(MiningCredits(a.miner, a.reward))
    ensures Parse(a.msg).Some? ==>
      var t := Parse(a.msg).value;
      (r.Success? <==>
        && t.sender in users && t.receiver in users && t.receiver != a.miner
        && Lookup(blocks, height, cache, t.sender, Some(a.prev)) >= t.quantity as real)
    ensures Parse(a.msg).Some? && r.Success? ==>
      var t := Parse(a.msg).value;
      r.value == TransferCredits(t, a.miner, a.reward, Charge(t.quantity, rate))
    // the refusals, each reached only when every earlier test passed
    ensures Parse(a.msg).Some? ==>
      var t := Parse(a.msg).value;
      && (r == Failure(SenderNotRegistered(t.sender)) <==> t.sender !in users)
      && (r == Failure(ReceiverNotRegistered(t.receiver)) <==> t.sender in users && t.receiver !in users)
      && (r == Failure(InsufficientFunds(t.sender, t.quantity)) <==>
            && t.sender in users && t.receiver in users
            && Lookup(blocks, height, cache, t.sender, Some(a.prev)) < t.quantity as real)
      && (r == Failure(ReceiverIsMiner) <==>
            && t.sender in users && t.receiver in users
            && Lookup(blocks, height, cache, t.sender, Some(a.prev)) >= t.quantity as real
            && t.receiver == a.miner)
  {
    if Parse(a.msg).None? then Success(MiningCredits(a.miner, a.reward))
    else
      var t := Parse(a.msg).value;
      if t.sender !in users then Failure(SenderNotRegistered(t.sender))
      else if t.receiver !in users then Failure(ReceiverNotRegistered(t.receiver))
      else if Lookup(blocks, height, cache, t.sender, Some(a.prev)) < t.quantity as real
      then Failure(InsufficientFunds(t.sender, t.quantity))
      else if t.receiver == a.miner then Failure(ReceiverIsMiner)
      else Success(TransferCredits(t, a.miner, a.reward, Charge(t.quantity, rate)))
  }

  /** The snapshots after the accounting stage: a transfer whose parties are
      registered has the sender's balance at the parent looked up (which
      writes its snapshots); then the block's add_balance calls run, or none
      when the transfer is refused. */
  ghost function AccountSnapshots(blocks: Blocks, height: Heights, cache: Snapshots, users: set<string>, rate: real, a: Accepted): Snapshots
    requires Ranked(blocks, height)
  {
    var s := Settlement(blocks, height, cache, users, rate, a);
    var looked :=
      if Parse(a.msg).Some? && Parse(a.msg).value.sender in users && Parse(a.msg).value.receiver in users
      then Fill(blocks, height, cache, Parse(a.msg).value.sender, Some(a.prev))
      else cache;
    if s.Success? then ApplyCredits(blocks, height, looked, a.hash, s.value) else looked
  }

  /** The add_balance calls a settlement grants: none when it is refused. */
  function Granted(s: Result<seq<(string, real)>, SubmitError>): seq<(string, real)>
  {
    if s.Success? then s.value else []
  }

  /** Once block `a.hash` is stored under `a.prev`, the accounting stage
      leaves get_balance at the new block reading the parent's balance plus
      each account's share of the granted calls: with a refused transfer,
      every account, the miner included, reads the parent's balance. */
  lemma AccountLookups(blocks: Blocks, height: Heights, cache: Snapshots, users: set<string>, rate: real, a: Accepted, now: string, u: string)
    requires Ranked(blocks, height) && SnapshotsStored(blocks, cache)
    requires a.prev in blocks && a.prev != "" && a.hash !in blocks && a.hash != ""
    ensures
      var blocks' := blocks[a.hash := NewBlock(a, now)];
      var height' := height[a.hash := height[a.prev] + 1];
      Ranked(blocks', height') &&
      Lookup(blocks', height', AccountSnapshots(blocks', height', cache, users, rate, a), u, Some(a.hash)) ==
        Lookup(blocks', height', cache, u, Some(a.prev)) + ShareOf(Granted(Settlement(blocks', height', cache, users, rate, a)), u)
  {
    var blocks' := blocks[a.hash := NewBlock(a, now)];
    var height' := height[a.hash := height[a.prev] + 1];
    AdoptRanked(blocks, height, a.hash, NewBlock(a, now));
    var s := Settlement(blocks', height', cache, users, rate, a);
    var looked :=
      if Parse(a.msg).Some? && Parse(a.msg).value.sender in users && Parse(a.msg).value.receiver in users
      then Fill(blocks', height', cache, Parse(a.msg).value.sender, Some(a.prev))
      else cache;
    assert Lookup(blocks', height', looked, u, Some(a.hash)) == Lookup(blocks', height', cache, u, Some(a.prev)) by {
      if looked != cache {
        FillTransparent(blocks', height', cache, Parse(a.msg).value.sender, Some(a.prev), u, Some(a.hash));
      }
      assert (u, a.hash) !in cache;
    }
    ApplyCreditsLookup(blocks', height', looked, a.hash, Granted(s), u);
  }

  /** The accounting stage keeps the snapshots a cache of the balances, with
      the granted calls recorded as the new block's credits, and changes no
      snapshot of another block. */
  lemma AccountCoherent(blocks: Blocks, height: Heights, credits: Credits, cache: Snapshots, users: set<string>, rate: real, a: Accepted)
    requires Ranked(blocks, height) && Coherent(blocks, height, credits, cache)
    requires a.prev in blocks && a.hash in blocks && Childless(blocks, a.hash) && a.hash != ""
    ensures
      var cache' := AccountSnapshots(blocks, height, cache, users, rate, a);
      && Coherent(blocks, height, Credited(credits, a.hash, Granted(Settlement(blocks, height, cache, users, rate, a))), cache')
      && forall v, x :: (v, x) in cache && x != a.hash ==> (v, x) in cache' && cache'[(v, x)] == cache[(v, x)]
  {
    var s := Settlement(blocks, height, cache, users, rate, a);
    var looked :=
      if Parse(a.msg).Some? && Parse(a.msg).value.sender in users && Parse(a.msg).value.receiver in users
      then Fill(blocks, height, cache, Parse(a.msg).value.sender, Some(a.prev))
      else cache;
    if looked != cache {
      FillCoherent(blocks, height, credits, cache, Parse(a.msg).value.sender, Some(a.prev));
      FillExtends(blocks, height, cache, Parse(a.msg).value.sender, Some(a.prev));
    }
    ApplyCreditsCoherent(blocks, height, credits, looked, a.hash, Granted(s));
    ApplyCreditsKeeps(blocks, height, looked, a.hash, Granted(s));
  }

  /** `post "/blocks"` against the balances it is meant to keep: if the
      snapshots were a cache of the balances before, they are one after,
      with the granted calls recorded as the new block's credits; every
      block stored before keeps its balances, the new block gives each
      account its parent's balance plus its share of the granted calls, and
      no snapshot stored before changes. */
  lemma SubmitAccounting(blocks: Blocks, height: Heights, credits: Credits, cache: Snapshots, users: set<string>, rate: real, a: Accepted, now: string)
    requires Ranked(blocks, height) && Coherent(blocks, height, credits, cache)
    requires a.prev in blocks && a.prev != "" && a.hash !in blocks && a.hash != ""
    ensures Ranked(blocks[a.hash := NewBlock(a, now)], height[a.hash := height[a.prev] + 1])
    ensures
      var blocks' := blocks[a.hash := NewBlock(a, now)];
      var height' := height[a.hash := height[a.prev] + 1];
      var cs := Granted(Settlement(blocks', height', cache, users, rate, a));
      var credits' := Credited(credits, a.hash, cs);
      var cache' := AccountSnapshots(blocks', height', cache, users, rate, a);
      && Coherent(blocks', height', credits', cache')
      && (forall u :: Balance(blocks', height', credits', u, Some(a.hash)) ==
            Balance(blocks, height, credits, u, Some(a.prev)) + ShareOf(cs, u))
      && (forall u, x :: x in blocks ==> Balance(blocks', height', credits', u, Some(x)) == Balance(blocks, height, credits, u, Some(x)))
      && (forall v, x :: (v, x) in cache ==> (v, x) in cache' && cache'[(v, x)] == cache[(v, x)])
  {
    var b := NewBlock(a, now);
    var blocks' := blocks[a.hash := b];
    var height' := height[a.hash := height[a.prev] + 1];
    AdoptRanked(blocks, height, a.hash, b);
    var cs := Granted(Settlement(blocks', height', cache, users, rate, a));
    var credits' := Credited(credits, a.hash, cs);
    AdoptCoherent(blocks, height, credits, cache, a.hash, b);
    AccountCoherent(blocks', height', credits, cache, users, rate, a);
    CreditedMoves(credits, a.hash, cs);
    forall u, x | x in blocks
      ensures Balance(blocks', height', credits', u, Some(x)) == Balance(blocks, height, credits, u, Some(x))
    {
      ShiftLeaf(blocks', height', credits, credits', a.hash, u, Some(x));
      AdoptFrame(blocks, height, credits, a.hash, b, u, Some(x));
    }
    forall u
      ensures Balance(blocks', height', credits', u, Some(a.hash)) ==
        Balance(blocks, height, credits, u, Some(a.prev)) + ShareOf(cs, u)
    {
      ShiftLeaf(blocks', height', credits, credits', a.hash, u, Some(a.hash));
      AdoptFrame(blocks, height, credits, a.hash, b, u, Some(a.hash));
    }
  }

  /** With a charge rate between 0 and 1, the granted calls take no account
      below zero: the sender, who loses, was checked to hold the quantity. */
  lemma GrantedSolvent(blocks: Blocks, height: Heights, cache: Snapshots, users: set<string>, rate: real, a: Accepted, u: string, before: real)
    requires Ranked(blocks, height) && 0.0 <= rate <= 1.0 && before >= 0.0
    requires Parse(a.msg).Some? && u == Parse(a.msg).value.sender ==>
      before == Lookup(blocks, height, cache, u, Some(a.prev))
    ensures before + ShareOf(Granted(Settlement(blocks, height, cache, users, rate, a)), u) >= 0.0
  {
    var s := Settlement(blocks, height, cache, users, rate, a);
    if s.Success? && Parse(a.msg).Some? {
      var t := Parse(a.msg).value;
      var charge := Charge(t.quantity, rate);
      ChargeBounded(t.quantity, rate);
      assert s.value == TransferCredits(t, a.miner, a.reward, charge);
      TransferKeepsSolvent(t, a.miner, a.reward, charge, u, before);
      assert before + ShareOf(s.value, u) >= 0.0;
    } else if s.Success? {
      assert s.value == MiningCredits(a.miner, a.reward);
    } else {
      assert Granted(s) == [];
    }
  }

  /** With a charge rate between 0 and 1, `post "/blocks"` leaves no account
      with a negative balance at any block if none had one before. */
  lemma SubmitSolvent(blocks: Blocks, height: Heights, credits: Credits, cache: Snapshots, users: set<string>, rate: real, a: Accepted, now: string)
    requires Ranked(blocks, height) && Coherent(blocks, height, credits, cache) && Solvent(blocks, height, credits)
    requires a.prev in blocks && a.prev != "" && a.hash !in blocks && a.hash != ""
    requires 0.0 <= rate <= 1.0
    ensures Ranked(blocks[a.hash := NewBlock(a, now)], height[a.hash := height[a.prev] + 1])
    ensures
      var blocks' := blocks[a.hash := NewBlock(a, now)];
      var height' := height[a.hash := height[a.prev] + 1];
      var credits' := Credited(credits, a.hash, Granted(Settlement(blocks', height', cache, users, rate, a)));
      Solvent(blocks', height', credits')
  {
    var b := NewBlock(a, now);
    var blocks' := blocks[a.hash := b];
    var height' := height[a.hash := height[a.prev] + 1];
    AdoptRanked(blocks, height, a.hash, b);
    AdoptCoherent(blocks, height, credits, cache, a.hash, b);
    SubmitAccounting(blocks, height, credits, cache, users, rate, a, now);
    forall u ensures Balance(blocks, height, credits, u, Some(a.prev)) +
      ShareOf(Granted(Settlement(blocks', height', cache, users, rate, a)), u) >= 0.0
    {
      LookupIsBalance(blocks', height', credits, cache, u, Some(a.prev));
      AdoptFrame(blocks, height, credits, a.hash, b, u, Some(a.prev));
      GrantedSolvent(blocks', height', cache, users, rate, a, u, Balance(blocks, height, credits, u, Some(a.prev)));
    }
  }

  /** The message "alice,bob,40" requests a transfer of 40 from alice to bob. */
  lemma ParseScenario()
    ensures Parse("alice,bob,40") == Some(Transfer("alice", "bob", 40))
  {
    var t := Transfer("alice", "bob", 40);
    assert Decimal(40) == "40";
    assert Format(t) == "alice,bob,40";
    FormatThenParse(t);
  }

  /** That transfer, mined by carol with reward 2 at the default charge
      rate: alice pays 40, bob receives 36, carol earns 4 + 2. */
  lemma TransferScenario(alice: string, bob: string, carol: string)
    requires alice != bob && alice != carol && bob != carol
    ensures var cs := TransferCredits(Transfer(alice, bob, 40), carol, 2, Charge(40, DefaultTransferCharge));
      ShareOf(cs, alice) == -40.0 && ShareOf(cs, bob) == 36.0 && ShareOf(cs, carol) == 6.0
  {
    assert Charge(40, DefaultTransferCharge) == 4.0;
  }

  /** The store as the constructor leaves it, with seeded blocks and no
      snapshot yet: the empty cache is exact, since no block has credited
      anyone, and no account holds a negative balance. */
  lemma InitialCoherent(seed: Blocks, seedHeight: Heights)
    requires Ranked(seed, seedHeight)
    ensures Coherent(seed, seedHeight, map[], map[]) && Solvent(seed, seedHeight, map[])
  {
    forall u, x | x in seed ensures Balance(seed, seedHeight, map[], u, Some(x)) >= 0.0 {
      NoCreditsNoBalance(seed, seedHeight, u, Some(x));
    }
  }

  class Ledger {
    /** SHA-256 as a hex digest, left uninterpreted. */
    const sha256: string -> string
    var blocks: Blocks
    var users: set<string>
    var balances: Snapshots
    var difficulty: Option<int>
    var transferCharge: Option<real>
    /** Distance of each block from its root: the termination argument. */
    ghost var height: Heights

    ghost predicate Valid()
      reads this`blocks, this`height, this`balances
    {
      && (forall s :: IsLowerHash(sha256(s)))
      && "" !in blocks
      && Ranked(blocks, height)
      && SnapshotsStored(blocks, balances)
    }

    /** A store seeded with root blocks (the chain's genesis is never created by
        the handlers), registered users, no snapshots and default tunables. */
    constructor (sha256: string -> string, seed: Blocks, ghost seedHeight: Heights, seedUsers: set<string>)
      requires forall s :: IsLowerHash(sha256(s))
      requires "" !in seed && Ranked(seed, seedHeight)
      ensures Valid()
      ensures this.sha256 == sha256 && blocks == seed && height == seedHeight && users == seedUsers
      ensures balances == map[] && difficulty == None && transferCharge == None
    {
      this.sha256 := sha256;
      blocks := seed;
      height := seedHeight;
      users := seedUsers;
      balances := map[];
      difficulty := None;
      transferCharge := None;
    }

    /** get_difficulty: the stored value, or the default when unset. */
    function CurrentDifficulty(): (d: int)
      reads this`difficulty
      ensures difficulty.None? ==> d == DefaultDifficulty
      ensures difficulty.Some? ==> d == difficulty.value
    {
      if difficulty.Some? then difficulty.value else DefaultDifficulty
    }

    /** get_transfer_charge: the stored value, or the default when unset. */
    function CurrentTransferCharge(): (c: real)
      reads this`transferCharge
      ensures transferCharge.None? ==> c == DefaultTransferCharge
      ensures transferCharge.Some? ==> c == transferCharge.value
    {
      if transferCharge.Some? then transferCharge.value else DefaultTransferCharge
    }

    method SetDifficulty(d: int)
      modifies this`difficulty
      ensures difficulty == Some(d) && CurrentDifficulty() == d
    {
      difficulty := Some(d);
    }

    method SetTransferCharge(c: real)
      modifies this`transferCharge
      ensures transferCharge == Some(c) && CurrentTransferCharge() == c
    {
      transferCharge := Some(c);
    }

    /** calc_hash: SHA-256 of the parent hash followed by the nonce. */
    function CalcHash(nonce: string, prevBlockHash: string): (h: string)
      ensures (forall s :: IsLowerHash(sha256(s))) ==> IsLowerHash(h) && h != ""
    {
      sha256(prevBlockHash + nonce)
    }

    /** The registration part of `get "/users/:user_name"`: a badly formed
        name is refused; otherwise the name is added to `users`, and the
        result says whether it was not there before. */
    method RegisterUser(name: string) returns (r: Result<bool, RegisterError>)
      modifies this`users
      ensures !IsName(name) ==> r == Failure(BadUserName) && users == old(users)
      ensures IsName(name) ==> r == Success(name !in old(users)) && users == old(users) + {name}
    {
      if !IsName(name) {
        return Failure(BadUserName);
      }
      var isNewUser := name !in users;
      if isNewUser {
        users := users + {name};
      }
      r := Success(isNewUser);
    }

    /** get_balance: 0 at a root; the snapshot if there is one; otherwise the
        parent's balance, which is then stored as this block's snapshot. */
    method GetBalance(user: string, h: Option<string>) returns (b: real)
      requires Ranked(blocks, height)
      modifies this`balances
      ensures b == Lookup(blocks, height, old(balances), user, h)
      ensures balances == Fill(blocks, height, old(balances), user, h)
      ensures old(Valid()) && (IsRoot(h) || h.value in blocks) ==> Valid()
      decreases Rank(blocks, height, h)
    {
      ghost var cache := balances;
      if IsRoot(h) {
        b := 0.0;
      } else if (user, h.value) in balances {
        b := balances[(user, h.value)];
      } else {
        b := GetBalance(user, ParentOf(blocks, h.value));
        balances := balances[(user, h.value) := b];
      }
      if old(Valid()) && (IsRoot(h) || h.value in blocks) {
        FillStored(blocks, height, cache, user, h);
      }
    }

    /** set_balance: overwrite one snapshot. */
    method SetBalance(user: string, h: string, balance: real)
      modifies this`balances
      ensures balances == old(balances)[(user, h) := balance]
    {
      balances := balances[(user, h) := balance];
    }

    /** add_balance: read the balance (writing get_balance's snapshots), then
        store it plus `diff` as the (user, h) snapshot. */
    method AddBalance(user: string, h: string, diff: real)
      requires Valid() && h in blocks
      modifies this`balances
      ensures Valid()
      ensures balances == AddSnapshot(blocks, height, old(balances), user, h, diff)
    {
      var origBalance := GetBalance(user, Some(h));
      SetBalance(user, h, origBalance + diff);
    }

    /** The checks of `post "/blocks"` that run before anything is written,
        in the handler's order; on success, what is about to be stored. */
    function Check(req: Submission): (r: Result<Accepted, SubmitError>)
      reads this`blocks, this`users, this`difficulty
      ensures r.Success? <==>
        && Complete(req)
        && IsHash(req.prev.value) && IsNonce(req.nonce.value) && IsName(req.miner.value)
        && req.miner.value in users
        && Downcase(req.prev.value) in blocks
        && CalcHash(req.nonce.value, Downcase(req.prev.value)) !in blocks
        && LeadingZeros(CalcHash(req.nonce.value, Downcase(req.prev.value))) >= CurrentDifficulty()
      ensures r.Success? ==>
        var a := r.value;
        && IsLowerHash(a.prev)
        && a == Accepted(Downcase(req.prev.value), req.nonce.value, req.miner.value, req.msg.value,
                         sha256(a.prev + a.nonce), LeadingZeros(a.hash))
      ensures r == Failure(MissingKeys(MissingKeysOf(req))) <==> !Complete(req)
      ensures r == Failure(BadPrevFormat) <==> Complete(req) && !IsHash(req.prev.value)
      ensures r == Failure(BadNonceFormat) <==>
        Complete(req) && IsHash(req.prev.value) && !IsNonce(req.nonce.value)
      ensures r == Failure(BadMinerFormat) <==>
        Complete(req) && IsHash(req.prev.value) && IsNonce(req.nonce.value) && !IsName(req.miner.value)
      ensures r == Failure(MinerNotRegistered) <==>
        Complete(req) && IsHash(req.prev.value) && IsNonce(req.nonce.value) && IsName(req.miner.value)
        && req.miner.value !in users
      ensures r == Failure(PrevNotFound) <==>
        Complete(req) && IsHash(req.prev.value) && IsNonce(req.nonce.value) && IsName(req.miner.value)
        && req.miner.value in users && Downcase(req.prev.value) !in blocks
      ensures r.Failure? && r.error.BlockExists? <==>
        Complete(req) && IsHash(req.prev.value) && IsNonce(req.nonce.value) && IsName(req.miner.value)
        && req.miner.value in users && Downcase(req.prev.value) in blocks
        && CalcHash(req.nonce.value, Downcase(req.prev.value)) in blocks
      ensures r.Failure? && r.error.BlockExists? ==>
        r.error.hash == CalcHash(req.nonce.value, Downcase(req.prev.value))
      ensures Complete(req) ==>
        var h := CalcHash(req.nonce.value, Downcase(req.prev.value));
        (r == Failure(InsufficientDifficulty(CurrentDifficulty(), LeadingZeros(h))) <==>
          && IsHash(req.prev.value) && IsNonce(req.nonce.value) && IsName(req.miner.value)
          && req.miner.value in users && Downcase(req.prev.value) in blocks
          && h !in blocks && LeadingZeros(h) < CurrentDifficulty())
      ensures r.Failure? && r.error.InsufficientDifficulty? ==>
        Complete(req) && r.error.current == CurrentDifficulty() &&
        r.error.given == LeadingZeros(CalcHash(req.nonce.value, Downcase(req.prev.value)))
    {
      if !Complete(req) then Failure(MissingKeys(MissingKeysOf(req)))
      else
        var prev := Downcase(req.prev.value);
        var nonce, miner, msg := req.nonce.value, req.miner.value, req.msg.value;
        var h := CalcHash(nonce, prev);
        DowncaseHash(req.prev.value);
        if !IsHash(prev) then Failure(BadPrevFormat)
        else if !IsNonce(nonce) then Failure(BadNonceFormat)
        else if !IsName(miner) then Failure(BadMinerFormat)
        else if miner !in users then Failure(MinerNotRegistered)
        else if prev !in blocks then Failure(PrevNotFound)
        else if h in blocks then Failure(BlockExists(h))
        else
          var given := LeadingZeros(h);
          if given < CurrentDifficulty() then Failure(InsufficientDifficulty(CurrentDifficulty(), given))
          else Success(Accepted(prev, nonce, miner, msg, h, given))
    }

    /** The writes of `"#{h}:prev"`, `:nonce`, `:miner`, `:msg` and
        `:datetime` for an accepted block: the new block hangs under its
        parent, one level below it. */
    method StoreBlock(a: Accepted, now: string)
      requires Valid()
      requires a.prev in blocks && a.hash !in blocks && a.hash != ""
      modifies this`blocks, this`height
      ensures Valid()
      ensures blocks == old(blocks)[a.hash := NewBlock(a, now)]
      ensures height == old(height)[a.hash := old(height)[a.prev] + 1]
    {
      var block := NewBlock(a, now);
      AdoptRanked(blocks, height, a.hash, block);
      blocks := blocks[a.hash := block];
      height := height[a.hash := height[a.prev] + 1];
    }

    /** The three add_balance calls of an accepted transfer: the sender pays
        the quantity, the receiver gets it less the charge, the miner the
        charge plus the reward. */
    method PayTransfer(t: Transfer, a: Accepted)
      requires Valid() && a.hash in blocks
      modifies this`balances
      ensures Valid()
      ensures balances == ApplyCredits(blocks, height, old(balances), a.hash,
        TransferCredits(t, a.miner, a.reward, Charge(t.quantity, CurrentTransferCharge())))
    {
      var q := t.quantity as real;
      ApplyThree(blocks, height, balances, a.hash, (t.sender, -q),
        (t.receiver, q - Charge(t.quantity, CurrentTransferCharge())),
        (a.miner, Charge(t.quantity, CurrentTransferCharge()) + a.reward as real));
      AddBalance(t.sender, a.hash, -q);
      var charge := Charge(t.quantity, CurrentTransferCharge());
      AddBalance(t.receiver, a.hash, q - charge);
      AddBalance(a.miner, a.hash, charge + a.reward as real);
    }

    /** The accounting stage of `post "/blocks"`, once the block is stored. */
    method Account(a: Accepted) returns (r: Result<Accepted, SubmitError>)
      requires Valid() && a.hash in blocks && a.prev in blocks
      modifies this`balances
      ensures Valid()
      ensures r == Outcome(a, Settlement(blocks, height, old(balances), users, CurrentTransferCharge(), a))
      ensures balances == AccountSnapshots(blocks, height, old(balances), users, CurrentTransferCharge(), a)
    {
      ghost var cache := balances;
      ghost var s := Settlement(blocks, height, cache, users, CurrentTransferCharge(), a);
      match Parse(a.msg)
      case None =>
        AddBalance(a.miner, a.hash, a.reward as real);
        assert s.value == [(a.miner, a.reward as real)];
        assert ApplyCredits(blocks, height, cache, a.hash, s.value) == balances by {
          assert s.value[1..] == [];
        }
        r := Success(a);
      case Some(t) =>
        if t.sender !in users {
          return Failure(SenderNotRegistered(t.sender));
        }
        if t.receiver !in users {
          return Failure(ReceiverNotRegistered(t.receiver));
        }
        var senderBalance := GetBalance(t.sender, Some(a.prev));
        if senderBalance < t.quantity as real {
          return Failure(InsufficientFunds(t.sender, t.quantity));
        }
        if t.receiver == a.miner {
          return Failure(ReceiverIsMiner);
        }
        assert s == Success(TransferCredits(t, a.miner, a.reward, Charge(t.quantity, CurrentTransferCharge())));
        PayTransfer(t, a);
        r := Success(a);
    }

    /** The writes of `post "/blocks"` for a submission that passed Check:
        the block is stored under its hash, then accounted. */
    method Persist(a: Accepted, now: string) returns (r: Result<Accepted, SubmitError>)
      requires Valid() && a.prev in blocks && a.hash !in blocks && a.hash != ""
      modifies this`blocks, this`height, this`balances
      ensures Valid()
      ensures blocks == old(blocks)[a.hash := NewBlock(a, now)]
      ensures height == old(height)[a.hash := old(height)[a.prev] + 1]
      ensures r == Outcome(a, Settlement(blocks, height, old(balances), users, CurrentTransferCharge(), a))
      ensures balances == AccountSnapshots(blocks, height, old(balances), users, CurrentTransferCharge(), a)
      ensures forall u :: Lookup(blocks, height, balances, u, Some(a.hash)) ==
                Lookup(blocks, height, old(balances), u, Some(a.prev)) +
                ShareOf(Granted(Settlement(blocks, height, old(balances), users, CurrentTransferCharge(), a)), u)
    {
      ghost var blocks0, height0, cache := blocks, height, balances;
      StoreBlock(a, now);
      r := Account(a);
      forall u ensures Lookup(blocks, height, balances, u, Some(a.hash)) ==
        Lookup(blocks, height, cache, u, Some(a.prev)) +
        ShareOf(Granted(Settlement(blocks, height, cache, users, CurrentTransferCharge(), a)), u)
      {
        AccountLookups(blocks0, height0, cache, users, CurrentTransferCharge(), a, now, u);
      }
    }

    /** `post "/blocks"`: a refused check writes nothing; otherwise the block
        is stored under its hash and then accounted. */
    method Submit(req: Submission, now: string) returns (r: Result<Accepted, SubmitError>)
      requires Valid()
      modifies this`blocks, this`height, this`balances
      ensures Valid()
      ensures old(Check(req)).Failure? ==>
        r == old(Check(req)) && blocks == old(blocks) && height == old(height) && balances == old(balances)
      ensures old(Check(req)).Success? ==>
        var a := old(Check(req)).value;
        && a.hash !in old(blocks) && a.hash != ""
        && blocks == old(blocks)[a.hash := NewBlock(a, now)]
        && height == old(height)[a.hash := old(height)[a.prev] + 1]
        && r == Outcome(a, Settlement(blocks, height, old(balances), users, CurrentTransferCharge(), a))
        && balances == AccountSnapshots(blocks, height, old(balances), users, CurrentTransferCharge(), a)
        && forall u :: Lookup(blocks, height, balances, u, Some(a.hash)) ==
             Lookup(blocks, height, old(balances), u, Some(a.prev)) +
             ShareOf(Granted(Settlement(blocks, height, old(balances), users, CurrentTransferCharge(), a)), u)
    {
      var c := Check(req);
      if c.Failure? {
        return c;
      }
      var a := c.value;
      assert a.hash != "" by { assert IsLowerHash(sha256(a.prev + a.nonce)); }
      r := Persist(a, now);
    }
  }
}
