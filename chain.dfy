/** The chain store and the balance ledger as values: blocks keyed by hash, the
    memoised balance lookup of `get_balance` (Lookup, and Fill for the snapshots
    it writes), and the balance it is meant to compute (Balance), defined from
    the per-block credits alone, without any cache. */
module Chain {
  import opened Wrappers
  import opened TransferMsg

  /** The fields stored under `"#{h}:prev"`, `:nonce`, `:miner`, `:msg` and
      `:datetime`. A missing or empty `prev` marks a root. */
  datatype Block = Block(prev: Option<string>, nonce: string, miner: string, msg: string, datetime: string)

  /** Stored blocks, keyed by their hash. */
  type Blocks = map<string, Block>

  /** Ghost distance of a block from its root. */
  type Heights = map<string, nat>

  /** Balance snapshots `balance:#{user}:#{h}`, keyed by (user, hash). */
  type Snapshots = map<(string, string), real>

  /** The net amount a block added to an account, keyed by (user, hash). */
  type Credits = map<(string, string), real>

  /** No block to look at: `h.nil? || h.empty?`. */
  predicate IsRoot(h: Option<string>) { h.None? || h.value == "" }

  /** get_prev_hash_of: the stored parent, or None when the block is unknown or
      its `prev` is missing or empty. */
  function ParentOf(blocks: Blocks, h: string): (r: Option<string>)
    ensures r.Some? ==> h in blocks && blocks[h].prev == r && r.value != ""
    ensures h in blocks && !IsRoot(blocks[h].prev) ==> r == blocks[h].prev
  {
    if h in blocks && blocks[h].prev.Some? && blocks[h].prev.value != "" then blocks[h].prev else None
  }

  /** The parent links are acyclic: every block has a height, and a block's
      parent, when it has one, is a stored block of smaller height. */
  ghost predicate Ranked(blocks: Blocks, height: Heights)
  {
    forall h :: h in blocks ==>
      && h in height
      && (ParentOf(blocks, h).Some? ==>
            var p := ParentOf(blocks, h).value;
            p in blocks && p in height && height[p] < height[h])
  }

  ghost function Rank(blocks: Blocks, height: Heights, h: Option<string>): nat
  {
    if IsRoot(h) then 0
    else if h.value in blocks && h.value in height then height[h.value] + 2
    else 1
  }

  /** The value get_balance returns: 0 at a root, the snapshot when there is
      one, and otherwise the value at the parent. */
  ghost function Lookup(blocks: Blocks, height: Heights, cache: Snapshots, u: string, h: Option<string>): real
    requires Ranked(blocks, height)
    decreases Rank(blocks, height, h)
  {
    if IsRoot(h) then 0.0
    else if (u, h.value) in cache then cache[(u, h.value)]
    else Lookup(blocks, height, cache, u, ParentOf(blocks, h.value))
  }

  /** The snapshots after get_balance: every block on the way from `h` to the
      first snapshot (or root) gets the value found there. */
  ghost function Fill(blocks: Blocks, height: Heights, cache: Snapshots, u: string, h: Option<string>): Snapshots
    requires Ranked(blocks, height)
    decreases Rank(blocks, height, h)
  {
    if IsRoot(h) || (u, h.value) in cache then cache
    else
      var p := ParentOf(blocks, h.value);
      Fill(blocks, height, cache, u, p)[(u, h.value) := Lookup(blocks, height, cache, u, p)]
  }

  function Credit(credits: Credits, u: string, h: string): real
  {
    if (u, h) in credits then credits[(u, h)] else 0.0
  }

  /** The balance of `u` right after block `h`: the credits of every block on
      the path from `h` up to its root, summed. */
  ghost function Balance(blocks: Blocks, height: Heights, credits: Credits, u: string, h: Option<string>): real
    requires Ranked(blocks, height)
    decreases Rank(blocks, height, h)
  {
    if IsRoot(h) then 0.0
    else Balance(blocks, height, credits, u, ParentOf(blocks, h.value)) + Credit(credits, u, h.value)
  }

  /** The snapshots are a cache of Balance: every snapshot is the balance of a
      stored block, and every pair a block credited has its snapshot. */
  ghost predicate Coherent(blocks: Blocks, height: Heights, credits: Credits, cache: Snapshots)
    requires Ranked(blocks, height)
  {
    && (forall v, x :: (v, x) in cache ==> x in blocks && cache[(v, x)] == Balance(blocks, height, credits, v, Some(x)))
    && (forall v, x :: (v, x) in credits ==> (v, x) in cache)
  }

  /** No stored block names `h` as its parent. */
  ghost predicate Childless(blocks: Blocks, h: string)
  {
    forall x :: x in blocks ==> ParentOf(blocks, x) != Some(h)
  }

  /** Before any block has credited anyone, every balance is 0. */
  lemma {:induction false} NoCreditsNoBalance(blocks: Blocks, height: Heights, u: string, h: Option<string>)
    requires Ranked(blocks, height)
    ensures Balance(blocks, height, map[], u, h) == 0.0
    decreases Rank(blocks, height, h)
  {
    if !IsRoot(h) {
      NoCreditsNoBalance(blocks, height, u, ParentOf(blocks, h.value));
    }
  }

  /** Fill only adds snapshots, all for `u`, each holding the value Lookup
      already gave at that block, and each for `h` or a stored block. */
  lemma {:induction false} FillExtends(blocks: Blocks, height: Heights, cache: Snapshots, u: string, h: Option<string>)
    requires Ranked(blocks, height)
    ensures var f := Fill(blocks, height, cache, u, h);
      forall v, x :: (v, x) in cache ==> (v, x) in f && f[(v, x)] == cache[(v, x)]
    ensures var f := Fill(blocks, height, cache, u, h);
      forall v, x :: (v, x) in f && (v, x) !in cache ==>
        && v == u
        && (x in blocks || h == Some(x))
        && f[(v, x)] == Lookup(blocks, height, cache, u, Some(x))
    decreases Rank(blocks, height, h)
  {
    if !(IsRoot(h) || (u, h.value) in cache) {
      FillExtends(blocks, height, cache, u, ParentOf(blocks, h.value));
    }
  }

  /** Writing the snapshots of one lookup changes no later lookup, for any
      user and any block. */
  lemma {:induction false} FillTransparent(blocks: Blocks, height: Heights, cache: Snapshots, u: string, h: Option<string>, v: string, x: Option<string>)
    requires Ranked(blocks, height)
    ensures Lookup(blocks, height, Fill(blocks, height, cache, u, h), v, x) == Lookup(blocks, height, cache, v, x)
    decreases Rank(blocks, height, x)
  {
    var f := Fill(blocks, height, cache, u, h);
    FillExtends(blocks, height, cache, u, h);
    if !IsRoot(x) && (v, x.value) !in f {
      FillTransparent(blocks, height, cache, u, h, v, ParentOf(blocks, x.value));
    }
  }

  /** A second get_balance on the same pair returns the same value and writes
      nothing. */
  lemma FillSettles(blocks: Blocks, height: Heights, cache: Snapshots, u: string, h: Option<string>)
    requires Ranked(blocks, height)
    ensures var f := Fill(blocks, height, cache, u, h);
      && Lookup(blocks, height, f, u, h) == Lookup(blocks, height, cache, u, h)
      && Fill(blocks, height, f, u, h) == f
  {
    FillTransparent(blocks, height, cache, u, h, u, h);
  }

  /** When the snapshots are coherent, the memoised lookup computes Balance. */
  lemma {:induction false} LookupIsBalance(blocks: Blocks, height: Heights, credits: Credits, cache: Snapshots, u: string, h: Option<string>)
    requires Ranked(blocks, height) && Coherent(blocks, height, credits, cache)
    ensures Lookup(blocks, height, cache, u, h) == Balance(blocks, height, credits, u, h)
    decreases Rank(blocks, height, h)
  {
    if !IsRoot(h) && (u, h.value) !in cache {
      assert (u, h.value) !in credits;
      LookupIsBalance(blocks, height, credits, cache, u, ParentOf(blocks, h.value));
    }
  }

  /** A lookup at a root or stored block keeps the snapshots coherent. */
  lemma FillCoherent(blocks: Blocks, height: Heights, credits: Credits, cache: Snapshots, u: string, h: Option<string>)
    requires Ranked(blocks, height) && Coherent(blocks, height, credits, cache)
    requires IsRoot(h) || h.value in blocks
    ensures Coherent(blocks, height, credits, Fill(blocks, height, cache, u, h))
  {
    var f := Fill(blocks, height, cache, u, h);
    FillExtends(blocks, height, cache, u, h);
    forall v, x | (v, x) in f
      ensures x in blocks && f[(v, x)] == Balance(blocks, height, credits, v, Some(x))
    {
      if (v, x) !in cache {
        LookupIsBalance(blocks, height, credits, cache, u, Some(x));
      }
    }
  }

  /** Changing the credits of a childless block `h` only (for any users)
      changes the balances at `h` by the same amounts and no other balance. */
  lemma {:induction false} ShiftLeaf(blocks: Blocks, height: Heights, c0: Credits, c1: Credits, h: string, v: string, x: Option<string>)
    requires Ranked(blocks, height) && Childless(blocks, h) && h != ""
    requires forall w, y :: y != h ==> Credit(c1, w, y) == Credit(c0, w, y)
    ensures Balance(blocks, height, c1, v, x) ==
      Balance(blocks, height, c0, v, x) + (if x == Some(h) then Credit(c1, v, h) - Credit(c0, v, h) else 0.0)
    decreases Rank(blocks, height, x)
  {
    if !IsRoot(x) {
      var p := ParentOf(blocks, x.value);
      assert p != Some(h);
      ShiftLeaf(blocks, height, c0, c1, h, v, p);
    }
  }

  /** add_balance on a childless stored block, with the credit recorded, keeps
      the snapshots coherent. */
  lemma CreditLeafCoherent(blocks: Blocks, height: Heights, credits: Credits, cache: Snapshots, u: string, h: string, diff: real)
    requires Ranked(blocks, height) && Coherent(blocks, height, credits, cache)
    requires (u, h) in cache && Childless(blocks, h) && h != ""
    ensures Coherent(blocks, height, credits[(u, h) := Credit(credits, u, h) + diff], cache[(u, h) := cache[(u, h)] + diff])
  {
    var credits' := credits[(u, h) := Credit(credits, u, h) + diff];
    var cache' := cache[(u, h) := cache[(u, h)] + diff];
    forall v, x | (v, x) in cache'
      ensures x in blocks && cache'[(v, x)] == Balance(blocks, height, credits', v, Some(x))
    {
      ShiftLeaf(blocks, height, credits, credits', h, v, Some(x));
    }
  }

  /** Storing a fresh block under an existing parent keeps the links acyclic,
      leaves the new block childless and every other balance as it was, and
      gives the new block its parent's balances. */
  lemma AdoptRanked(blocks: Blocks, height: Heights, h: string, b: Block)
    requires Ranked(blocks, height)
    requires h !in blocks && b.prev.Some? && b.prev.value in blocks && b.prev.value != ""
    ensures var blocks' := blocks[h := b];
      var height' := height[h := height[b.prev.value] + 1];
      Ranked(blocks', height') && Childless(blocks', h)
  {
    var blocks' := blocks[h := b];
    forall x | x in blocks ensures ParentOf(blocks', x) == ParentOf(blocks, x) {
    }
  }

  lemma {:induction false} AdoptFrame(blocks: Blocks, height: Heights, credits: Credits, h: string, b: Block, v: string, x: Option<string>)
    requires Ranked(blocks, height)
    requires h !in blocks && h != "" && b.prev.Some? && b.prev.value in blocks && b.prev.value != ""
    requires forall v, x :: (v, x) in credits ==> x in blocks
    ensures var blocks' := blocks[h := b];
      var height' := height[h := height[b.prev.value] + 1];
      Ranked(blocks', height') &&
      Balance(blocks', height', credits, v, x)
        == if x == Some(h) then Balance(blocks, height, credits, v, b.prev) else Balance(blocks, height, credits, v, x)
    decreases if x == Some(h) then Rank(blocks, height, b.prev) + 1 else Rank(blocks, height, x)
  {
    var blocks' := blocks[h := b];
    var height' := height[h := height[b.prev.value] + 1];
    AdoptRanked(blocks, height, h, b);
    if x == Some(h) {
      assert ParentOf(blocks', h) == b.prev;
      AdoptFrame(blocks, height, credits, h, b, v, b.prev);
      assert Credit(credits, v, h) == 0.0;
    } else if !IsRoot(x) {
      assert ParentOf(blocks', x.value) == ParentOf(blocks, x.value);
      AdoptFrame(blocks, height, credits, h, b, v, ParentOf(blocks, x.value));
    }
  }

  lemma AdoptCoherent(blocks: Blocks, height: Heights, credits: Credits, cache: Snapshots, h: string, b: Block)
    requires Ranked(blocks, height) && Coherent(blocks, height, credits, cache)
    requires h !in blocks && h != "" && b.prev.Some? && b.prev.value in blocks && b.prev.value != ""
    ensures var blocks' := blocks[h := b];
      var height' := height[h := height[b.prev.value] + 1];
      Ranked(blocks', height') && Coherent(blocks', height', credits, cache)
  {
    var blocks' := blocks[h := b];
    var height' := height[h := height[b.prev.value] + 1];
    AdoptRanked(blocks, height, h, b);
    forall v, x | (v, x) in cache ensures x in blocks' && cache[(v, x)] == Balance(blocks', height', credits, v, Some(x)) {
      AdoptFrame(blocks, height, credits, h, b, v, Some(x));
    }
  }

  /** The amount each account gains from a list of add_balance calls. */
  function ShareOf(cs: seq<(string, real)>, u: string): real
  {
    if cs == [] then 0.0 else (if cs[0].0 == u then cs[0].1 else 0.0) + ShareOf(cs[1..], u)
  }

  /** The sum of all amounts in a list of add_balance calls. */
  function Total(cs: seq<(string, real)>): real
  {
    if cs == [] then 0.0 else cs[0].1 + Total(cs[1..])
  }

  /** The add_balance calls of an accepted transfer with the given charge:
      the sender pays `q`, the receiver gets `q` less the charge, the miner
      the charge plus the reward. Only the reward is new money. */
  function TransferCredits(t: Transfer, miner: string, reward: nat, charge: real): (cs: seq<(string, real)>)
    ensures Total(cs) == reward as real
    ensures forall u :: (
      ShareOf(cs, u) ==
        (if u == t.sender then -(t.quantity as real) else 0.0) +
        (if u == t.receiver then t.quantity as real - charge else 0.0) +
        (if u == miner then charge + reward as real else 0.0))
  {
    var q := t.quantity as real;
    var cs := [(t.sender, -q), (t.receiver, q - charge), (miner, charge + reward as real)];
    assert Total(cs[2..]) == charge + reward as real;
    assert Total(cs[1..]) == q + reward as real;
    assert forall u :: ShareOf(cs[2..], u) == if u == miner then charge + reward as real else 0.0;
    assert forall u :: ShareOf(cs[1..], u) == ShareOf(cs[2..], u) + if u == t.receiver then q - charge else 0.0;
    cs
  }

  /** The add_balance call of a mining-only block: the reward to the miner. */
  function MiningCredits(miner: string, reward: nat): (cs: seq<(string, real)>)
    ensures Total(cs) == reward as real
    ensures forall u :: ShareOf(cs, u) == if u == miner then reward as real else 0.0
  {
    [(miner, reward as real)]
  }

  /** `c1` is `c0` after the add_balance calls `cs` on block `h`: the
      credits at `h` move by each account's share, and no other credits move. */
  ghost predicate MovesBy(c0: Credits, c1: Credits, h: string, cs: seq<(string, real)>)
  {
    forall w, y :: Credit(c1, w, y) == Credit(c0, w, y) + (if y == h then ShareOf(cs, w) else 0.0)
  }

  /** With a charge between 0 and the quantity, an accepted transfer leaves
      no account below zero: only the sender loses, and never more than the
      quantity it was checked to hold. */
  lemma TransferKeepsSolvent(t: Transfer, miner: string, reward: nat, charge: real, u: string, before: real)
    requires 0.0 <= charge <= t.quantity as real && before >= 0.0
    requires u == t.sender ==> before >= t.quantity as real
    ensures before + ShareOf(TransferCredits(t, miner, reward, charge), u) >= 0.0
  {
  }

  /** Every snapshot belongs to a stored block. */
  ghost predicate SnapshotsStored(blocks: Blocks, cache: Snapshots)
  {
    forall v, x :: (v, x) in cache ==> x in blocks
  }

  /** A lookup at a root or a stored block writes snapshots of stored blocks
      only. */
  lemma FillStored(blocks: Blocks, height: Heights, cache: Snapshots, u: string, h: Option<string>)
    requires Ranked(blocks, height) && SnapshotsStored(blocks, cache)
    requires IsRoot(h) || h.value in blocks
    ensures SnapshotsStored(blocks, Fill(blocks, height, cache, u, h))
  {
    FillExtends(blocks, height, cache, u, h);
  }

  /** A lookup for `v` reads `v`'s snapshots only: two caches that agree on
      them give `v` the same balance everywhere. */
  lemma {:induction false} LookupOwn(blocks: Blocks, height: Heights, c1: Snapshots, c2: Snapshots, v: string, x: Option<string>)
    requires Ranked(blocks, height)
    requires forall y :: (v, y) in c1 <==> (v, y) in c2
    requires forall y :: (v, y) in c1 ==> c1[(v, y)] == c2[(v, y)]
    ensures Lookup(blocks, height, c1, v, x) == Lookup(blocks, height, c2, v, x)
    decreases Rank(blocks, height, x)
  {
    if !IsRoot(x) && (v, x.value) !in c1 {
      LookupOwn(blocks, height, c1, c2, v, ParentOf(blocks, x.value));
    }
  }

  /** The snapshots after add_balance(u, h, diff): those its get_balance
      wrote, then (u, h) set to the value it returned plus `diff`. */
  ghost function AddSnapshot(blocks: Blocks, height: Heights, cache: Snapshots, u: string, h: string, diff: real): Snapshots
    requires Ranked(blocks, height)
  {
    Fill(blocks, height, cache, u, Some(h))[(u, h) := Lookup(blocks, height, cache, u, Some(h)) + diff]
  }

  /** After add_balance(u, h, diff), get_balance(u, h) returns what it
      returned before plus `diff`; every other account keeps its snapshots
      and reads the same balance at every block as before. */
  lemma AddSnapshotEffect(blocks: Blocks, height: Heights, cache: Snapshots, u: string, h: string, diff: real)
    requires Ranked(blocks, height) && h != ""
    ensures var c := AddSnapshot(blocks, height, cache, u, h, diff);
      && (u, h) in c
      && Lookup(blocks, height, c, u, Some(h)) == Lookup(blocks, height, cache, u, Some(h)) + diff
      && (forall v, x :: v != u ==> ((v, x) in c <==> (v, x) in cache))
      && (forall v, x :: v != u && (v, x) in cache ==> c[(v, x)] == cache[(v, x)])
      && (forall v, x :: v != u ==> Lookup(blocks, height, c, v, x) == Lookup(blocks, height, cache, v, x))
  {
    var f := Fill(blocks, height, cache, u, Some(h));
    var c := AddSnapshot(blocks, height, cache, u, h, diff);
    FillExtends(blocks, height, cache, u, Some(h));
    forall v, x | v != u
      ensures Lookup(blocks, height, c, v, x) == Lookup(blocks, height, cache, v, x)
    {
      LookupOwn(blocks, height, c, f, v, x);
      FillTransparent(blocks, height, cache, u, Some(h), v, x);
    }
  }

  /** Two add_balance calls on the same pair accumulate both diffs. */
  lemma AddSnapshotTwice(blocks: Blocks, height: Heights, cache: Snapshots, u: string, h: string, d1: real, d2: real)
    requires Ranked(blocks, height) && h != ""
    ensures var c := AddSnapshot(blocks, height, AddSnapshot(blocks, height, cache, u, h, d1), u, h, d2);
      Lookup(blocks, height, c, u, Some(h)) == Lookup(blocks, height, cache, u, Some(h)) + d1 + d2
  {
    AddSnapshotEffect(blocks, height, cache, u, h, d1);
    AddSnapshotEffect(blocks, height, AddSnapshot(blocks, height, cache, u, h, d1), u, h, d2);
  }

  /** add_balance on a childless stored block, with the credit recorded,
      keeps the snapshots coherent: the new snapshot is the new balance. */
  lemma AddSnapshotCoherent(blocks: Blocks, height: Heights, credits: Credits, cache: Snapshots, u: string, h: string, diff: real)
    requires Ranked(blocks, height) && Coherent(blocks, height, credits, cache)
    requires h in blocks && Childless(blocks, h) && h != ""
    ensures Coherent(blocks, height, credits[(u, h) := Credit(credits, u, h) + diff], AddSnapshot(blocks, height, cache, u, h, diff))
  {
    var f := Fill(blocks, height, cache, u, Some(h));
    FillCoherent(blocks, height, credits, cache, u, Some(h));
    FillExtends(blocks, height, cache, u, Some(h));
    assert (u, h) in f && f[(u, h)] == Lookup(blocks, height, cache, u, Some(h));
    CreditLeafCoherent(blocks, height, credits, f, u, h, diff);
  }

  /** The snapshots after the add_balance calls `cs` on block `h`, in order. */
  ghost function ApplyCredits(blocks: Blocks, height: Heights, cache: Snapshots, h: string, cs: seq<(string, real)>): Snapshots
    requires Ranked(blocks, height)
    decreases |cs|
  {
    if cs == [] then cache
    else ApplyCredits(blocks, height, AddSnapshot(blocks, height, cache, cs[0].0, h, cs[0].1), h, cs[1..])
  }

  /** The credits after the add_balance calls `cs` on block `h`. */
  function Credited(credits: Credits, h: string, cs: seq<(string, real)>): Credits
    decreases |cs|
  {
    if cs == [] then credits
    else Credited(credits[(cs[0].0, h) := Credit(credits, cs[0].0, h) + cs[0].1], h, cs[1..])
  }

  /** Crediting `cs` at `h` moves each account's credit at `h` by its share
      of `cs`, and no other credit. */
  lemma {:induction false} CreditedMoves(credits: Credits, h: string, cs: seq<(string, real)>)
    ensures MovesBy(credits, Credited(credits, h, cs), h, cs)
    decreases |cs|
  {
    if cs != [] {
      var c' := credits[(cs[0].0, h) := Credit(credits, cs[0].0, h) + cs[0].1];
      CreditedMoves(c', h, cs[1..]);
    }
  }

  /** The add_balance calls of one block, on a childless stored block, keep
      the snapshots coherent with the credits they record. */
  lemma {:induction false} ApplyCreditsCoherent(blocks: Blocks, height: Heights, credits: Credits, cache: Snapshots, h: string, cs: seq<(string, real)>)
    requires Ranked(blocks, height) && Coherent(blocks, height, credits, cache)
    requires h in blocks && Childless(blocks, h) && h != ""
    ensures Coherent(blocks, height, Credited(credits, h, cs), ApplyCredits(blocks, height, cache, h, cs))
    decreases |cs|
  {
    if cs != [] {
      var credits' := credits[(cs[0].0, h) := Credit(credits, cs[0].0, h) + cs[0].1];
      AddSnapshotCoherent(blocks, height, credits, cache, cs[0].0, h, cs[0].1);
      ApplyCreditsCoherent(blocks, height, credits', AddSnapshot(blocks, height, cache, cs[0].0, h, cs[0].1), h, cs[1..]);
    }
  }

  /** The add_balance calls of block `h` write snapshots of stored blocks
      only, and leave every snapshot of another block as it was. */
  lemma {:induction false} ApplyCreditsKeeps(blocks: Blocks, height: Heights, cache: Snapshots, h: string, cs: seq<(string, real)>)
    requires Ranked(blocks, height) && SnapshotsStored(blocks, cache) && h in blocks
    ensures var c := ApplyCredits(blocks, height, cache, h, cs);
      && SnapshotsStored(blocks, c)
      && forall v, x :: (v, x) in cache && x != h ==> (v, x) in c && c[(v, x)] == cache[(v, x)]
    decreases |cs|
  {
    if cs != [] {
      var c1 := AddSnapshot(blocks, height, cache, cs[0].0, h, cs[0].1);
      FillExtends(blocks, height, cache, cs[0].0, Some(h));
      ApplyCreditsKeeps(blocks, height, c1, h, cs[1..]);
    }
  }

  /** Three add_balance calls one after the other. */
  lemma ApplyThree(blocks: Blocks, height: Heights, cache: Snapshots, h: string, x: (string, real), y: (string, real), z: (string, real))
    requires Ranked(blocks, height)
    ensures ApplyCredits(blocks, height, cache, h, [x, y, z]) ==
      var c1 := AddSnapshot(blocks, height, cache, x.0, h, x.1);
      var c2 := AddSnapshot(blocks, height, c1, y.0, h, y.1);
      AddSnapshot(blocks, height, c2, z.0, h, z.1)
  {
    var c1 := AddSnapshot(blocks, height, cache, x.0, h, x.1);
    var c2 := AddSnapshot(blocks, height, c1, y.0, h, y.1);
    var c3 := AddSnapshot(blocks, height, c2, z.0, h, z.1);
    assert [x, y, z][1..] == [y, z];
    assert [y, z][1..] == [z];
    assert [z][1..] == [];
    assert ApplyCredits(blocks, height, c3, h, []) == c3;
    assert ApplyCredits(blocks, height, c2, h, [z]) == c3;
    assert ApplyCredits(blocks, height, c1, h, [y, z]) == c3;
  }

  /** The add_balance calls `cs` on block `h` move get_balance(u, h) by
      u's share of `cs`. */
  lemma {:induction false} ApplyCreditsLookup(blocks: Blocks, height: Heights, cache: Snapshots, h: string, cs: seq<(string, real)>, u: string)
    requires Ranked(blocks, height) && h != ""
    ensures Lookup(blocks, height, ApplyCredits(blocks, height, cache, h, cs), u, Some(h)) ==
      Lookup(blocks, height, cache, u, Some(h)) + ShareOf(cs, u)
    decreases |cs|
  {
    if cs != [] {
      var c1 := AddSnapshot(blocks, height, cache, cs[0].0, h, cs[0].1);
      AddSnapshotEffect(blocks, height, cache, cs[0].0, h, cs[0].1);
      ApplyCreditsLookup(blocks, height, c1, h, cs[1..], u);
    }
  }

  /** No account has a negative balance at any stored block. */
  ghost predicate Solvent(blocks: Blocks, height: Heights, credits: Credits)
    requires Ranked(blocks, height)
  {
    forall u, x :: x in blocks ==> Balance(blocks, height, credits, u, Some(x)) >= 0.0
  }
}
