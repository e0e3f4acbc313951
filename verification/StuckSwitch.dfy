/** The shortest fork that leaves the database on a block of a branch it has given up
    (libraries/chain/db_block.cpp:138-194, fork_database.cpp:39-45). */
module StuckSwitches {
  import opened Common
  import opened Arithmetic
  import opened Blocks
  import opened ForkDatabases
  import opened ChainDatabases

  /** Each block says whether it is valid, and a valid one is counted. */
  function Count(n: nat, irreversible: nat, b: Block<bool>): Outcome<nat> {
    if b.body then Done(n + 1, 0) else FailsEarly
  }

  const A1 := Block(BlockId(1, 1), ZERO_ID, true)
  const B1 := Block(BlockId(1, 2), ZERO_ID, true)
  const B2 := Block(BlockId(2, 2), B1.id, false)

  const GENESIS: ChainState<nat> := ChainState(ZERO_ID, 0, 0)
  const ON_A1: ChainState<nat> := ChainState(A1.id, 0, 1)
  const ON_B1: ChainState<nat> := ChainState(B1.id, 0, 1)

  const HELD: map<BlockId, Block<bool>> := map[A1.id := A1, B1.id := B1, B2.id := B2]
  const FORK: Branches<bool> := Branches([B2, B1], [A1])

  lemma ForkParts()
    ensures Linked(HELD) && BranchesPart(HELD, B2.id, A1.id, FORK)
  {
    assert ZERO_ID !in HELD;
    assert Lineage(HELD, B1.id) == [B1] && Lineage(HELD, B2.id) == [B2] + [B1] && Lineage(HELD, A1.id) == [A1];
    assert Parting([B2, B1], [A1], 1, 0);
  }

  /** The new branch is applied up to its invalid block. */
  lemma ForkIsTried()
    ensures var base := Chain(GENESIS, [], 2, HELD);
      && HowMany(Count, GENESIS, Reversed(FORK.first)) == 1
      && Grown(Count, base, 1, Reversed(FORK.first)) == Chain(ON_B1, [GENESIS], 2, HELD)
  {
    var base := Chain(GENESIS, [], 2, HELD);
    assert Reversed(FORK.first) == [B1] + [B2];
    var next := Tried(Count, base, Some(1), B1);
    assert Kept(HELD, -1) == HELD;
    assert next == Chain(ON_B1, [GENESIS], 2, HELD);
    assert Reversed(FORK.first)[1..] == [B2];
    assert Tried(Count, next, Some(1), B2) == next;
  }

  /** With A1 on the chain, the fork B1, B2 is switched to; B2 fails; and as A1 has no parent in the fork database, B1
      cannot be popped again. */
  lemma SwitchGetsStuck()
    ensures var p := SwitchOf(Count, Chain(ON_A1, [GENESIS], 2, HELD), 2, FORK);
      p.result == Stuck && p.chain.state == ON_B1
  {
    var base := Rewound(Chain(ON_A1, [GENESIS], 2, HELD), 1);
    assert base == Chain(GENESIS, [], 2, HELD);
    ForkIsTried();
    var out := TakenOut(Chain(ON_B1, [GENESIS], 2, HELD), FORK, 1);
    assert ZERO_ID !in Alive(out.items, PinnedBy(HELD, FORK));
  }

  // ---------- the same as a run ----------

  type CountingDatabase = ChainDatabase<nat, bool>

  ghost predicate IsOn(db: CountingDatabase, head: Option<Block<bool>>, size: nat, c: Chain<nat, bool>)
    reads db, db.fork
  {
    && db.Valid() && db.t == Count && db.fork.pinned == map[]
    && db.fork.head == head && db.fork.maxSize == size && db.Now() == c
  }

  method StartWithA1() returns (db: CountingDatabase)
    ensures fresh(db) && fresh(db.fork)
    ensures IsOn(db, Some(A1), 2, Chain(ON_A1, [GENESIS], 2, map[A1.id := A1]))
  {
    db := new ChainDatabase(Count, 0);
    var r := db.PushBlock(A1, false);
  }

  /** Only A1 has been applied, so B1 and B2 are new. */
  lemma OthersAreAuthentic(db: CountingDatabase, b: Block<bool>)
    requires db.Valid() && db.t == Count && db.undo == [GENESIS] && db.state == ON_A1
    requires b.id != A1.id && b.id !in db.fork.items && Numbered(b) && db.fork.head == Some(A1)
    ensures db.Authentic(b)
  {
    HistoryPopped(Count, db.undo, db.state, db.applied);
  }

  method ThenB1(db: CountingDatabase)
    requires IsOn(db, Some(A1), 2, Chain(ON_A1, [GENESIS], 2, map[A1.id := A1]))
    modifies db, db.fork
    ensures IsOn(db, Some(A1), 2, Chain(ON_A1, [GENESIS], 2, map[A1.id := A1, B1.id := B1]))
  {
    OthersAreAuthentic(db, B1);
    var r := db.PushBlock(B1, false);
  }

  method ThenB2(db: CountingDatabase) returns (r: PushResult)
    requires IsOn(db, Some(A1), 2, Chain(ON_A1, [GENESIS], 2, map[A1.id := A1, B1.id := B1]))
    modifies db, db.fork
    ensures r == Stuck && db.state == ON_B1
  {
    OthersAreAuthentic(db, B2);
    assert PushedItems(db.fork.items, Some(A1), 2, B2) == HELD;
    r := db.PushBlock(B2, false);
    ForkIsFollowed();
  }

  /** Three blocks, none of them skipping the fork database. */
  method RunFromGenesis() returns (db: CountingDatabase, r: PushResult)
    ensures r == Stuck && db.state == ON_B1
  {
    db := StartWithA1();
    ThenB1(db);
    r := ThenB2(db);
  }

  lemma ForkIsFollowed()
    ensures Linked(HELD)
    ensures var p := Follows(Count, Chain(ON_A1, [GENESIS], 2, HELD), B2.id);
      p.result == Stuck && p.chain.state == ON_B1
  {
    ForkParts();
    BranchesAreUnique(HELD, B2.id, A1.id, FORK);
    SwitchGetsStuck();
  }
}
