/** The burn contract's constants and table rows (the contract header), and
    what their primary keys imply about how many rows a table can hold. */
module BurnerTables {
  import opened Eosio

  // Token and system accounts.
  const CHEESE_CONTRACT: Name := "cheeseburger"
  const CHEESE_SYMBOL: Symbol := Symbol("CHEESE", 4)
  const EOSIO_CONTRACT: Name := "eosio"
  const EOSIO_TOKEN: Name := "eosio.token"
  const WAX_SYMBOL: Symbol := Symbol("WAX", 8)
  const ALCOR_SWAP_CONTRACT: Name := "swap.alcor"
  const BURN_ACCOUNT: Name := "eosio.null"
  const DEFAULT_POOL_ID: nat := 1252

  // Accounts the implementation file uses without a header declaration.
  const CHEESEPOWERZ_ACCOUNT: Name := "cheesepowerz"
  const CHEESE_LIQ_ACCOUNT: Name := "xcheeseliqst"

  /** The system accounts that pay out vote rewards. */
  const VOTE_REWARD_SOURCES: set<Name> := {"eosio.voters", "eosio.vpay", "eosio.bpay"}

  /** WAX carries 8 decimal places and CHEESE 4; the symbols differ, so an
      asset addition (which demands equal symbols) never mixes them. */
  lemma SymbolsDistinct()
    ensures WAX_SYMBOL.precision == 8 && CHEESE_SYMBOL.precision == 4
    ensures WAX_SYMBOL != CHEESE_SYMBOL
    ensures forall a: Asset, b: Asset :: a.sym == WAX_SYMBOL && b.sym == CHEESE_SYMBOL ==> Add(a, b).Err?
  {
  }

  /** The `config` singleton's row. */
  datatype ConfigRow = ConfigRow(admin: Name, alcorPoolId: nat, enabled: bool, minWaxToBurn: Asset)

  /** The `pendingburn` singleton's row: who called `burn`, when, and the WAX
      figures recorded for the burn log once the vote reward arrives. */
  datatype PendingBurnRow = PendingBurnRow(caller: Name, timestamp: nat, waxClaimed: Asset, waxSwapped: Asset)
  {
    function PrimaryKey(): nat { 0 }
  }

  /** The `stats` row: running totals over all burns. */
  datatype StatsRow = StatsRow(
    totalBurns: nat,
    totalWaxClaimed: Asset,
    totalWaxStaked: Asset,
    totalCheeseBurned: Asset,
    totalCheeseRewards: Asset,
    totalCheeseLiquidity: Asset)
  {
    function PrimaryKey(): nat { 0 }
  }

  /** The `cpowerstats` row: WAX sent to the cheesepowerz account so far. The
      implementation uses this row without declaring its type; it is taken to
      hold only that total, under primary key 0, the key the implementation
      looks it up by. */
  datatype CpowerStatsRow = CpowerStatsRow(totalWaxCheesepowerz: Asset)
  {
    function PrimaryKey(): nat { 0 }
  }

  /** A row of a token contract's `accounts` table: one balance. */
  datatype TokenAccount = TokenAccount(balance: Asset)
  {
    function PrimaryKey(): string { balance.sym.code }
  }

  /** An asset together with the token contract that issues it. */
  datatype ExtendedAsset = ExtendedAsset(quantity: Asset, contract: Name)

  /** A row of the Alcor `pools` table. */
  datatype AlcorPool = AlcorPool(
    id: nat,
    active: bool,
    tokenA: ExtendedAsset,
    tokenB: ExtendedAsset,
    fee: nat,
    feeProtocol: nat,
    tickSpacing: int,
    maxLiquidityPerTick: nat)
  {
    function PrimaryKey(): nat { id }
  }

  /** A multi-index table holds each row under that row's own primary key. */
  ghost predicate KeyedBy<K, R>(table: map<K, R>, key: R -> K) {
    forall k :: k in table ==> key(table[k]) == k
  }

  /** A table whose rows all share one primary key holds at most one row. */
  lemma {:induction false} ConstantKeyAtMostOneRow<K, R>(table: map<K, R>, key: R -> K, k0: K)
    requires KeyedBy(table, key)
    requires forall r :: key(r) == k0
    ensures table == map[] || exists row :: table == map[k0 := row]
  {
    if table != map[] {
      var k :| k in table;
      assert k == k0 by { assert key(table[k]) == k; }
      var row := table[k0];
      forall j | j in table ensures j == k0 {
        assert key(table[j]) == j;
      }
      assert table == map[k0 := row];
    }
  }

  /** `stats` rows all have primary key 0, so the table is empty or holds
      exactly the row under key 0: it is faithfully an optional row. */
  lemma StatsTableAtMostOneRow(table: map<nat, StatsRow>)
    requires KeyedBy(table, (r: StatsRow) => r.PrimaryKey())
    ensures |table| <= 1
    ensures table == map[] || (0 in table && table == map[0 := table[0]])
  {
    ConstantKeyAtMostOneRow(table, (r: StatsRow) => r.PrimaryKey(), 0);
  }

  /** Likewise for `cpowerstats`. */
  lemma CpowerTableAtMostOneRow(table: map<nat, CpowerStatsRow>)
    requires KeyedBy(table, (r: CpowerStatsRow) => r.PrimaryKey())
    ensures |table| <= 1
    ensures table == map[] || (0 in table && table == map[0 := table[0]])
  {
    ConstantKeyAtMostOneRow(table, (r: CpowerStatsRow) => r.PrimaryKey(), 0);
  }

  /** The pending-burn row's primary key is the constant 0 as well, so even
      stored as a multi-index it could hold only one burn in flight. */
  lemma PendingTableAtMostOneRow(table: map<nat, PendingBurnRow>)
    requires KeyedBy(table, (r: PendingBurnRow) => r.PrimaryKey())
    ensures |table| <= 1
  {
    ConstantKeyAtMostOneRow(table, (r: PendingBurnRow) => r.PrimaryKey(), 0);
  }

  /** Balances are keyed by symbol code, so an account's `accounts` table
      holds at most one balance per symbol code. */
  lemma {:induction false} OneBalancePerSymbol(table: map<string, TokenAccount>, k1: string, k2: string)
    requires KeyedBy(table, (r: TokenAccount) => r.PrimaryKey())
    requires k1 in table && k2 in table
    requires table[k1].balance.sym.code == table[k2].balance.sym.code
    ensures k1 == k2 && table[k1] == table[k2]
  {
    assert table[k1].PrimaryKey() == k1;
    assert table[k2].PrimaryKey() == k2;
  }
}
