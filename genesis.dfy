/** The genesis program's bookkeeping: the genesis account with its supply and
    wallet counters, wallets minted for OS files and for users, the type-guarded
    transfer between user wallets, and the checkpoint and audit records. Token
    program calls and the clock are parameters; a failed call or an arithmetic
    overflow aborts the instruction and leaves every account as it was. */
module Genesis {
  import opened Wrappers

  const U64Limit: nat := 0x1_0000_0000_0000_0000

  type U64 = n: nat | n < U64Limit

  type Pubkey = s: seq<bv8> | |s| == 32 witness seq(32, _ => 0)

  datatype WalletType = Os | User

  /** The program's declared errors, the two ways an instruction aborts without
      one (the token program refusing its call, a checked `u64` operation
      overflowing), and the refusal of a transfer from a wallet to itself. */
  datatype GenesisError =
    | InvalidWalletType
    | WalletFrozen
    | InsufficientBalance
    | AlreadyInitialized
    | TokenProgramFailed
    | ArithmeticOverflow
    | SameWallet

  /** `a + b` on `u64` with overflow checks on. */
  function CheckedAdd(a: U64, b: U64): (r: Option<U64>)
    ensures r.Some? <==> a + b < U64Limit
    ensures r.Some? ==> r.value == a + b
  {
    if a + b < U64Limit then Some(a + b) else None
  }

  /** `a - b` on `u64` with overflow checks on. */
  function CheckedSub(a: U64, b: U64): (r: Option<U64>)
    ensures r.Some? <==> b <= a
    ensures r.Some? ==> r.value + b == a
  {
    if b <= a then Some(a - b) else None
  }

  // ---------------------------------------------------------------------------
  // The genesis account

  datatype GenesisState = GenesisState(
    version: string, serial: string, btcBlockHash: string, btcBlockHeight: U64,
    spawnOrder: U64, genesisTimestamp: int, authority: Pubkey, osMint: Pubkey,
    userMint: Pubkey, totalOsSupply: U64, totalUserSupply: U64, totalWallets: U64,
    isInitialized: bool)

  /** A wallet mint request: which layer, how much, and whether the token program's
      `mint_to` succeeds. */
  datatype MintRequest = MintRequest(walletType: WalletType, value: U64, mintSucceeds: bool)

  /** The genesis counters after a wallet mint: the supply of the wallet's layer grows
      by the value and one more wallet is counted. */
  function MintTotals(g: GenesisState, m: MintRequest): (r: Result<GenesisState, GenesisError>)
    ensures !m.mintSucceeds ==> r == Err(TokenProgramFailed)
    ensures r.Err? ==> r.error == TokenProgramFailed || r.error == ArithmeticOverflow
    ensures r.Ok? <==> (m.mintSucceeds && g.totalWallets + 1 < U64Limit
                        && (if m.walletType == Os then g.totalOsSupply else g.totalUserSupply) + m.value < U64Limit)
    ensures r.Ok? ==> r.value.totalWallets == g.totalWallets + 1
    ensures r.Ok? && m.walletType == Os ==>
      r.value.totalOsSupply == g.totalOsSupply + m.value && r.value.totalUserSupply == g.totalUserSupply
    ensures r.Ok? && m.walletType == User ==>
      r.value.totalUserSupply == g.totalUserSupply + m.value && r.value.totalOsSupply == g.totalOsSupply
    ensures r.Ok? ==> r.value.(totalOsSupply := g.totalOsSupply, totalUserSupply := g.totalUserSupply,
                               totalWallets := g.totalWallets) == g
  {
    if !m.mintSucceeds then Err(TokenProgramFailed)
    else
      var supply := if m.walletType == Os then CheckedAdd(g.totalOsSupply, m.value)
                    else CheckedAdd(g.totalUserSupply, m.value);
      var wallets := CheckedAdd(g.totalWallets, 1);
      if supply.None? || wallets.None? then Err(ArithmeticOverflow)
      else if m.walletType == Os then Ok(g.(totalOsSupply := supply.value, totalWallets := wallets.value))
      else Ok(g.(totalUserSupply := supply.value, totalWallets := wallets.value))
  }

  /** The genesis counters after a run of mint requests, each applied when it
      succeeds and dropped (the instruction reverted) when it fails. */
  function Replay(g: GenesisState, ms: seq<MintRequest>): (r: GenesisState)
    decreases |ms|
  {
    if ms == [] then g
    else
      match MintTotals(g, ms[0])
      case Ok(next) => Replay(next, ms[1..])
      case Err(_) => Replay(g, ms[1..])
  }

  /** How many of the requests succeed, and the total value of those of one layer. */
  function Accepted(g: GenesisState, ms: seq<MintRequest>, layer: WalletType): (r: (nat, nat))
    decreases |ms|
  {
    if ms == [] then (0, 0)
    else
      match MintTotals(g, ms[0])
      case Ok(next) =>
        var rest := Accepted(next, ms[1..], layer);
        (rest.0 + 1, rest.1 + (if ms[0].walletType == layer then ms[0].value else 0))
      case Err(_) => Accepted(g, ms[1..], layer)
  }

  /** Over any run of mints the wallet counter counts exactly the mints that went
      through, each supply is the start plus the value they minted in its layer,
      and nothing but the counters changes. */
  lemma {:induction false} ReplayCounts(g: GenesisState, ms: seq<MintRequest>)
    ensures Replay(g, ms).totalWallets == g.totalWallets + Accepted(g, ms, Os).0
    ensures Accepted(g, ms, Os).0 == Accepted(g, ms, User).0
    ensures Replay(g, ms).totalOsSupply == g.totalOsSupply + Accepted(g, ms, Os).1
    ensures Replay(g, ms).totalUserSupply == g.totalUserSupply + Accepted(g, ms, User).1
    ensures Replay(g, ms).(totalOsSupply := g.totalOsSupply, totalUserSupply := g.totalUserSupply,
                           totalWallets := g.totalWallets) == g
    decreases |ms|
  {
    if ms != [] {
      match MintTotals(g, ms[0])
      case Ok(next) => ReplayCounts(next, ms[1..]);
      case Err(_) => ReplayCounts(g, ms[1..]);
    }
  }

  class GenesisAccount {
    const key: Pubkey
    var version: string
    var serial: string
    var btcBlockHash: string
    var btcBlockHeight: U64
    var spawnOrder: U64
    var genesisTimestamp: int
    var authority: Pubkey
    var osMint: Pubkey
    var userMint: Pubkey
    var totalOsSupply: U64
    var totalUserSupply: U64
    var totalWallets: U64
    var isInitialized: bool

    function State(): GenesisState
      reads this
    {
      GenesisState(version, serial, btcBlockHash, btcBlockHeight, spawnOrder, genesisTimestamp,
                   authority, osMint, userMint, totalOsSupply, totalUserSupply, totalWallets,
                   isInitialized)
    }

    /** `initialize` on a fresh genesis account: records the version, serial, the
        Bitcoin block and the mints, stamps the clock, counts this as the first
        instance and zeroes every total. */
    constructor Initialize(key: Pubkey, version: string, serial: string, btcBlockHash: string,
                           btcBlockHeight: U64, now: int, authority: Pubkey, osMint: Pubkey,
                           userMint: Pubkey)
      ensures this.key == key
      ensures State() == GenesisState(version, serial, btcBlockHash, btcBlockHeight, 1, now,
                                      authority, osMint, userMint, 0, 0, 0, true)
    {
      this.key := key;
      this.version := version;
      this.serial := serial;
      this.btcBlockHash := btcBlockHash;
      this.btcBlockHeight := btcBlockHeight;
      spawnOrder := 1;
      genesisTimestamp := now;
      this.authority := authority;
      this.osMint := osMint;
      this.userMint := userMint;
      totalOsSupply := 0;
      totalUserSupply := 0;
      totalWallets := 0;
      isInitialized := true;
    }
  }

  // ---------------------------------------------------------------------------
  // Wallets

  datatype WalletState = WalletState(
    path: string, value: U64, btcHash: string, btcHeight: U64, timestamp: int,
    isFrozen: bool, walletType: WalletType, owner: Pubkey, parent: Option<Pubkey>)

  class Wallet {
    const key: Pubkey
    var path: string
    var value: U64
    var btcHash: string
    var btcHeight: U64
    var timestamp: int
    var isFrozen: bool
    var walletType: WalletType
    var owner: Pubkey
    var parent: Option<Pubkey>

    function State(): WalletState
      reads this
    {
      WalletState(path, value, btcHash, btcHeight, timestamp, isFrozen, walletType, owner, parent)
    }

    /** A freshly created wallet account with its fields assigned. */
    constructor (key: Pubkey, s: WalletState)
      ensures this.key == key && State() == s
    {
      this.key := key;
      path := s.path;
      value := s.value;
      btcHash := s.btcHash;
      btcHeight := s.btcHeight;
      timestamp := s.timestamp;
      isFrozen := s.isFrozen;
      walletType := s.walletType;
      owner := s.owner;
      parent := s.parent;
    }
  }

  /** `mint_os_wallet`: a frozen OS wallet owned by the genesis account, holding the
      minted value; the OS supply grows by the value and one more wallet is counted.
      A failed `mint_to` or an overflowing total reverts everything. */
  method MintOsWallet(genesis: GenesisAccount, walletKey: Pubkey, path: string, value: U64,
                      btcHash: string, btcHeight: U64, now: int, mintSucceeds: bool)
    returns (r: Result<Wallet, GenesisError>)
    modifies genesis
    ensures var m := MintTotals(old(genesis.State()), MintRequest(Os, value, mintSucceeds));
      (r.Ok? <==> m.Ok?)
      && (r.Ok? ==> genesis.State() == m.value)
      && (r.Err? ==> r.error == m.error && genesis.State() == old(genesis.State()))
    ensures r.Ok? ==> (fresh(r.value) && r.value.key == walletKey
                       && r.value.State() == WalletState(path, value, btcHash, btcHeight, now, true, Os, genesis.key, None))
  {
    if !mintSucceeds {
      return Err(TokenProgramFailed);
    }
    if genesis.totalOsSupply + value >= U64Limit || genesis.totalWallets + 1 >= U64Limit {
      return Err(ArithmeticOverflow);
    }
    var wallet := new Wallet(walletKey,
      WalletState(path, value, btcHash, btcHeight, now, true, Os, genesis.key, None));
    genesis.totalOsSupply := genesis.totalOsSupply + value;
    genesis.totalWallets := genesis.totalWallets + 1;
    r := Ok(wallet);
  }

  /** `mint_user_wallet`: an unfrozen user wallet owned by the user, with its parent
      recorded, holding the minted value; the user supply grows by the value and
      one more wallet is counted. A failed `mint_to` or an overflowing total
      reverts everything. */
  method MintUserWallet(genesis: GenesisAccount, walletKey: Pubkey, user: Pubkey, userId: string,
                        parentWallet: Option<Pubkey>, value: U64, btcHash: string, btcHeight: U64,
                        now: int, mintSucceeds: bool)
    returns (r: Result<Wallet, GenesisError>)
    modifies genesis
    ensures var m := MintTotals(old(genesis.State()), MintRequest(User, value, mintSucceeds));
      (r.Ok? <==> m.Ok?)
      && (r.Ok? ==> genesis.State() == m.value)
      && (r.Err? ==> r.error == m.error && genesis.State() == old(genesis.State()))
    ensures r.Ok? ==> (fresh(r.value) && r.value.key == walletKey
                       && r.value.State() == WalletState(userId, value, btcHash, btcHeight, now, false, User, user, parentWallet))
  {
    if !mintSucceeds {
      return Err(TokenProgramFailed);
    }
    if genesis.totalUserSupply + value >= U64Limit || genesis.totalWallets + 1 >= U64Limit {
      return Err(ArithmeticOverflow);
    }
    var wallet := new Wallet(walletKey,
      WalletState(userId, value, btcHash, btcHeight, now, false, User, user, parentWallet));
    genesis.totalUserSupply := genesis.totalUserSupply + value;
    genesis.totalWallets := genesis.totalWallets + 1;
    r := Ok(wallet);
  }

  // ---------------------------------------------------------------------------
  // Transfers between user wallets

  /** The two wallets after `transfer_user_tokens`: both must be user wallets, the
      token program must move the tokens, and the value moves from one to the other. */
  function Transfer(from: WalletState, to: WalletState, amount: U64, transferSucceeds: bool)
    : (r: Result<(WalletState, WalletState), GenesisError>)
    ensures from.walletType != User || to.walletType != User ==> r == Err(InvalidWalletType)
    ensures r.Ok? <==> (from.walletType == User && to.walletType == User && transferSucceeds
                        && amount <= from.value && to.value + amount < U64Limit)
    ensures r.Ok? ==> (r.value.0 == from.(value := r.value.0.value)
                       && r.value.1 == to.(value := r.value.1.value))
    ensures r.Ok? ==> r.value.0.value + amount == from.value && r.value.1.value == to.value + amount
  {
    if from.walletType != User || to.walletType != User then Err(InvalidWalletType)
    else if !transferSucceeds then Err(TokenProgramFailed)
    else
      match (CheckedSub(from.value, amount), CheckedAdd(to.value, amount))
      case (Some(f), Some(t)) => Ok((from.(value := f), to.(value := t)))
      case _ => Err(ArithmeticOverflow)
  }

  /** A transfer moves value and creates none: the two wallets hold the same sum. */
  lemma TransferConserves(from: WalletState, to: WalletState, amount: U64, transferSucceeds: bool)
    requires Transfer(from, to, amount, transferSucceeds).Ok?
    ensures var (f, t) := Transfer(from, to, amount, transferSucceeds).value;
      f.value + t.value == from.value + to.value
  {
  }

  /** An OS wallet can take part in no transfer, whatever the amount. */
  lemma OsWalletsNeverTransfer(from: WalletState, to: WalletState, amount: U64, transferSucceeds: bool)
    requires from.walletType == Os || to.walletType == Os
    ensures Transfer(from, to, amount, transferSucceeds) == Err(InvalidWalletType)
  {
  }

  /** `transfer_user_tokens` as written, when the same wallet account is passed as
      both `from_wallet` and `to_wallet`: each side works on its own copy of the
      account, the token program moves the tokens between one token account and
      itself, and the copy written back last, the receiving one, keeps its value
      raised by the amount. */
  function SelfTransferAsWritten(w: WalletState, amount: U64, transferSucceeds: bool)
    : (r: Result<WalletState, GenesisError>)
    ensures r.Ok? <==> (w.walletType == User && transferSucceeds
                        && amount <= w.value && w.value + amount < U64Limit)
    ensures r.Ok? ==> r.value == w.(value := r.value.value)
  {
    match Transfer(w, w, amount, transferSucceeds)
    case Ok((_, received)) => Ok(received)
    case Err(e) => Err(e)
  }

  /** A transfer of one token from a user wallet holding one to itself: the wallet's
      recorded value doubles, though no token was minted. */
  lemma SelfTransferInflates(w: WalletState)
    requires w.walletType == User && w.value == 1
    ensures SelfTransferAsWritten(w, 1, true) == Ok(w.(value := 2))
  {
    assert Transfer(w, w, 1, true) == Ok((w.(value := 0), w.(value := 2)));
  }

  /** `transfer_user_tokens` with a wallet refused as its own counterpart, so that
      every successful transfer keeps the sum of the two values. */
  method TransferUserTokens(from: Wallet, to: Wallet, amount: U64, transferSucceeds: bool)
    returns (r: Result<(), GenesisError>)
    modifies from, to
    ensures from == to ==> r == Err(SameWallet) && from.State() == old(from.State())
    ensures from != to ==>
      var t := Transfer(old(from.State()), old(to.State()), amount, transferSucceeds);
      (r.Ok? <==> t.Ok?)
      && (r.Ok? ==> from.State() == t.value.0 && to.State() == t.value.1)
      && (r.Err? ==> r.error == t.error && from.State() == old(from.State()) && to.State() == old(to.State()))
    ensures r.Ok? ==> from.value + to.value == old(from.value) + old(to.value)
  {
    if from == to {
      return Err(SameWallet);
    }
    if from.walletType != User || to.walletType != User {
      return Err(InvalidWalletType);
    }
    if !transferSucceeds {
      return Err(TokenProgramFailed);
    }
    if amount > from.value || to.value + amount >= U64Limit {
      return Err(ArithmeticOverflow);
    }
    from.value := from.value - amount;
    to.value := to.value + amount;
    r := Ok(());
  }

  // ---------------------------------------------------------------------------
  // Checkpoints and audit records

  class Checkpoint {
    const key: Pubkey
    var name: string
    var btcHash: string
    var btcHeight: U64
    var timestamp: int
    var eventData: string
    var genesis: Pubkey

    /** `btc_checkpoint`: a fresh record copying its arguments, the clock and the
        genesis account's key. */
    constructor Record(key: Pubkey, genesisKey: Pubkey, name: string, btcHash: string,
                       btcHeight: U64, eventData: string, now: int)
      ensures this.key == key && this.name == name && this.btcHash == btcHash
      ensures this.btcHeight == btcHeight && timestamp == now && this.eventData == eventData
      ensures genesis == genesisKey
    {
      this.key := key;
      this.name := name;
      this.btcHash := btcHash;
      this.btcHeight := btcHeight;
      timestamp := now;
      this.eventData := eventData;
      genesis := genesisKey;
    }
  }

  class AuditLog {
    const key: Pubkey
    var eventType: string
    var target: string
    var actor: Pubkey
    var btcHash: string
    var btcHeight: U64
    var timestamp: int

    /** `audit_event`: a fresh record copying its arguments, the actor's key and the
        clock. */
    constructor Record(key: Pubkey, actor: Pubkey, eventType: string, target: string,
                       btcHash: string, btcHeight: U64, now: int)
      ensures this.key == key && this.eventType == eventType && this.target == target
      ensures this.actor == actor && this.btcHash == btcHash && this.btcHeight == btcHeight
      ensures timestamp == now
    {
      this.key := key;
      this.eventType := eventType;
      this.target := target;
      this.actor := actor;
      this.btcHash := btcHash;
      this.btcHeight := btcHeight;
      timestamp := now;
    }
  }
}
