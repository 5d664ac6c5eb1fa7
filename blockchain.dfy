/**
 * The blockchain and smart-contract simulator: a bounded security-event log
 * with a saturating threat level, signed transactions, blocks with a Merkle
 * root and proof-of-work mining, the account ledger with transfers and a FIFO
 * pending queue, chain append and validation, a gas-metered stack machine and
 * the peer list of a network node.
 *
 * SHA-256 (over a string, rendered as lower-case hex) and the JSON-then-SHA
 * hash of a transaction are parameters `sha` and `txHash`; clocks are
 * parameters `now`.
 */
module ChainSimulator {
  import opened Wrappers
  import opened Bounded
  import opened Text

  // ---------------------------------------------------------------------
  // Numbers

  const U64: nat := 0x1_0000_0000_0000_0000

  /** A Rust `u64`. */
  type U64Value = x: nat | x < U64

  // ---------------------------------------------------------------------
  // Security monitor

  datatype SecurityEvent = SecurityEvent(eventType: string, timestamp: nat, details: string, severity: string, source: string)

  const EventLogCap: nat := 1000
  const MaxThreatLevel: nat := 100

  /** How much an event of each severity raises the threat level. */
  function SeverityScore(severity: string): (score: nat)
    ensures score <= 20
    ensures score > 0 <==> severity in {"critical", "high", "medium", "low"}
  {
    match severity
    case "critical" => 20
    case "high" => 10
    case "medium" => 5
    case "low" => 1
    case _ => 0
  }

  /** `(level + score).min(100)`. */
  function RaiseThreat(level: nat, severity: string): (r: nat)
    ensures r <= MaxThreatLevel
    ensures level <= MaxThreatLevel ==> level <= r
    ensures r == MaxThreatLevel || r == level + SeverityScore(severity)
  {
    if level + SeverityScore(severity) < MaxThreatLevel then level + SeverityScore(severity) else MaxThreatLevel
  }

  class SecurityMonitor {
    var events: seq<SecurityEvent>
    /** Every event logged since construction. */
    ghost var logged: seq<SecurityEvent>
    var threatLevel: nat

    ghost predicate Valid()
      reads this
    {
      events == KeepLast(logged, EventLogCap) && threatLevel <= MaxThreatLevel
    }

    constructor ()
      ensures Valid() && events == [] && logged == [] && threatLevel == 0
    {
      events, logged, threatLevel := [], [], 0;
    }

    /** `log_event`: append, drain the surplus over 1000 from the front, raise the threat level. */
    method LogEvent(eventType: string, details: string, severity: string, source: string, now: nat)
      requires Valid()
      modifies this
      ensures Valid()
      ensures logged == old(logged) + [SecurityEvent(eventType, now, details, severity, source)]
      ensures threatLevel == RaiseThreat(old(threatLevel), severity)
    {
      var event := SecurityEvent(eventType, now, details, severity, source);
      KeepLastPush(logged, event, EventLogCap);
      events := KeepLast(events + [event], EventLogCap);
      logged := logged + [event];
      threatLevel := RaiseThreat(threatLevel, severity);
    }

    method ResetThreatLevel()
      requires Valid()
      modifies this`threatLevel
      ensures Valid() && threatLevel == 0
    {
      threatLevel := 0;
    }
  }

  /** The log keeps the most recent 1000 events in logging order. */
  lemma EventLogIsRecentWindow(logged: seq<SecurityEvent>)
    ensures |KeepLast(logged, EventLogCap)| == if |logged| < EventLogCap then |logged| else EventLogCap
    ensures forall i :: 0 <= i < |KeepLast(logged, EventLogCap)| ==>
      KeepLast(logged, EventLogCap)[i] == logged[|logged| - |KeepLast(logged, EventLogCap)| + i]
  {
    KeepLastIsSuffix(logged, EventLogCap);
  }

  // ---------------------------------------------------------------------
  // Transactions and blocks

  datatype Transaction = Transaction(
    id: string, from: string, to: string, amount: U64Value, timestamp: U64Value, signature: string, gasFee: U64Value)

  /** `sign_transaction`: the hash of the id followed by the key. */
  function Sign(id: string, key: string, sha: string -> string): string
  {
    sha(id + key)
  }

  /** `Transaction::new`: the id "from-to-amount-timestamp", signed with the sender's name as key. */
  function NewTransaction(from: string, to: string, amount: U64Value, gasFee: U64Value, now: U64Value, sha: string -> string): (tx: Transaction)
    ensures tx.from == from && tx.to == to && tx.amount == amount && tx.gasFee == gasFee
  {
    var id := from + "-" + to + "-" + NatToString(amount) + "-" + NatToString(now);
    Transaction(id, from, to, amount, now, Sign(id, from, sha), gasFee)
  }

  function VerifySignature(tx: Transaction, sha: string -> string): bool
  {
    tx.signature == Sign(tx.id, tx.from, sha)
  }

  /** A freshly created transaction verifies, whatever the hash function. */
  lemma NewTransactionVerifies(from: string, to: string, amount: U64Value, gasFee: U64Value, now: U64Value, sha: string -> string)
    ensures VerifySignature(NewTransaction(from, to, amount, gasFee, now, sha), sha)
  {
  }

  /** Changing the signature of a verified transaction makes it fail verification. */
  lemma TamperedSignatureFails(tx: Transaction, forged: string, sha: string -> string)
    requires VerifySignature(tx, sha) && forged != tx.signature
    ensures !VerifySignature(tx.(signature := forged), sha)
  {
  }

  datatype Block = Block(
    index: nat, timestamp: nat, transactions: seq<Transaction>, previousHash: string,
    hash: string, nonce: nat, merkleRoot: string, validator: string)

  /** `Block::calculate_hash`: the hash of the decimal index and timestamp, previous hash, root, nonce and validator. */
  function BlockHash(b: Block, sha: string -> string): string
  {
    sha(NatToString(b.index) + NatToString(b.timestamp) + b.previousHash + b.merkleRoot + NatToString(b.nonce) + b.validator)
  }

  /** One entry of the next Merkle level: the hash of a pair, or of an odd last entry with itself. */
  function ChunkHash(hs: seq<string>, j: nat, sha: string -> string): string
    requires j < (|hs| + 1) / 2
  {
    if 2 * j + 1 < |hs| then sha(hs[2 * j] + hs[2 * j + 1]) else sha(hs[2 * j] + hs[2 * j])
  }

  function MerkleLevel(hs: seq<string>, sha: string -> string): (next: seq<string>)
    ensures |next| == (|hs| + 1) / 2
    ensures |hs| > 1 ==> 0 < |next| < |hs|
    ensures forall j :: 0 <= j < |next| ==> next[j] == ChunkHash(hs, j, sha)
  {
    seq((|hs| + 1) / 2, j requires 0 <= j < (|hs| + 1) / 2 => ChunkHash(hs, j, sha))
  }

  /** Levels are built until one hash is left. */
  function MerkleReduce(hs: seq<string>, sha: string -> string): string
    requires |hs| > 0
    decreases |hs|
  {
    if |hs| == 1 then hs[0] else MerkleReduce(MerkleLevel(hs, sha), sha)
  }

  function TxHashes(txs: seq<Transaction>, txHash: Transaction -> string): (hs: seq<string>)
    ensures |hs| == |txs| && forall i :: 0 <= i < |txs| ==> hs[i] == txHash(txs[i])
  {
    seq(|txs|, i requires 0 <= i < |txs| => txHash(txs[i]))
  }

  function MerkleRoot(txs: seq<Transaction>, sha: string -> string, txHash: Transaction -> string): string
  {
    if |txs| == 0 then "0" else MerkleReduce(TxHashes(txs, txHash), sha)
  }

  /** No transactions give "0", one gives its own hash, two give the hash of both hashes. */
  lemma MerkleRootSmallCases(sha: string -> string, txHash: Transaction -> string, t0: Transaction, t1: Transaction, t2: Transaction)
    ensures MerkleRoot([], sha, txHash) == "0"
    ensures MerkleRoot([t0], sha, txHash) == txHash(t0)
    ensures MerkleRoot([t0, t1], sha, txHash) == sha(txHash(t0) + txHash(t1))
    ensures MerkleRoot([t0, t1, t2], sha, txHash)
            == sha(sha(txHash(t0) + txHash(t1)) + sha(txHash(t2) + txHash(t2)))
  {
    assert TxHashes([t0], txHash) == [txHash(t0)];
    var h2 := TxHashes([t0, t1], txHash);
    assert h2 == [txHash(t0), txHash(t1)];
    assert MerkleLevel(h2, sha) == [sha(txHash(t0) + txHash(t1))];
    assert MerkleReduce(h2, sha) == MerkleReduce([sha(txHash(t0) + txHash(t1))], sha);
    var h3 := TxHashes([t0, t1, t2], txHash);
    assert h3 == [txHash(t0), txHash(t1), txHash(t2)];
    var l3 := MerkleLevel(h3, sha);
    assert l3 == [sha(txHash(t0) + txHash(t1)), sha(txHash(t2) + txHash(t2))];
    assert MerkleLevel(l3, sha) == [sha(l3[0] + l3[1])];
    assert MerkleReduce(h3, sha) == MerkleReduce(l3, sha) == MerkleReduce([sha(l3[0] + l3[1])], sha);
  }

  /** `calculate_merkle_root`: the `while` loop that rebuilds the level from chunks of two. */
  method CalculateMerkleRoot(txs: seq<Transaction>, sha: string -> string, txHash: Transaction -> string) returns (root: string)
    ensures root == MerkleRoot(txs, sha, txHash)
  {
    if |txs| == 0 {
      return "0";
    }
    var hashes := TxHashes(txs, txHash);
    while |hashes| > 1
      invariant |hashes| > 0
      invariant MerkleReduce(hashes, sha) == MerkleRoot(txs, sha, txHash)
      decreases |hashes|
    {
      var next: seq<string> := [];
      var j := 0;
      while j < (|hashes| + 1) / 2
        invariant 0 <= j <= (|hashes| + 1) / 2
        invariant |next| == j && forall k :: 0 <= k < j ==> next[k] == ChunkHash(hashes, k, sha)
      {
        next := next + [ChunkHash(hashes, j, sha)];
        j := j + 1;
      }
      assert next == MerkleLevel(hashes, sha);
      hashes := next;
    }
    root := hashes[0];
  }

  /** `Block::new`: the Merkle root of the transactions, nonce 0, and the block's own hash. */
  function NewBlock(index: nat, txs: seq<Transaction>, previousHash: string, validator: string, now: nat,
                    sha: string -> string, txHash: Transaction -> string): (b: Block)
    ensures b.index == index && b.transactions == txs && b.previousHash == previousHash && b.validator == validator
    ensures b.merkleRoot == MerkleRoot(txs, sha, txHash) && b.nonce == 0
    ensures b.hash == BlockHash(b, sha)
  {
    var unhashed := Block(index, now, txs, previousHash, "", 0, MerkleRoot(txs, sha, txHash), validator);
    unhashed.(hash := BlockHash(unhashed, sha))
  }

  // ---------------------------------------------------------------------
  // Mining

  /** The nonce past which mining gives up. */
  const MiningNonceCap: nat := 1_000_000

  function Zeros(n: nat): (z: string)
    ensures |z| == n && forall i :: 0 <= i < n ==> z[i] == '0'
  {
    seq(n, _ => '0')
  }

  /** The block's hash, at the given nonce, meets the difficulty target. */
  predicate MeetsTarget(b: Block, nonce: nat, difficulty: nat, sha: string -> string)
  {
    HasPrefix(Zeros(difficulty), BlockHash(b.(nonce := nonce), sha))
  }

  /**
   * `mine_block`: hash, test the target, bump the nonce, give up once it
   * passes one million. On success every nonce tried before failed the target.
   */
  method MineBlock(block: Block, difficulty: nat, sha: string -> string) returns (mined: Block, r: Result<(), string>)
    ensures mined.(nonce := block.nonce, hash := block.hash) == block && mined.nonce >= block.nonce
    ensures mined.index == block.index && mined.previousHash == block.previousHash && mined.transactions == block.transactions
    ensures r.Ok? ==> mined.hash == BlockHash(mined, sha) && HasPrefix(Zeros(difficulty), mined.hash)
    ensures r.Ok? ==> forall n :: block.nonce <= n < mined.nonce ==> !MeetsTarget(block, n, difficulty, sha)
    ensures r.Err? ==> r.error == "Mining timeout" && mined.nonce > MiningNonceCap
  {
    mined := block;
    while true
      invariant mined.(nonce := block.nonce, hash := block.hash) == block && mined.nonce >= block.nonce
      invariant mined.nonce > block.nonce ==> mined.nonce <= MiningNonceCap
      invariant forall n :: block.nonce <= n < mined.nonce ==> !MeetsTarget(block, n, difficulty, sha)
      decreases if mined.nonce <= MiningNonceCap then MiningNonceCap + 1 - mined.nonce else MiningNonceCap + 2
    {
      mined := mined.(hash := BlockHash(mined, sha));
      if HasPrefix(Zeros(difficulty), mined.hash) {
        return mined, Ok(());
      }
      assert mined.(nonce := block.nonce, hash := block.hash).(nonce := mined.nonce) == mined.(hash := block.hash);
      assert !MeetsTarget(block, mined.nonce, difficulty, sha);
      mined := mined.(nonce := mined.nonce + 1);
      if mined.nonce > MiningNonceCap {
        return mined, Err("Mining timeout");
      }
    }
  }

  // ---------------------------------------------------------------------
  // Ledger

  /** An account; its contract storage is not modelled. */
  datatype Account = Account(address: string, balance: nat, nonce: nat, contractCode: Option<string>)

  function NewAccount(address: string, initialBalance: nat): Account
  {
    Account(address, initialBalance, 0, None)
  }

  /** The sum of all balances. */
  ghost function Total(accounts: map<string, Account>): nat
    decreases |accounts.Keys|
  {
    if accounts == map[] then 0
    else
      var k :| k in accounts;
      accounts[k].balance + Total(accounts - {k})
  }

  lemma {:induction false} TotalRemove(accounts: map<string, Account>, k: string)
    requires k in accounts
    ensures Total(accounts) == accounts[k].balance + Total(accounts - {k})
    decreases |accounts.Keys|
  {
    var j :| j in accounts && Total(accounts) == accounts[j].balance + Total(accounts - {j});
    if j != k {
      TotalRemove(accounts - {j}, k);
      TotalRemove(accounts - {k}, j);
      assert accounts - {j} - {k} == accounts - {k} - {j};
    }
  }

  /** Replacing one account's balance changes the total by the difference. */
  lemma TotalUpdate(accounts: map<string, Account>, k: string, a: Account)
    requires k in accounts
    ensures Total(accounts[k := a]) + accounts[k].balance == Total(accounts) + a.balance
  {
    TotalRemove(accounts, k);
    TotalRemove(accounts[k := a], k);
    assert accounts[k := a] - {k} == accounts - {k};
  }

  /**
   * `transfer`: a missing sender or a short balance changes nothing; otherwise
   * the sender is debited and its nonce bumped first, and only then is the
   * receiver looked up, so a missing receiver leaves the debit in place.
   */
  function TransferSpec(accounts: map<string, Account>, from: string, to: string, amount: nat)
    : (r: (map<string, Account>, Result<(), string>))
    ensures from !in accounts ==> r == (accounts, Err("Sender not found"))
    ensures from in accounts && accounts[from].balance < amount ==> r == (accounts, Err("Insufficient balance"))
    ensures r.0.Keys == accounts.Keys
  {
    if from !in accounts then (accounts, Err("Sender not found"))
    else if accounts[from].balance < amount then (accounts, Err("Insufficient balance"))
    else
      var sender := accounts[from];
      var debited := accounts[from := sender.(balance := sender.balance - amount, nonce := sender.nonce + 1)];
      if to !in debited then (debited, Err("Receiver not found"))
      else (debited[to := debited[to].(balance := debited[to].balance + amount)], Ok(()))
  }

  /** A successful transfer conserves the total balance. */
  lemma TransferConserves(accounts: map<string, Account>, from: string, to: string, amount: nat)
    requires TransferSpec(accounts, from, to, amount).1.Ok?
    ensures Total(TransferSpec(accounts, from, to, amount).0) == Total(accounts)
  {
    var sender := accounts[from];
    var debited := accounts[from := sender.(balance := sender.balance - amount, nonce := sender.nonce + 1)];
    TotalUpdate(accounts, from, debited[from]);
    TotalUpdate(debited, to, debited[to].(balance := debited[to].balance + amount));
  }

  /** A successful transfer between two accounts moves `amount` and bumps only the sender's nonce. */
  lemma TransferEffects(accounts: map<string, Account>, from: string, to: string, amount: nat)
    requires from != to && TransferSpec(accounts, from, to, amount).1.Ok?
    ensures var after := TransferSpec(accounts, from, to, amount).0;
            after[from].balance == accounts[from].balance - amount && after[from].nonce == accounts[from].nonce + 1
            && after[to].balance == accounts[to].balance + amount && after[to].nonce == accounts[to].nonce
            && forall k :: k in accounts && k != from && k != to ==> after[k] == accounts[k]
  {
  }

  /** A transfer to an unknown receiver fails after the debit, so `amount` leaves the ledger. */
  lemma TransferToMissingReceiverLosesFunds(accounts: map<string, Account>, from: string, to: string, amount: nat)
    requires from in accounts && accounts[from].balance >= amount && to !in accounts
    ensures TransferSpec(accounts, from, to, amount).1 == Err("Receiver not found")
    ensures Total(TransferSpec(accounts, from, to, amount).0) + amount == Total(accounts)
    ensures TransferSpec(accounts, from, to, amount).0[from].nonce == accounts[from].nonce + 1
  {
    var sender := accounts[from];
    TotalUpdate(accounts, from, sender.(balance := sender.balance - amount, nonce := sender.nonce + 1));
  }

  class BlockchainState {
    var accounts: map<string, Account>
    var pending: seq<Transaction>

    constructor ()
      ensures accounts == map[] && pending == []
    {
      accounts, pending := map[], [];
    }

    /** `create_account`: insert, replacing any account already at that address. */
    method CreateAccount(address: string, initialBalance: U64Value)
      modifies this`accounts
      ensures accounts == old(accounts)[address := NewAccount(address, initialBalance)]
    {
      accounts := accounts[address := NewAccount(address, initialBalance)];
    }

    function GetBalance(address: string): (b: Option<nat>)
      reads this
      ensures b.Some? <==> address in accounts
      ensures b.Some? ==> b.value == accounts[address].balance
    {
      if address in accounts then Some(accounts[address].balance) else None
    }

    method Transfer(from: string, to: string, amount: nat) returns (r: Result<(), string>)
      modifies this`accounts
      ensures (accounts, r) == TransferSpec(old(accounts), from, to, amount)
    {
      if from !in accounts {
        return Err("Sender not found");
      }
      var sender := accounts[from];
      if sender.balance < amount {
        return Err("Insufficient balance");
      }
      accounts := accounts[from := sender.(balance := sender.balance - amount, nonce := sender.nonce + 1)];
      if to !in accounts {
        return Err("Receiver not found");
      }
      accounts := accounts[to := accounts[to].(balance := accounts[to].balance + amount)];
      r := Ok(());
    }

    method AddPendingTransaction(tx: Transaction)
      modifies this`pending
      ensures pending == old(pending) + [tx]
    {
      pending := pending + [tx];
    }

    /** `get_pending_transactions`: drain and return the first min(limit, len) in arrival order. */
    method GetPendingTransactions(limit: nat) returns (txs: seq<Transaction>)
      modifies this`pending
      ensures |txs| == if limit < |old(pending)| then limit else |old(pending)|
      ensures old(pending) == txs + pending
    {
      var n := if limit < |pending| then limit else |pending|;
      txs := pending[..n];
      pending := pending[n..];
    }
  }

  /** The ways a transaction of a block can fail: a bad signature, or one of the transfer's errors. */
  const TransactionErrors: set<string> :=
    {"Invalid transaction signature", "Sender not found", "Insufficient balance", "Receiver not found"}

  /** Transactions of a block in order: each must verify and transfer, and the first failure stops the rest. */
  function ApplyTransactions(accounts: map<string, Account>, txs: seq<Transaction>, sha: string -> string)
    : (r: (map<string, Account>, Result<(), string>))
    ensures r.1.Err? ==> r.1.error in TransactionErrors
    decreases |txs|
  {
    if |txs| == 0 then (accounts, Ok(()))
    else if !VerifySignature(txs[0], sha) then (accounts, Err("Invalid transaction signature"))
    else
      var step := TransferSpec(accounts, txs[0].from, txs[0].to, txs[0].amount);
      if step.1.Err? then step else ApplyTransactions(step.0, txs[1..], sha)
  }

  /** A block whose transactions all succeed conserves the total balance. */
  lemma {:induction false} ApplyTransactionsConserves(accounts: map<string, Account>, txs: seq<Transaction>, sha: string -> string)
    requires ApplyTransactions(accounts, txs, sha).1.Ok?
    ensures Total(ApplyTransactions(accounts, txs, sha).0) == Total(accounts)
    decreases |txs|
  {
    if |txs| > 0 {
      var step := TransferSpec(accounts, txs[0].from, txs[0].to, txs[0].amount);
      TransferConserves(accounts, txs[0].from, txs[0].to, txs[0].amount);
      ApplyTransactionsConserves(step.0, txs[1..], sha);
    }
  }

  // ---------------------------------------------------------------------
  // The chain

  datatype Consensus = ProofOfWork | ProofOfStake | DelegatedProofOfStake

  /** `validate_chain`: from the second block on, own hash, link to the previous hash, index one more. */
  predicate ValidChain(chain: seq<Block>, sha: string -> string)
  {
    forall i :: 1 <= i < |chain| ==>
      chain[i].hash == BlockHash(chain[i], sha)
      && chain[i].previousHash == chain[i - 1].hash
      && chain[i].index == chain[i - 1].index + 1
  }

  /** Appending a block that carries its own hash and links to the last block keeps the chain valid. */
  lemma ValidChainExtends(chain: seq<Block>, b: Block, sha: string -> string)
    requires |chain| > 0 && ValidChain(chain, sha)
    requires b.hash == BlockHash(b, sha)
    requires b.previousHash == chain[|chain| - 1].hash && b.index == chain[|chain| - 1].index + 1
    ensures ValidChain(chain + [b], sha)
  {
    var c := chain + [b];
    forall i | 1 <= i < |c|
      ensures c[i].hash == BlockHash(c[i], sha) && c[i].previousHash == c[i - 1].hash && c[i].index == c[i - 1].index + 1
    {
      if i < |chain| {
        assert c[i] == chain[i] && c[i - 1] == chain[i - 1];
      }
    }
  }

  /** A wrong link anywhere after the genesis block invalidates the chain. */
  lemma BrokenLinkInvalidates(chain: seq<Block>, i: nat, sha: string -> string)
    requires 1 <= i < |chain| && chain[i].previousHash != chain[i - 1].hash
    ensures !ValidChain(chain, sha)
  {
  }

  /** The consensus check of `add_block` for the two stake-based kinds. */
  function ValidatorCheck(consensus: Consensus, validators: seq<string>, validator: string): Result<(), string>
  {
    match consensus
    case ProofOfWork => Ok(())
    case ProofOfStake => if validator !in validators then Err("Invalid validator") else Ok(())
    case DelegatedProofOfStake =>
      if |validators| == 0 || validator !in validators then Err("Invalid delegate") else Ok(())
  }

  /** The delegated check's emptiness test adds nothing: both stake kinds accept exactly the listed validators. */
  lemma StakeChecksAgree(validators: seq<string>, validator: string)
    ensures ValidatorCheck(ProofOfStake, validators, validator).Ok?
            <==> ValidatorCheck(DelegatedProofOfStake, validators, validator).Ok?
  {
  }

  /** Create a block on top of a valid chain and append it: the chain stays valid. */
  lemma CreatedBlockKeepsChainValid(chain: seq<Block>, txs: seq<Transaction>, validator: string, now: nat,
                                    sha: string -> string, txHash: Transaction -> string)
    requires |chain| > 0 && ValidChain(chain, sha)
    ensures var last := chain[|chain| - 1];
            ValidChain(chain + [NewBlock(last.index + 1, txs, last.hash, validator, now, sha, txHash)], sha)
  {
    var last := chain[|chain| - 1];
    ValidChainExtends(chain, NewBlock(last.index + 1, txs, last.hash, validator, now, sha, txHash), sha);
  }

  class Blockchain {
    var chain: seq<Block>
    const state: BlockchainState
    const difficulty: nat
    const consensus: Consensus
    var validators: seq<string>

    ghost predicate Valid()
      reads this
    {
      |chain| > 0
    }

    /** `Blockchain::new`: a chain holding only the genesis block. */
    constructor (consensus: Consensus, difficulty: nat, now: nat, sha: string -> string, txHash: Transaction -> string)
      ensures Valid() && fresh(state)
      ensures chain == [NewBlock(0, [], "0", "genesis", now, sha, txHash)] && ValidChain(chain, sha)
      ensures state.accounts == map[] && state.pending == []
      ensures this.consensus == consensus && this.difficulty == difficulty && validators == []
    {
      chain := [NewBlock(0, [], "0", "genesis", now, sha, txHash)];
      state := new BlockchainState();
      this.difficulty := difficulty;
      this.consensus := consensus;
      validators := [];
    }

    function LatestBlock(): Block
      reads this
      requires Valid()
    {
      chain[|chain| - 1]
    }

    method AddValidator(v: string)
      modifies this`validators
      ensures validators == old(validators) + [v]
    {
      validators := validators + [v];
    }

    /**
     * `add_block`: check the index and previous hash, mine or check the
     * validator, run the transactions (stopping at the first failure, without
     * undoing the earlier ones), then append.
     */
    method AddBlock(block: Block, sha: string -> string) returns (r: Result<(), string>)
      requires Valid()
      modifies this`chain, state`accounts
      ensures Valid()
      ensures r.Err? ==> chain == old(chain)
      ensures block.index != old(chain[|chain| - 1].index) + 1 ==>
        r == Err("Invalid block index") && state.accounts == old(state.accounts)
      ensures block.index == old(chain[|chain| - 1].index) + 1 && block.previousHash != old(chain[|chain| - 1].hash) ==>
        r == Err("Invalid previous hash") && state.accounts == old(state.accounts)
      ensures ValidatorCheck(consensus, validators, block.validator).Err? ==>
        r.Err? && state.accounts == old(state.accounts)
      ensures r.Ok? ==>
        |chain| == |old(chain)| + 1 && chain[..|old(chain)|] == old(chain)
        && chain[|chain| - 1].(nonce := block.nonce, hash := block.hash) == block
        && (consensus.ProofOfWork? ==> chain[|chain| - 1].hash == BlockHash(chain[|chain| - 1], sha))
        && (!consensus.ProofOfWork? ==> chain[|chain| - 1] == block)
        && ApplyTransactions(old(state.accounts), block.transactions, sha) == (state.accounts, Ok(()))
      ensures r.Ok? && ValidChain(old(chain), sha) && (consensus.ProofOfWork? || block.hash == BlockHash(block, sha)) ==>
        ValidChain(chain, sha)
      ensures r == Err("Mining timeout") ==> state.accounts == old(state.accounts)
      ensures block.index == old(chain[|chain| - 1].index) + 1 && block.previousHash == old(chain[|chain| - 1].hash)
              && ValidatorCheck(consensus, validators, block.validator).Ok? ==>
        (consensus.ProofOfWork? && r == Err("Mining timeout") && state.accounts == old(state.accounts))
        || (state.accounts, r) == ApplyTransactions(old(state.accounts), block.transactions, sha)
    {
      var latest := chain[|chain| - 1];
      if block.index != latest.index + 1 {
        return Err("Invalid block index");
      }
      if block.previousHash != latest.hash {
        return Err("Invalid previous hash");
      }
      ghost var start := state.accounts;
      var b, sealed := Seal(block, sha);
      if sealed.Err? {
        return sealed;
      }
      var applied := ApplyBlockTransactions(b.transactions, sha);
      if applied.Err? {
        return applied;
      }
      assert applied.value == ();
      Append(b, sha);
      r := Ok(());
    }

    /** The last step of `add_block`: push the checked block, which keeps a valid chain valid. */
    method Append(b: Block, ghost sha: string -> string)
      requires Valid()
      requires b.index == chain[|chain| - 1].index + 1 && b.previousHash == chain[|chain| - 1].hash
      modifies this`chain
      ensures Valid() && chain == old(chain) + [b] && chain[..|old(chain)|] == old(chain)
      ensures ValidChain(old(chain), sha) && b.hash == BlockHash(b, sha) ==> ValidChain(chain, sha)
    {
      if ValidChain(chain, sha) && b.hash == BlockHash(b, sha) {
        ValidChainExtends(chain, b, sha);
      }
      chain := chain + [b];
      assert chain[..|old(chain)|] == old(chain);
    }

    /** The consensus step of `add_block`: mine under proof of work, otherwise check the validator. */
    method Seal(block: Block, sha: string -> string) returns (b: Block, r: Result<(), string>)
      ensures ValidatorCheck(consensus, validators, block.validator).Err? ==> r.Err?
      ensures b.index == block.index && b.previousHash == block.previousHash && b.transactions == block.transactions
      ensures b.(nonce := block.nonce, hash := block.hash) == block
      ensures r.Ok? && consensus.ProofOfWork? ==> b.hash == BlockHash(b, sha)
      ensures !consensus.ProofOfWork? ==> b == block
      ensures !consensus.ProofOfWork? ==> r == ValidatorCheck(consensus, validators, block.validator)
      ensures consensus.ProofOfWork? && r.Err? ==> r == Err("Mining timeout")
    {
      b := block;
      if consensus.ProofOfWork? {
        b, r := MineBlock(block, difficulty, sha);
      } else {
        r := ValidatorCheck(consensus, validators, block.validator);
      }
    }

    /** The transaction loop of `add_block`: verify and transfer each in turn, stopping at the first failure. */
    method ApplyBlockTransactions(txs: seq<Transaction>, sha: string -> string) returns (r: Result<(), string>)
      modifies state`accounts
      ensures (state.accounts, r) == ApplyTransactions(old(state.accounts), txs, sha)
    {
      for i := 0 to |txs|
        invariant ApplyTransactions(old(state.accounts), txs, sha) == ApplyTransactions(state.accounts, txs[i..], sha)
      {
        var tx := txs[i];
        assert txs[i..][1..] == txs[i + 1..];
        if !VerifySignature(tx, sha) {
          return Err("Invalid transaction signature");
        }
        r := state.Transfer(tx.from, tx.to, tx.amount);
        if r.Err? {
          return;
        }
      }
      assert txs[|txs|..] == [];
      r := Ok(());
    }

    /** `create_block`: up to 100 pending transactions in a new block on top of the latest. */
    method CreateBlock(validator: string, now: nat, sha: string -> string, txHash: Transaction -> string)
      returns (r: Result<Block, string>)
      requires Valid()
      modifies state`pending
      ensures r.Ok?
      ensures old(state.pending) == r.value.transactions + state.pending
      ensures |r.value.transactions| == if |old(state.pending)| < 100 then |old(state.pending)| else 100
      ensures r.value == NewBlock(LatestBlock().index + 1, r.value.transactions, LatestBlock().hash, validator, now, sha, txHash)
    {
      var latest := chain[|chain| - 1];
      var txs := state.GetPendingTransactions(100);
      var root := CalculateMerkleRoot(txs, sha, txHash);
      var unhashed := Block(latest.index + 1, now, txs, latest.hash, "", 0, root, validator);
      r := Ok(unhashed.(hash := BlockHash(unhashed, sha)));
    }
  }

  // ---------------------------------------------------------------------
  // The virtual machine

  /** The machine's stack and gas, as a value. */
  datatype VmState = VmState(stack: seq<U64Value>, gasUsed: nat, gasLimit: nat)

  /** Gas charged by an opcode on top of its stack operations. */
  const OpcodeGas: nat := 5

  function PushStep(s: VmState, v: U64Value): (r: (VmState, Result<(), string>))
    ensures r.1.Err? <==> s.gasUsed + 1 > s.gasLimit
    ensures r.1.Err? ==> r.0 == s && r.1.error == "Out of gas"
    ensures r.1.Ok? ==> r.0 == s.(stack := s.stack + [v], gasUsed := s.gasUsed + 1)
    ensures s.gasUsed <= s.gasLimit ==> r.0.gasUsed <= s.gasLimit
  {
    if s.gasUsed + 1 > s.gasLimit then (s, Err("Out of gas"))
    else (s.(stack := s.stack + [v], gasUsed := s.gasUsed + 1), Ok(()))
  }

  function PopStep(s: VmState): (r: (VmState, Result<U64Value, string>))
    ensures r.1.Err? ==> r.0 == s
    ensures r.1.Err? <==> s.gasUsed + 1 > s.gasLimit || |s.stack| == 0
    ensures s.gasUsed + 1 <= s.gasLimit && |s.stack| == 0 ==> r.1 == Err("Stack underflow")
    ensures r.1.Ok? ==>
              r.1.value == s.stack[|s.stack| - 1] && r.0 == s.(stack := s.stack[..|s.stack| - 1], gasUsed := s.gasUsed + 1)
    ensures s.gasUsed <= s.gasLimit ==> r.0.gasUsed <= s.gasLimit
  {
    if s.gasUsed + 1 > s.gasLimit then (s, Err("Out of gas"))
    else if |s.stack| == 0 then (s, Err("Stack underflow"))
    else (s.(stack := s.stack[..|s.stack| - 1], gasUsed := s.gasUsed + 1), Ok(s.stack[|s.stack| - 1]))
  }

  predicate IsOpcode(op: string)
  {
    op in {"ADD", "SUB", "MUL", "DIV"}
  }

  /** The arithmetic of a binary opcode on `u64`, wrapping (the release-build behaviour); `a` is the former top. */
  function Apply(op: string, a: U64Value, b: U64Value): U64Value
    requires IsOpcode(op) && (op == "DIV" ==> b != 0)
  {
    match op
    case "ADD" => Wrap(a + b)
    case "SUB" => Wrap(a - b)
    case "MUL" => Wrap(a * b)
    case _ => a / b
  }

  /** Reduction modulo 2^64, as `u64` arithmetic wraps. */
  function Wrap(x: int): U64Value
  {
    x % U64
  }

  /**
   * `execute_opcode` as written: check room for 5 gas, pop a, pop b, divide-by-
   * zero check, push the result, then add 5 gas without checking again.
   */
  function ExecStep(s: VmState, op: string): (r: (VmState, Result<(), string>))
  {
    if s.gasUsed + OpcodeGas > s.gasLimit then (s, Err("Out of gas"))
    else if !IsOpcode(op) then (s, Err("Unknown opcode: " + op))
    else
      var first := PopStep(s);
      if first.1.Err? then (first.0, Err(first.1.error))
      else
        var second := PopStep(first.0);
        if second.1.Err? then (second.0, Err(second.1.error))
        else if op == "DIV" && second.1.value == 0 then (second.0, Err("Division by zero"))
        else
          var pushed := PushStep(second.0, Apply(op, first.1.value, second.1.value));
          if pushed.1.Err? then pushed
          else (pushed.0.(gasUsed := pushed.0.gasUsed + OpcodeGas), Ok(()))
  }

  /** A successful opcode pops two, pushes their result, and costs 8 gas in all. */
  lemma ExecStepSuccess(s: VmState, op: string)
    requires ExecStep(s, op).1.Ok?
    ensures IsOpcode(op) && |s.stack| >= 2
    ensures var n := |s.stack|;
            (op == "DIV" ==> s.stack[n - 2] != 0)
            && ExecStep(s, op).0 == s.(stack := s.stack[..n - 2] + [Apply(op, s.stack[n - 1], s.stack[n - 2])],
                                        gasUsed := s.gasUsed + 8)
  {
    var n := |s.stack|;
    assert s.stack[..n - 1][..n - 2] == s.stack[..n - 2];
  }

  /** Division by zero is reported only after both operands have been popped and paid for. */
  lemma DivisionByZeroAfterPops(s: VmState)
    requires s.gasUsed + OpcodeGas <= s.gasLimit && |s.stack| >= 2 && s.stack[|s.stack| - 2] == 0
    ensures ExecStep(s, "DIV") == (s.(stack := s.stack[..|s.stack| - 2], gasUsed := s.gasUsed + 2), Err("Division by zero"))
  {
    var n := |s.stack|;
    assert s.stack[..n - 1][..n - 2] == s.stack[..n - 2];
  }

  /** With 5 of 10 gas used, ADD succeeds and leaves 13 used: the final charge overruns the limit. */
  lemma GasOverrun()
    ensures ExecStep(VmState([2, 1], 5, 10), "ADD") == (VmState([3], 13, 10), Ok(()))
  {
    var s := VmState([2, 1], 5, 10);
    assert s.stack[..1] == [2] && [2][..0] == [] && [] + [3] == [3];
    assert PopStep(s) == (VmState([2], 6, 10), Ok(1));
    assert PopStep(VmState([2], 6, 10)) == (VmState([], 7, 10), Ok(2));
    assert PushStep(VmState([], 7, 10), 3) == (VmState([3], 8, 10), Ok(()));
  }

  /** The full price of a binary opcode: two pops, one push and the opcode charge. */
  const OpcodeTotalGas: nat := 8

  /** `execute_opcode` with its up-front check covering the whole charge. */
  function ExecStepChecked(s: VmState, op: string): (r: (VmState, Result<(), string>))
    ensures s.gasUsed <= s.gasLimit ==> r.0.gasUsed <= s.gasLimit
    ensures r.0.gasLimit == s.gasLimit
    ensures s.gasUsed + OpcodeTotalGas <= s.gasLimit ==> r == ExecStep(s, op)
  {
    if s.gasUsed + OpcodeTotalGas > s.gasLimit then (s, Err("Out of gas")) else ExecStep(s, op)
  }

  class VirtualMachine {
    var stack: seq<U64Value>
    var gasUsed: nat
    const gasLimit: nat
    /** The 1 KiB memory: zeroed at construction and never written. */
    const memory: seq<bv8>

    function State(): VmState
      reads this
    {
      VmState(stack, gasUsed, gasLimit)
    }

    constructor (gasLimit: nat)
      ensures State() == VmState([], 0, gasLimit)
      ensures |memory| == 1024 && forall i :: 0 <= i < 1024 ==> memory[i] == 0
    {
      stack, gasUsed := [], 0;
      this.gasLimit := gasLimit;
      memory := seq(1024, _ => 0);
    }

    method Push(v: U64Value) returns (r: Result<(), string>)
      modifies this`stack, this`gasUsed
      ensures (State(), r) == PushStep(old(State()), v)
    {
      if gasUsed + 1 > gasLimit {
        return Err("Out of gas");
      }
      stack := stack + [v];
      gasUsed := gasUsed + 1;
      r := Ok(());
    }

    method Pop() returns (r: Result<U64Value, string>)
      modifies this`stack, this`gasUsed
      ensures (State(), r) == PopStep(old(State()))
    {
      if gasUsed + 1 > gasLimit {
        return Err("Out of gas");
      }
      if |stack| == 0 {
        return Err("Stack underflow");
      }
      gasUsed := gasUsed + 1;
      r := Ok(stack[|stack| - 1]);
      stack := stack[..|stack| - 1];
    }

    /** `execute_opcode`, as written (see `GasOverrun`). */
    method ExecuteOpcode(op: string) returns (r: Result<(), string>)
      modifies this`stack, this`gasUsed
      ensures (State(), r) == ExecStep(old(State()), op)
    {
      if gasUsed + OpcodeGas > gasLimit {
        return Err("Out of gas");
      }
      if !IsOpcode(op) {
        return Err("Unknown opcode: " + op);
      }
      var a := Pop();
      if a.Err? {
        return Err(a.error);
      }
      var b := Pop();
      if b.Err? {
        return Err(b.error);
      }
      if op == "DIV" && b.value == 0 {
        return Err("Division by zero");
      }
      r := Push(Apply(op, a.value, b.value));
      if r.Err? {
        return;
      }
      gasUsed := gasUsed + OpcodeGas;
    }

    /** `execute_opcode` with the whole charge checked up front: gas never passes the limit. */
    method ExecuteOpcodeChecked(op: string) returns (r: Result<(), string>)
      modifies this`stack, this`gasUsed
      ensures (State(), r) == ExecStepChecked(old(State()), op)
      ensures old(gasUsed) <= gasLimit ==> gasUsed <= gasLimit
    {
      if gasUsed + OpcodeTotalGas > gasLimit {
        return Err("Out of gas");
      }
      r := ExecuteOpcode(op);
    }

    /** `security_check`: a 0xFF byte in memory, or gas above 90% of the limit (`gas_limit * 90` wraps). */
    function SecurityCheck(): (r: Result<(), string>)
      reads this
      ensures r.Ok? <==> 0xFF !in memory && gasUsed <= (gasLimit * 90 % U64) / 100
    {
      if 0xFF in memory then Err("Security violation: forbidden memory access")
      else if gasUsed > (gasLimit * 90 % U64) / 100 then Err("Security warning: high gas usage")
      else Ok(())
    }
  }

  /** The memory clause of the security check never fires: the memory is all zeros. */
  lemma ZeroMemoryPassesCheck(memory: seq<bv8>)
    requires forall i :: 0 <= i < |memory| ==> memory[i] == 0
    ensures 0xFF !in memory
  {
  }

  // ---------------------------------------------------------------------
  // Network node

  class NetworkNode {
    const id: string
    const isValidator: bool
    var peers: seq<string>

    ghost predicate Valid()
      reads this
    {
      forall i, j :: 0 <= i < j < |peers| ==> peers[i] != peers[j]
    }

    constructor (id: string, isValidator: bool)
      ensures Valid() && this.id == id && this.isValidator == isValidator && peers == []
    {
      this.id, this.isValidator := id, isValidator;
      peers := [];
    }

    /** `connect_peer`: append unless already present, so the list never holds a peer twice. */
    method ConnectPeer(peer: string)
      requires Valid()
      modifies this`peers
      ensures Valid()
      ensures peer in old(peers) ==> peers == old(peers)
      ensures peer !in old(peers) ==> peers == old(peers) + [peer]
    {
      if peer !in peers {
        peers := peers + [peer];
      }
    }
  }
}
