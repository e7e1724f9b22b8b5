/** The wallet session of the browser client: the chain-name and
    block-explorer tables, and the module state (`provider`, `signer`,
    `currentWallet`) that connecting and disconnecting set and every
    transaction helper checks first. The chain, the contract and the random
    hashes are parameters. */
module Blockchain {
  import opened Common
  import opened Text

  datatype WalletInfo = WalletInfo(address: string, balance: string, chainId: int, chainName: string, isSimulated: bool)

  /** An object handed out by the wallet library; only its presence matters. */
  datatype Handle = Handle(id: nat)

  const Mumbai := 80001
  const NotConnected := "Wallet not connected"
  const NoProvider := "Provider not available"

  // ---------------------------------------------------------------------
  // Lookup tables
  // ---------------------------------------------------------------------

  predicate IsKnownChain(chainId: int) {
    chainId == 1 || chainId == 137 || chainId == 80001 || chainId == 5 || chainId == 11155111
  }

  /** `getChainName`: the table entry, or `Chain <id>` for any other id. */
  function ChainName(chainId: int): (r: string)
    ensures chainId == 1 ==> r == "Ethereum Mainnet"
    ensures chainId == 137 ==> r == "Polygon Mainnet"
    ensures chainId == 80001 ==> r == "Polygon Mumbai"
    ensures chainId == 5 ==> r == "Ethereum Goerli"
    ensures chainId == 11155111 ==> r == "Ethereum Sepolia"
    ensures !IsKnownChain(chainId) ==> r == "Chain " + IntToString(chainId)
  {
    if chainId == 1 then "Ethereum Mainnet"
    else if chainId == 137 then "Polygon Mainnet"
    else if chainId == 80001 then "Polygon Mumbai"
    else if chainId == 5 then "Ethereum Goerli"
    else if chainId == 11155111 then "Ethereum Sepolia"
    else "Chain " + IntToString(chainId)
  }

  /** Different numbers print differently, signs included. */
  lemma IntToStringInjective(a: int, b: int)
    requires IntToString(a) == IntToString(b)
    ensures a == b
  {
    if a < 0 {
      assert IntToString(b)[0] == '-';
      assert b < 0;
      assert NatToString(-a) == IntToString(a)[1..];
      assert NatToString(-b) == IntToString(b)[1..];
      NatToStringInjective(-a, -b);
    } else {
      assert IsDigit(IntToString(b)[0]);
      assert b >= 0;
      NatToStringInjective(a, b);
    }
  }

  /** No two chain ids get the same name: the fallback names all start with
      `Chain `, which none of the table's names does. */
  lemma ChainNameInjective(a: int, b: int)
    requires ChainName(a) == ChainName(b)
    ensures a == b
  {
    assert !IsKnownChain(a) <==> ChainName(a)[0] == 'C';
    assert !IsKnownChain(b) <==> ChainName(b)[0] == 'C';
    if !IsKnownChain(a) {
      assert !IsKnownChain(b);
      assert IntToString(a) == ChainName(a)[6..];
      assert IntToString(b) == ChainName(b)[6..];
      IntToStringInjective(a, b);
    }
  }

  /** The explorer table. */
  function ExplorerBase(chainId: int): Option<string> {
    if chainId == 1 then Some("https://etherscan.io/tx/")
    else if chainId == 137 then Some("https://polygonscan.com/tx/")
    else if chainId == 80001 then Some("https://mumbai.polygonscan.com/tx/")
    else if chainId == 5 then Some("https://goerli.etherscan.io/tx/")
    else if chainId == 11155111 then Some("https://sepolia.etherscan.io/tx/")
    else None
  }

  /** `chainId || currentWallet?.chainId || 80001`: 0 and absence fall
      through to the next choice. */
  function EffectiveChain(chainId: Option<int>, wallet: Option<WalletInfo>): (r: int)
    ensures IsTruthyNum(chainId) ==> r == chainId.value
    ensures !IsTruthyNum(chainId) && wallet.Some? && wallet.value.chainId != 0 ==> r == wallet.value.chainId
    ensures !IsTruthyNum(chainId) && !(wallet.Some? && wallet.value.chainId != 0) ==> r == Mumbai
    ensures r != 0
  {
    if IsTruthyNum(chainId) then chainId.value
    else if wallet.Some? && wallet.value.chainId != 0 then wallet.value.chainId
    else Mumbai
  }

  /** `getBlockExplorerUrl`: a table base followed by the hash; a chain with
      no entry uses the Mumbai explorer. */
  function ExplorerUrl(txHash: string, chainId: Option<int>, wallet: Option<WalletInfo>): (r: string)
    ensures var base := ExplorerBase(EffectiveChain(chainId, wallet)).GetOr("https://mumbai.polygonscan.com/tx/");
            r == base + txHash
  {
    var base := ExplorerBase(EffectiveChain(chainId, wallet));
    (if base.Some? then base.value else "https://mumbai.polygonscan.com/tx/") + txHash
  }

  /** Every explorer URL ends with the hash and starts with one of the five
      table bases; the Mumbai one whenever the chain is not in the table. */
  lemma ExplorerUrlShape(txHash: string, chainId: Option<int>, wallet: Option<WalletInfo>)
    ensures var r := ExplorerUrl(txHash, chainId, wallet);
            && |r| >= |txHash|
            && r[|r| - |txHash|..] == txHash
            && (ExplorerBase(EffectiveChain(chainId, wallet)).Some? <==> IsKnownChain(EffectiveChain(chainId, wallet)))
            && (!IsKnownChain(EffectiveChain(chainId, wallet)) ==>
                  r == "https://mumbai.polygonscan.com/tx/" + txHash)
  {
    var r := ExplorerUrl(txHash, chainId, wallet);
    var base := ExplorerBase(EffectiveChain(chainId, wallet)).GetOr("https://mumbai.polygonscan.com/tx/");
    assert r == base + txHash;
    assert r[|base|..] == txHash;
  }

  // ---------------------------------------------------------------------
  // Transactions
  // ---------------------------------------------------------------------

  /** The four helpers that sign: each has its own wrapped error message,
      except `signAndSend`, which rethrows the library's error. */
  datatype TxKind = LockFunds | ApproveMilestone | ReleaseFunds | SignAndSend

  function WrappedError(kind: TxKind, libraryError: string): string {
    match kind
    case LockFunds => "Failed to lock funds on blockchain"
    case ApproveMilestone => "Failed to approve milestone on blockchain"
    case ReleaseFunds => "Failed to release funds on blockchain"
    case SignAndSend => libraryError
  }

  /** A helper's outcome: the missing signer is checked before anything
      else; a simulated wallet then gets the random hash without any call;
      otherwise the chain's reply is returned, its error wrapped. */
  function TxOutcome(kind: TxKind, hasSigner: bool, wallet: Option<WalletInfo>, simulatedHash: string,
                     chainReply: Result<string, string>): (r: Result<string, string>)
    ensures !hasSigner ==> r == Err(NotConnected)
    ensures hasSigner && wallet.Some? && wallet.value.isSimulated ==> r == Ok("0x" + simulatedHash)
    ensures hasSigner && !(wallet.Some? && wallet.value.isSimulated) && chainReply.Ok? ==> r == chainReply
    ensures hasSigner && !(wallet.Some? && wallet.value.isSimulated) && chainReply.Err? ==>
              r == Err(WrappedError(kind, chainReply.error))
  {
    if !hasSigner then Err(NotConnected)
    else if wallet.Some? && wallet.value.isSimulated then Ok("0x" + simulatedHash)
    else if chainReply.Ok? then chainReply
    else Err(WrappedError(kind, chainReply.error))
  }

  datatype Receipt = Receipt(transactionHash: string, blockNumber: nat, status: int)

  /** `waitForTransaction`: the missing provider is checked first; a
      simulated wallet gets a made-up receipt with status 1. */
  function WaitOutcome(hasProvider: bool, wallet: Option<WalletInfo>, txHash: string, blockDraw: nat,
                       chainReply: Result<Receipt, string>): (r: Result<Receipt, string>)
    ensures !hasProvider ==> r == Err(NoProvider)
    ensures hasProvider && wallet.Some? && wallet.value.isSimulated ==>
              r.Ok? && r.value.transactionHash == txHash && r.value.status == 1
    ensures hasProvider && !(wallet.Some? && wallet.value.isSimulated) ==> r == chainReply
  {
    if !hasProvider then Err(NoProvider)
    else if wallet.Some? && wallet.value.isSimulated then Ok(Receipt(txHash, blockDraw % 1000000, 1))
    else chainReply
  }

  /** `connectSimulatedWallet`'s wallet. */
  function SimulatedWallet(addressDraw: string): (w: WalletInfo)
    ensures w.isSimulated && w.chainId == Mumbai && w.balance == "10.0"
    ensures |w.address| >= 2 && w.address[..2] == "0x"
  {
    WalletInfo("0x" + addressDraw, "10.0", Mumbai, "Polygon Mumbai (Simulated)", true)
  }

  // ---------------------------------------------------------------------
  // The module state
  // ---------------------------------------------------------------------

  class Session {
    var provider: Option<Handle>
    var signer: Option<Handle>
    var currentWallet: Option<WalletInfo>

    /** The module's initial values: all three are null. */
    constructor ()
      ensures provider.None? && signer.None? && currentWallet.None?
    {
      provider := None;
      signer := None;
      currentWallet := None;
    }

    /** `getCurrentWallet`. */
    function CurrentWallet(): Option<WalletInfo>
      reads this
    {
      currentWallet
    }

    /** `connectSimulatedWallet`: sets the wallet only; the signer and the
        provider keep whatever they were. */
    method ConnectSimulated(addressDraw: string) returns (w: WalletInfo)
      modifies this`currentWallet
      ensures w == SimulatedWallet(addressDraw) && currentWallet == Some(w)
    {
      w := SimulatedWallet(addressDraw);
      currentWallet := Some(w);
    }

    /** `disconnectWallet`. */
    method Disconnect()
      modifies this
      ensures provider.None? && signer.None? && currentWallet.None?
    {
      provider := None;
      signer := None;
      currentWallet := None;
    }

    /** One of the four signing helpers. */
    method Send(kind: TxKind, simulatedHash: string, chainReply: Result<string, string>)
      returns (r: Result<string, string>)
      ensures r == TxOutcome(kind, signer.Some?, currentWallet, simulatedHash, chainReply)
    {
      if signer.None? {
        return Err(NotConnected);
      }
      var wallet := currentWallet;
      if wallet.Some? && wallet.value.isSimulated {
        return Ok("0x" + simulatedHash);
      }
      r := if chainReply.Ok? then chainReply else Err(WrappedError(kind, chainReply.error));
    }

    /** `waitForTransaction`. */
    method WaitForTransaction(txHash: string, blockDraw: nat, chainReply: Result<Receipt, string>)
      returns (r: Result<Receipt, string>)
      ensures r == WaitOutcome(provider.Some?, currentWallet, txHash, blockDraw, chainReply)
    {
      if provider.None? {
        return Err(NoProvider);
      }
      var wallet := currentWallet;
      if wallet.Some? && wallet.value.isSimulated {
        return Ok(Receipt(txHash, blockDraw % 1000000, 1));
      }
      r := chainReply;
    }
  }

  /** The simulated development wallet cannot transact: connecting it never
      sets a signer, so from a fresh session every signing helper reports a
      missing wallet and waiting reports a missing provider. */
  method SimulatedSessionCannotTransact(kind: TxKind, addressDraw: string, hash: string, reply: Result<string, string>)
    returns (sent: Result<string, string>, waited: Result<Receipt, string>)
    ensures sent == Err(NotConnected)
    ensures waited == Err(NoProvider)
  {
    var s := new Session();
    var w := s.ConnectSimulated(addressDraw);
    sent := s.Send(kind, hash, reply);
    waited := s.WaitForTransaction(hash, 0, Err("unused"));
  }

  /** After a disconnect the current wallet is gone and nothing can be signed. */
  method DisconnectedSessionCannotTransact(s: Session, kind: TxKind, hash: string, reply: Result<string, string>)
    returns (wallet: Option<WalletInfo>, sent: Result<string, string>)
    modifies s
    ensures wallet.None? && sent == Err(NotConnected)
  {
    s.Disconnect();
    wallet := s.CurrentWallet();
    sent := s.Send(kind, hash, reply);
  }
}
