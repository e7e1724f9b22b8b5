/** The wallet button of the navigation bar: address truncation with
    JavaScript's `slice`, the role that never sees it, the connect and
    disconnect handlers and the development-wallet form. The wallet library
    replies and the random address are parameters. */
module WalletConnectButton {
  import opened Common
  import opened Text
  import opened Constants

  datatype Wallet = Wallet(address: string, balance: string, chainId: int, chainName: string)

  /** `s.slice(0, n)` for `n >= 0`. */
  function SliceFront(s: string, n: nat): (r: string)
    ensures |r| == if |s| < n then |s| else n
    ensures r == s[..|r|]
  {
    if |s| < n then s else s[..n]
  }

  /** `s.slice(-n)`: the last `n` characters, or all of a shorter string;
      `-0` is `0`, so `n == 0` gives the whole string. */
  function SliceBack(s: string, n: nat): (r: string)
    ensures |r| == if n == 0 || |s| < n then |s| else n
    ensures r == s[|s| - |r|..]
  {
    if n == 0 || |s| < n then s else s[|s| - n..]
  }

  /** `truncateAddress`. */
  function TruncateAddress(address: string): (r: string)
    ensures r == SliceFront(address, 6) + "..." + SliceBack(address, 4)
  {
    SliceFront(address, 6) + "..." + SliceBack(address, 4)
  }

  /** On an address of at least ten characters the display is exactly its
      first six, three dots and its last four: thirteen characters. On a
      shorter one the two ends overlap, and the whole address appears on
      each side of the dots when it has fewer than four characters. */
  lemma TruncateAddressShape(address: string)
    ensures var r := TruncateAddress(address);
            && (|address| >= 10 ==> |r| == 13 && r[..6] == address[..6] && r[6..9] == "..."
                                    && r[9..] == address[|address| - 4..])
            && (|address| < 4 ==> r == address + "..." + address)
            && |r| <= 13
  {
    var r := TruncateAddress(address);
    if |address| >= 10 {
      var front := address[..6];
      var back := address[|address| - 4..];
      assert r == front + "..." + back;
      assert r[..6] == front;
      assert r[6..9] == "...";
      assert r[9..] == back;
    }
  }

  /** The component renders nothing for this exact role name. */
  predicate Shown(userRole: string) {
    userRole != "Auditor"
  }

  /** Only the auditor role is hidden, and only when spelled as the role
      table spells it. */
  lemma ShownForAllButAuditor(role: UserRole)
    ensures Shown(RoleName(role)) <==> role != Auditor
  {
  }

  /** The Connect Dev Wallet button is enabled, and the handler goes past
      its guard, only when both fields hold a non-blank character. */
  predicate DevConnectAllowed(privateKey: string, passphrase: string) {
    !IsBlank(privateKey) && !IsBlank(passphrase)
  }

  const MissingInformation := Notice("Missing Information", "Please provide both private key and passphrase", true)
  const DevConnected := Notice("Dev Wallet Connected", "Development wallet connected successfully", false)
  const Disconnected := Notice("Wallet Disconnected", "Your wallet has been disconnected", false)
  const DisconnectFailed := Notice("Error", "Failed to disconnect wallet", true)

  /** The toast of `handleConnect`. */
  function ConnectNotice(reply: Result<Wallet, string>): (n: Notice)
    ensures reply.Ok? ==> n == Notice("Wallet Connected", "Connected to " + TruncateAddress(reply.value.address), false)
    ensures reply.Err? && reply.error != "" ==> n == Notice("Connection Failed", reply.error, true)
    ensures reply.Err? && reply.error == "" ==> n == Notice("Connection Failed", "Failed to connect wallet", true)
    ensures n.destructive <==> reply.Err?
  {
    match reply
    case Ok(w) => Notice("Wallet Connected", "Connected to " + TruncateAddress(w.address), false)
    case Err(e) => Notice("Connection Failed", if e != "" then e else "Failed to connect wallet", true)
  }

  /** The development wallet: a random address on the Mumbai test chain. */
  function DevWallet(addressDraw: string): (w: Wallet)
    ensures w.chainId == 80001 && w.balance == "1.5" && w.chainName == "Mumbai Testnet"
    ensures |w.address| >= 2 && w.address[..2] == "0x"
  {
    Wallet("0x" + addressDraw, "1.5", 80001, "Mumbai Testnet")
  }

  /** The component's state. */
  class Button {
    const userRole: string
    var walletInfo: Option<Wallet>
    var isConnecting: bool
    var showDevModal: bool
    var devPrivateKey: string
    var devPassphrase: string

    constructor (userRole: string)
      ensures this.userRole == userRole && walletInfo.None? && !isConnecting
      ensures !showDevModal && devPrivateKey == "" && devPassphrase == ""
    {
      this.userRole := userRole;
      walletInfo := None;
      isConnecting := false;
      showDevModal := false;
      devPrivateKey := "";
      devPassphrase := "";
    }

    /** `handleConnect`: the wallet is shown on success; either way the
        button stops spinning. */
    method Connect(reply: Result<Wallet, string>) returns (notice: Notice)
      modifies this`walletInfo, this`isConnecting
      ensures notice == ConnectNotice(reply)
      ensures walletInfo == if reply.Ok? then Some(reply.value) else old(walletInfo)
      ensures !isConnecting
    {
      isConnecting := true;
      if reply.Ok? {
        walletInfo := Some(reply.value);
      }
      notice := ConnectNotice(reply);
      isConnecting := false;
    }

    /** `handleDisconnect`: the wallet is cleared unless the library's
        disconnect threw, which shows the error toast instead. */
    method Disconnect(threw: bool) returns (notice: Notice)
      modifies this`walletInfo
      ensures !threw ==> walletInfo.None? && notice == Disconnected
      ensures threw ==> walletInfo == old(walletInfo) && notice == DisconnectFailed
    {
      if threw {
        return DisconnectFailed;
      }
      walletInfo := None;
      notice := Disconnected;
    }

    /** `handleDevWalletConnect`: refused with nothing changed unless both
        fields are non-blank; otherwise the development wallet is shown, the
        form is cleared and the dialog closes. */
    method DevConnect(addressDraw: string) returns (notice: Notice)
      modifies this`walletInfo, this`showDevModal, this`devPrivateKey, this`devPassphrase
      ensures !DevConnectAllowed(old(devPrivateKey), old(devPassphrase)) ==>
                notice == MissingInformation && walletInfo == old(walletInfo) && showDevModal == old(showDevModal)
      ensures !DevConnectAllowed(old(devPrivateKey), old(devPassphrase)) ==>
                devPrivateKey == old(devPrivateKey) && devPassphrase == old(devPassphrase)
      ensures DevConnectAllowed(old(devPrivateKey), old(devPassphrase)) ==>
                notice == DevConnected && walletInfo == Some(DevWallet(addressDraw)) && !showDevModal
      ensures DevConnectAllowed(old(devPrivateKey), old(devPassphrase)) ==>
                devPrivateKey == "" && devPassphrase == ""
    {
      if Trim(devPrivateKey) == "" || Trim(devPassphrase) == "" {
        return MissingInformation;
      }
      walletInfo := Some(DevWallet(addressDraw));
      showDevModal := false;
      devPrivateKey := "";
      devPassphrase := "";
      notice := DevConnected;
    }
  }

  /** What the component draws. */
  datatype View = Hidden | ConnectedView(chainName: string, shortAddress: string, balance: string) | ConnectView(caption: string)

  function Render(userRole: string, walletInfo: Option<Wallet>, isConnecting: bool): (v: View)
    ensures v.Hidden? <==> !Shown(userRole)
    ensures v.ConnectedView? <==> Shown(userRole) && walletInfo.Some?
    ensures v.ConnectedView? ==> v.shortAddress == TruncateAddress(walletInfo.value.address)
    ensures v.ConnectView? ==> (v.caption == "Connecting..." <==> isConnecting)
  {
    if !Shown(userRole) then Hidden
    else if walletInfo.Some? then
      ConnectedView(walletInfo.value.chainName, TruncateAddress(walletInfo.value.address), walletInfo.value.balance)
    else ConnectView(if isConnecting then "Connecting..." else "Connect Wallet")
  }
}
