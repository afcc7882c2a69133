/**
 The wallet connection hook: the connection record, its transitions on
 disconnect, account change, the start-up probe, connect, and the request to
 switch to the Sepolia network.
 */
module Wallet {
  import opened Outcomes

  /** The chain id of Ethereum Sepolia, the network the registry lives on. */
  const SepoliaChainId: nat := 11155111

  /** A provider or signer object, known here only by identity. */
  datatype Handle = Handle(id: nat)

  datatype WalletState = WalletState(
    account: Option<string>,
    chainId: Option<int>,
    isConnected: bool,
    isCorrectNetwork: bool,
    provider: Option<Handle>,
    signer: Option<Handle>)

  /** The hook's whole state. */
  datatype Hook = Hook(wallet: WalletState, isLoading: bool, error: Option<string>)

  const Disconnected := WalletState(None, None, false, false, None, None)

  /** Before the start-up probe has finished. */
  const Initial := Hook(Disconnected, true, None)

  /** What a successful probe or connect learns from the wallet. */
  datatype Connection = Connection(account: string, chainId: int, provider: Handle, signer: Handle)

  function Connected(c: Connection): (w: WalletState)
    ensures w.isConnected && w.account == Some(c.account) && w.signer == Some(c.signer)
    ensures w.isCorrectNetwork <==> c.chainId == SepoliaChainId
  {
    WalletState(Some(c.account), Some(c.chainId), true, c.chainId == SepoliaChainId, Some(c.provider), Some(c.signer))
  }

  /** The record's own consistency: the network flag agrees with the chain
      id, an account is present exactly when connected, provider and signer
      come together, and a signer implies a connection. */
  predicate Consistent(w: WalletState)
  {
    && (w.isCorrectNetwork <==> w.chainId == Some(SepoliaChainId as int))
    && (w.isConnected <==> w.account.Some?)
    && (w.provider.Some? <==> w.signer.Some?)
    && (w.signer.Some? ==> w.isConnected)
  }

  // ----- transitions -----

  /** `disconnectWallet`: every wallet field back to its initial value and
      the error cleared; the loading flag is not touched. */
  function Disconnect(h: Hook): (r: Hook)
    ensures r.wallet == Initial.wallet && r.error.None? && r.isLoading == h.isLoading
    ensures Consistent(r.wallet)
  {
    h.(wallet := Disconnected, error := None)
  }

  /** `handleAccountsChanged`: an empty list disconnects; otherwise the
      first account becomes current and the wallet counts as connected,
      everything else left as it was. */
  function AccountsChanged(h: Hook, accounts: seq<string>): (r: Hook)
    ensures accounts == [] ==> r == Disconnect(h)
    ensures accounts != [] ==>
      r == h.(wallet := h.wallet.(account := Some(accounts[0]), isConnected := true))
  {
    if accounts == [] then Disconnect(h)
    else h.(wallet := h.wallet.(account := Some(accounts[0]), isConnected := true))
  }

  /** The start-up `checkConnection`. `probe` is what asking the wallet for
      its accounts came to: a connection when an account is already
      authorised, `None` when there is none, an error when a call threw. The
      probe only runs when a wallet is injected; either way loading ends. */
  function CheckConnection(h: Hook, hasEthereum: bool, probe: Result<Option<Connection>, Thrown>): (r: Hook)
    ensures !r.isLoading && r.error == h.error
    ensures hasEthereum && probe.Ok? && probe.value.Some? ==> r.wallet == Connected(probe.value.value)
    ensures !(hasEthereum && probe.Ok? && probe.value.Some?) ==> r.wallet == h.wallet
  {
    if hasEthereum && probe.Ok? && probe.value.Some? then h.(wallet := Connected(probe.value.value), isLoading := false)
    else h.(isLoading := false)
  }

  const NoMetaMaskConnect := "MetaMask tidak terinstall. Silakan install MetaMask terlebih dahulu."
  const NoMetaMaskSwitch := "MetaMask tidak terinstall"

  /** `connectWallet`. `attempt` is what requesting the accounts, signer and
      network came to. */
  function ConnectWallet(h: Hook, hasEthereum: bool, attempt: Result<Connection, Thrown>): (r: Hook)
    ensures h.isLoading || h.wallet.isConnected ==> r == h
    ensures !h.isLoading && !h.wallet.isConnected && !hasEthereum ==>
      r == h.(error := Some(NoMetaMaskConnect))
    ensures !h.isLoading && !h.wallet.isConnected && hasEthereum ==>
      && !r.isLoading
      && (attempt.Ok? ==> r.wallet == Connected(attempt.value) && r.error.None?)
      && (attempt.Err? ==> r.wallet == h.wallet &&
                           r.error == Some(ErrorMessageElse(attempt.error, "Gagal menghubungkan wallet")))
  {
    if h.isLoading || h.wallet.isConnected then h
    else if !hasEthereum then h.(error := Some(NoMetaMaskConnect))
    else
      match attempt
      case Ok(c) => Hook(Connected(c), false, None)
      case Err(t) => Hook(h.wallet, false, Some(ErrorMessageElse(t, "Gagal menghubungkan wallet")))
  }

  // ----- switching network -----

  /** A wallet request the hook sends. */
  datatype Request = SwitchChain(chainIdHex: string) | AddChain(chainId: nat)

  /** How `wallet_switchEthereumChain` failed: the thrown value and its
      numeric `code` property, if it has one. */
  datatype SwitchFailure = SwitchFailure(code: Option<int>, thrown: Thrown)

  /** The error code a wallet reports for a chain it does not know. */
  const UnknownChain := 4902

  datatype Switch = Switch(hook: Hook, requests: seq<Request>)

  /** `switchToSepolia`. `switched` is `None` when the switch succeeded;
      `added` is the outcome of the add request, sent only after an
      unknown-chain failure. The wallet record itself is not changed (the
      page reloads on a chain change). */
  function SwitchToSepolia(h: Hook, hasEthereum: bool, switched: Option<SwitchFailure>, added: Option<Thrown>): (r: Switch)
    ensures !hasEthereum ==> r == Switch(h.(error := Some(NoMetaMaskSwitch)), [])
    ensures r.hook.wallet == h.wallet
    ensures hasEthereum ==> !r.hook.isLoading && |r.requests| > 0 && r.requests[0] == SwitchChain(SepoliaHex())
    ensures hasEthereum && switched.None? ==> r.requests == [SwitchChain(SepoliaHex())] && r.hook.error.None?
    ensures hasEthereum && switched.Some? && switched.value.code == Some(UnknownChain) ==>
      && r.requests == [SwitchChain(SepoliaHex()), AddChain(SepoliaChainId)]
      && (added.None? ==> r.hook.error.None?)
      && (added.Some? ==> r.hook.error == Some(ErrorMessageElse(added.value, "Gagal menambahkan network Sepolia")))
    ensures hasEthereum && switched.Some? && switched.value.code != Some(UnknownChain) ==>
      && r.requests == [SwitchChain(SepoliaHex())]
      && r.hook.error == Some(ErrorMessageElse(switched.value.thrown, "Gagal beralih ke network Sepolia"))
  {
    if !hasEthereum then Switch(h.(error := Some(NoMetaMaskSwitch)), [])
    else
      var first := [SwitchChain(SepoliaHex())];
      match switched
      case None => Switch(Hook(h.wallet, false, None), first)
      case Some(failure) =>
        if failure.code == Some(UnknownChain) then
          var error := if added.Some? then Some(ErrorMessageElse(added.value, "Gagal menambahkan network Sepolia")) else None;
          Switch(Hook(h.wallet, false, error), first + [AddChain(SepoliaChainId)])
        else
          Switch(Hook(h.wallet, false, Some(ErrorMessageElse(failure.thrown, "Gagal beralih ke network Sepolia"))), first)
  }

  // ----- hexadecimal chain id -----

  const HexDigits := "0123456789abcdef"

  /** `n.toString(16)`: lower-case hexadecimal without leading zeros. */
  function ToHex(n: nat): (r: string)
    ensures |r| > 0
    ensures forall i :: 0 <= i < |r| ==> r[i] in HexDigits
    ensures n > 0 ==> r[0] != '0'
  {
    if n < 16 then [HexDigits[n]]
    else ToHex(n / 16) + [HexDigits[n % 16]]
  }

  function DigitValue(c: char): (v: nat)
    ensures v < 16
    ensures c in HexDigits ==> HexDigits[v] == c
  {
    if '0' <= c <= '9' then c as int - '0' as int
    else if 'a' <= c <= 'f' then c as int - 'a' as int + 10
    else 0
  }

  /** The value of a lower-case hexadecimal numeral. */
  function FromHex(s: string): nat
    decreases |s|
  {
    if s == [] then 0 else FromHex(s[..|s| - 1]) * 16 + DigitValue(s[|s| - 1])
  }

  /** The hexadecimal spelling reads back as the number. */
  lemma {:induction false} HexRoundTrip(n: nat)
    ensures FromHex(ToHex(n)) == n
    decreases n
  {
    var r := ToHex(n);
    if n < 16 {
      assert r[..0] == [];
    } else {
      HexRoundTrip(n / 16);
      assert r[..|r| - 1] == ToHex(n / 16);
    }
  }

  /** 11155111 is 0xaa36a7, one digit at a time. */
  lemma SepoliaDigits()
    ensures ToHex(SepoliaChainId) == "aa36a7"
  {
    HexStep(170, "a", 'a');
    HexStep(2723, "aa", '3');
    HexStep(43574, "aa3", '6');
    HexStep(697194, "aa36", 'a');
    HexStep(11155111, "aa36a", '7');
  }

  /** One more digit: the numeral of `n` is that of `n / 16` followed by
      the digit of `n % 16`. */
  lemma HexStep(n: nat, prefix: string, d: char)
    requires n >= 16 && ToHex(n / 16) == prefix && HexDigits[n % 16] == d
    ensures ToHex(n) == prefix + [d]
  {
  }

  /** The chain id the switch request carries. */
  function SepoliaHex(): (r: string)
    ensures r == "0xaa36a7"
    ensures FromHex(r[2..]) == SepoliaChainId
  {
    var h := ToHex(SepoliaChainId);
    SepoliaDigits();
    HexRoundTrip(SepoliaChainId);
    assert ("0x" + h)[2..] == h;
    "0x" + h
  }

  // ----- invariants -----

  /** Every transition keeps a consistent record consistent. */
  lemma TransitionsKeepConsistent(h: Hook, accounts: seq<string>, hasEthereum: bool,
                                  probe: Result<Option<Connection>, Thrown>,
                                  attempt: Result<Connection, Thrown>,
                                  switched: Option<SwitchFailure>, added: Option<Thrown>)
    requires Consistent(h.wallet)
    ensures Consistent(Initial.wallet)
    ensures Consistent(Disconnect(h).wallet)
    ensures Consistent(AccountsChanged(h, accounts).wallet)
    ensures Consistent(CheckConnection(h, hasEthereum, probe).wallet)
    ensures Consistent(ConnectWallet(h, hasEthereum, attempt).wallet)
    ensures Consistent(SwitchToSepolia(h, hasEthereum, switched, added).hook.wallet)
  {
  }

  /** An account change reported while no provider is attached marks the
      wallet connected without giving it a signer, so components that need a
      signer still treat it as not connected. */
  lemma AccountChangeWithoutSigner(account: string)
    ensures var r := AccountsChanged(Initial, [account]);
      r.wallet.isConnected && r.wallet.signer.None? && r.wallet.provider.None?
  {
  }
}
