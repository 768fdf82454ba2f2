/**
 * The home page's wallet header: the connected account shown in short
 * form with a Disconnect button, or "Not connected".
 */
module HomePage {
  import opened Wrappers
  import JsString

  /**
   * `truncateAddress`: the first six characters, "...", then the last four;
   * a shorter address gives what it has on each side.
   */
  function TruncateAddress(address: string): (r: string)
    ensures var n := |address|; var head := if n < 6 then n else 6; var tail := if n < 4 then n else 4;
      |r| == head + 3 + tail && r[..head] == address[..head] && r[head..head + 3] == "..."
      && r[head + 3..] == address[n - tail..]
  {
    JsString.Substring(address, 0, 6) + "..." + JsString.SubstringFrom(address, |address| - 4)
  }

  /** An address of ten characters or more keeps its first six and last four around "...". */
  lemma TruncateLong(address: string)
    requires |address| >= 10
    ensures |TruncateAddress(address)| == 13
    ensures TruncateAddress(address) == address[..6] + "..." + address[|address| - 4..]
    ensures TruncateAddress(address)[..6] == address[..6]
    ensures TruncateAddress(address)[9..] == address[|address| - 4..]
  {
    JsString.SubstringSlices(address, 0, 6);
    JsString.SubstringSlices(address, |address| - 4, |address|);
  }

  /**
   * For any address, the result is the first min(6, |a|) characters, "...",
   * and the last min(4, |a|) characters: `substring` clamps its indices
   * and a negative start counts as 0.
   */
  lemma TruncateClamps(address: string)
    ensures var n := |address|;
      TruncateAddress(address) == address[..if n < 6 then n else 6] + "..." + address[if n < 4 then 0 else n - 4..]
  {
  }

  /** Addresses of at most four characters appear twice around "...". */
  lemma TruncateShort(address: string)
    requires |address| <= 4
    ensures TruncateAddress(address) == address + "..." + address
  {
    TruncateClamps(address);
    assert address[..|address|] == address && address[0..] == address;
  }

  /** The account the wallet stub connects with. */
  const MockAccount := "0xD42b...AC0f"

  /** The stub's account, already thirteen characters in the short form, is shown unchanged. */
  lemma TruncateMockAccount()
    ensures TruncateAddress(MockAccount) == MockAccount
  {
    TruncateLong(MockAccount);
    assert MockAccount == MockAccount[..6] + "..." + MockAccount[|MockAccount| - 4..];
  }

  /** What the header's wallet area shows. */
  datatype Header = Header(text: string, disconnectButton: bool)

  /**
   * The header for the current account. JavaScript truthiness decides, so
   * an empty account string counts as not connected, like no account.
   */
  function HeaderView(account: Option<string>): (h: Header)
    ensures h.disconnectButton <==> account.Some? && account.value != ""
    ensures h.disconnectButton ==> h.text == TruncateAddress(account.value)
    ensures !h.disconnectButton ==> h.text == "Not connected"
  {
    match account
    case Some(a) => if a != "" then Header(TruncateAddress(a), true) else Header("Not connected", false)
    case None => Header("Not connected", false)
  }

  /** Once connected with the stub's account, the header shows it as it is, with the button. */
  lemma HeaderForMockAccount()
    ensures HeaderView(Some(MockAccount)) == Header(MockAccount, true)
  {
    TruncateMockAccount();
  }
}
