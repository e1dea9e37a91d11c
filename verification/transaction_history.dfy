/** The blockchain transaction history screen: the wallet filter and the fetch
    effect that follows it, and the pure display rules of the table. The
    transaction service is not part of the model: the reply of its one call is
    an `Outcome` the caller supplies. */
module TransactionView {
  import opened Responses
  import opened JsText

  /** A transaction as the service returns it; "" stands for a field that is
      null, undefined or empty. `kind` is the record's `type`. */
  datatype Transaction = Transaction(
    id: string,
    kind: string,
    blockchainTxHash: string,
    from: string,
    timestamp: string,
    status: string)

  const FetchFailed := "Failed to fetch transactions"
  const WalletRequired := "Please connect your wallet first"

  /** The wallet query parameter: none when no filter is set, the filter
      otherwise. */
  function WalletParam(filterWallet: string): (r: Option<string>)
    ensures r == None <==> filterWallet == ""
    ensures r != None ==> r.value == filterWallet
  {
    if filterWallet == "" then None else Some(filterWallet)
  }

  /** An address as the table shows it: `N/A` when missing, otherwise its first
      eight and last six characters (a short address appears twice, as
      `slice` clamps). */
  function FormatAddress(address: string): (r: string)
    ensures address == "" <==> r == "N/A"
    ensures |address| >= 14 ==> r == address[..8] + "..." + address[|address| - 6..]
    ensures 0 < |address| <= 6 ==> r == address + "..." + address
  {
    if address == "" then "N/A" else Abbreviate(address, 8, 6)
  }

  /** The wallet cell: `N/A` without a sender, the formatted sender otherwise;
      it always agrees with `FormatAddress`. */
  function WalletCell(from: string): (r: string)
    ensures r == FormatAddress(from)
  {
    if from != "" then FormatAddress(from) else "N/A"
  }

  /** The hash cell: `Pending` while there is no hash, otherwise its first ten
      and last eight characters. */
  function HashCell(hash: string): (r: string)
    ensures hash == "" ==> r == "Pending"
    ensures |hash| >= 18 ==> r == hash[..10] + "..." + hash[|hash| - 8..]
  {
    if hash != "" then Abbreviate(hash, 10, 8) else "Pending"
  }

  /** The type badge: the type, or `Unknown` when it is missing. */
  function TypeLabel(kind: string): (r: string)
    ensures r != ""
    ensures kind != "" ==> r == kind
    ensures kind == "" ==> r == "Unknown"
  {
    OrElse(kind, "Unknown")
  }

  /** The status badge: the status, or `confirmed` when it is missing. */
  function StatusLabel(status: string): (r: string)
    ensures r != ""
    ensures status != "" ==> r == status
    ensures status == "" ==> r == "confirmed"
  {
    OrElse(status, "confirmed")
  }

  /** The noun of the footer count: plural unless there is exactly one. */
  function CountNoun(count: nat): (r: string)
    ensures |r| == (if count == 1 then 11 else 12)
    ensures r[..11] == "transaction"
    ensures count != 1 ==> r[11] == 's'
  {
    "transaction" + (if count != 1 then "s" else "")
  }

  /** The "Filter by My Wallet" button shows only with a wallet and no filter;
      the active-filter box with its Clear button shows exactly when a filter is
      set. */
  function FilterControls(account: string, filterWallet: string): (r: (bool, bool))
    ensures r.0 <==> account != "" && filterWallet == ""
    ensures r.1 <==> filterWallet != ""
    ensures !(r.0 && r.1)
  {
    (account != "" && filterWallet == "", filterWallet != "")
  }

  class TransactionHistory {
    var transactions: seq<Transaction>
    var loading: bool
    var error: Option<string>
    var filterWallet: string

    /** The state on mount, before the first fetch. */
    constructor ()
      ensures transactions == [] && loading && error == None && filterWallet == ""
    {
      transactions := [];
      loading := true;
      error := None;
      filterWallet := "";
    }

    /** The fetch effect up to its await: loading on, error cleared, and the
        query for the current wallet filter issued. */
    method BeginFetch() returns (walletParam: Option<string>)
      modifies this
      ensures loading && error == None
      ensures walletParam == WalletParam(filterWallet)
      ensures transactions == old(transactions) && filterWallet == old(filterWallet)
    {
      loading := true;
      error := None;
      walletParam := WalletParam(filterWallet);
    }

    /** The fetch effect after its await: the normalised list, or the empty list
        and the error text when the call threw; loading always ends off. */
    method FinishFetch(reply: Outcome<Body<Transaction>>)
      modifies this
      ensures !loading
      ensures transactions == Loaded(reply)
      ensures error == if reply.Err? then Some(OrElse(reply.message, FetchFailed)) else old(error)
      ensures filterWallet == old(filterWallet)
    {
      if reply.Ok? {
        var found := FieldFirst(reply.value);
        if found.Some? {
          transactions := found.value;
        } else {
          transactions := [];
        }
      } else {
        error := Some(OrElse(reply.message, FetchFailed));
        transactions := [];
      }
      loading := false;
    }

    /** Filters by the connected wallet, or alerts when there is none; the
        fetch effect runs again only when the filter changed. */
    method FilterByConnectedWallet(account: string) returns (refetch: bool, alert: Option<string>)
      modifies this
      ensures filterWallet == if account != "" then account else old(filterWallet)
      ensures alert == if account != "" then None else Some(WalletRequired)
      ensures refetch <==> filterWallet != old(filterWallet)
      ensures transactions == old(transactions) && loading == old(loading) && error == old(error)
    {
      refetch := false;
      alert := None;
      if account != "" {
        refetch := account != filterWallet;
        filterWallet := account;
      } else {
        alert := Some(WalletRequired);
      }
    }

    /** Clears the wallet filter; the fetch effect runs again only when a
        filter was set. */
    method ClearFilter() returns (refetch: bool)
      modifies this
      ensures filterWallet == ""
      ensures WalletParam(filterWallet) == None
      ensures refetch <==> old(filterWallet) != ""
      ensures transactions == old(transactions) && loading == old(loading) && error == old(error)
    {
      refetch := filterWallet != "";
      filterWallet := "";
    }
  }
}
