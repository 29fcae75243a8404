/** The trade list panel (frontend/src/components/TradeList.tsx): which
    escrow trades it reads from the chain, the demonstration trades it falls
    back to, the "clear" watermark kept in the browser's storage, the
    approve-or-deposit choice and the action offered for each trade. */
module TradeList {
  import opened Base
  import opened Text

  /** `TradeStatus`, the escrow contract's status enum. */
  const Created := 0
  const Locked := 1
  const Released := 2
  const Cancelled := 3

  /** Marker in the escrow address that identifies the demonstration deployment. */
  const MockAddressMarker := "aaejuaaaaaaaaaaaaaaaaaaaaaaaaaaaajrwuc9jnb"

  /** How many of the newest trades are read at most. */
  const Window := 10

  datatype Trade = Trade(id: int, buyer: string, seller: string, amount: int, description: string, status: int)

  /** What `escrowContract.trades(i)` answers for a trade id. */
  datatype Record = Record(buyer: string, seller: string, amount: int, description: string, status: int)

  /** The contracts a wallet transaction is sent to. */
  datatype Contract = Token | Escrow

  /** The contract calls the panel asks the wallet to send. */
  datatype Call =
    | Approve(spender: Contract, amount: int)
    | DepositFunds(tradeId: int)
    | ReleaseFunds(tradeId: int)
    | CancelTrade(tradeId: int)

  datatype Tx = Tx(to: Contract, call: Call)

  /** The alerts the handlers raise. */
  datatype Alert = WaitConfirm(txHash: string) | Success | Failure(message: string)

  /** What `renderAction` shows for a trade. */
  datatype Action =
    | Spinner
    | DepositOrCancel
    | ReleaseButton
    | WaitingNote
    | LockedBadge
    | ReleasedBadge
    | CancelledBadge
    | NoAction

  // ---------------------------------------------------------------------
  // The id window of `fetchTrades`

  /** The loop stops once the id reaches `max(clearedId, total - 10)`. */
  function Floor(total: int, cleared: int): int
  {
    if cleared >= total - Window then cleared else total - Window
  }

  /** The ids `fetchTrades` reads, in the order it reads them. */
  function FetchIds(total: int, cleared: int): (ids: seq<int>)
    ensures |ids| <= Window
  {
    var n := if total > Floor(total, cleared) then total - Floor(total, cleared) else 0;
    seq(n, k => total - k)
  }

  /** Exactly the ids in `(max(cleared, total - 10), total]` are read, newest first. */
  lemma FetchIdsWindow(total: int, cleared: int)
    ensures forall i :: i in FetchIds(total, cleared) <==> Floor(total, cleared) < i <= total
    ensures forall k :: 0 <= k < |FetchIds(total, cleared)| ==> FetchIds(total, cleared)[k] == total - k
  {
    var ids := FetchIds(total, cleared);
    forall i | Floor(total, cleared) < i <= total
      ensures i in ids
    {
      assert ids[total - i] == i;
    }
  }

  /** Every id read is newer than the cleared watermark, and consecutive
      ids differ by exactly one. */
  lemma FetchIdsNewerAndContiguous(total: int, cleared: int)
    ensures forall i :: i in FetchIds(total, cleared) ==> i > cleared
    ensures forall k :: 0 < k < |FetchIds(total, cleared)| ==> FetchIds(total, cleared)[k] == FetchIds(total, cleared)[k - 1] - 1
  {
    FetchIdsWindow(total, cleared);
  }

  /** Nothing is read exactly when the watermark has reached the counter. */
  lemma FetchIdsEmpty(total: int, cleared: int)
    ensures FetchIds(total, cleared) == [] <==> cleared >= total
  {
  }

  function ToTrade(id: int, r: Record): Trade
  {
    Trade(id, r.buyer, r.seller, r.amount, r.description, r.status)
  }

  /** Every id of the window has an answer from the chain. */
  predicate Readable(ids: seq<int>, records: map<int, Record>)
  {
    forall i :: i in ids ==> i in records
  }

  /** The trades read for `ids`, each carrying the id it was read under. */
  function ChainTrades(ids: seq<int>, records: map<int, Record>): (ts: seq<Trade>)
    requires Readable(ids, records)
    ensures |ts| == |ids|
    ensures forall k :: 0 <= k < |ts| ==> ts[k].id == ids[k]
  {
    seq(|ids|, k requires 0 <= k < |ids| => ToTrade(ids[k], records[ids[k]]))
  }

  /** The loop of `fetchTrades`: reads ids from `total` down while they are
      above `max(cleared, total - 10)`; `ok` is false when some read fails. */
  method ReadWindow(total: int, cleared: int, records: map<int, Record>) returns (list: seq<Trade>, ok: bool)
    ensures ok <==> Readable(FetchIds(total, cleared), records)
    ensures ok ==> list == ChainTrades(FetchIds(total, cleared), records)
    ensures ok ==> |list| <= Window && forall t :: t in list ==> t.id > cleared
  {
    var floor := if cleared >= total - Window then cleared else total - Window;
    ghost var ids := FetchIds(total, cleared);
    FetchIdsWindow(total, cleared);
    list := [];
    var i := total;
    while i > floor
      invariant i <= total && (i >= floor || i == total)
      invariant |list| == total - i
      invariant forall k :: 0 <= k < |list| ==>
        list[k].id == total - k && list[k].id in records && list[k] == ToTrade(list[k].id, records[list[k].id])
      decreases i - floor
    {
      if i !in records {
        assert i in ids;
        return list, false;
      }
      var next := list + [ToTrade(i, records[i])];
      assert forall k :: 0 <= k < |list| ==> next[k] == list[k];
      list := next;
      i := i - 1;
    }
    assert |list| == |ids|;
    forall k | 0 <= k < |ids|
      ensures ids[k] in records
    {
      assert list[k].id == ids[k];
    }
    FetchIdsNewerAndContiguous(total, cleared);
    ok := true;
  }

  // ---------------------------------------------------------------------
  // The demonstration fallback

  /** `account || "cfx:user..."`: an empty or missing account takes the default. */
  function AccountOr(account: Option<string>, default: string): string
  {
    if account.Some? && account.value != "" then account.value else default
  }

  /** The two demonstration trades shown when the chain cannot be read. */
  function MockTrades(account: Option<string>): seq<Trade>
  {
    [ Trade(1, "cfx:mockseller...", "cfx:mockbuyer...", 100 * 1_000_000_000_000_000_000,
            "Demo Trade: Web Design Services (Mock Data)", Locked),
      Trade(2, "cfx:mockbuyer2...", AccountOr(account, "cfx:user..."), 50 * 1_000_000_000_000_000_000,
            "Demo Trade: Logo Design (Mock Data)", Created) ]
  }

  /** `ts.filter(t => t.id > cleared)`. */
  function Newer(ts: seq<Trade>, cleared: int): (r: seq<Trade>)
    ensures |r| <= |ts|
    ensures forall t :: t in r <==> t in ts && t.id > cleared
  {
    if ts == [] then []
    else (if ts[0].id > cleared then [ts[0]] else []) + Newer(ts[1..], cleared)
  }

  /** Once the watermark reaches 2 no demonstration trade is left. */
  lemma MockClearedFromTwo(account: Option<string>, cleared: int)
    ensures Newer(MockTrades(account), cleared) == [] <==> cleared >= 2
  {
    var m := MockTrades(account);
    if cleared < 2 {
      assert m[1] in Newer(m, cleared);
    }
  }

  // ---------------------------------------------------------------------
  // Clearing

  /** `Math.max(...trades.map(t => t.id))`. */
  function MaxId(ts: seq<Trade>): (m: int)
    requires ts != []
    ensures exists t :: t in ts && t.id == m
    ensures forall t :: t in ts ==> t.id <= m
  {
    if |ts| == 1 then ts[0].id
    else
      var rest := MaxId(ts[1..]);
      assert forall t :: t in ts[1..] ==> t in ts;
      if ts[0].id >= rest then ts[0].id else rest
  }

  /** Using the largest listed id as the watermark hides every listed trade. */
  lemma ClearByMaxIdHidesAll(ts: seq<Trade>)
    requires ts != []
    ensures Newer(ts, MaxId(ts)) == []
  {
    if Newer(ts, MaxId(ts)) != [] {
      var t := Newer(ts, MaxId(ts))[0];
      assert t in Newer(ts, MaxId(ts));
    }
  }

  // ---------------------------------------------------------------------
  // The action offered for a trade

  /** `account && trade.buyer.toLowerCase() === account.toLowerCase()`. */
  predicate IsBuyer(trade: Trade, account: Option<string>)
  {
    account.Some? && account.value != "" && Lower(trade.buyer) == Lower(account.value)
  }

  /** `renderAction`. */
  function RenderAction(trade: Trade, account: Option<string>, actionLoading: Option<int>): Action
  {
    if actionLoading == Some(trade.id) then Spinner
    else if trade.status == Created then (if IsBuyer(trade, account) then DepositOrCancel else WaitingNote)
    else if trade.status == Locked then (if IsBuyer(trade, account) then ReleaseButton else LockedBadge)
    else if trade.status == Released then ReleasedBadge
    else if trade.status == Cancelled then CancelledBadge
    else NoAction
  }

  /** The views that carry buttons. */
  predicate HasButtons(a: Action)
  {
    a == DepositOrCancel || a == ReleaseButton
  }

  /** A trade in progress shows only the spinner; buttons are offered only
      to the buyer, only on a created or locked trade, and the buyer of such
      a trade always gets them. */
  lemma RenderActionButtons(trade: Trade, account: Option<string>, actionLoading: Option<int>)
    ensures RenderAction(trade, account, actionLoading) == Spinner <==> actionLoading == Some(trade.id)
    ensures HasButtons(RenderAction(trade, account, actionLoading)) <==>
      actionLoading != Some(trade.id) && IsBuyer(trade, account) && (trade.status == Created || trade.status == Locked)
    ensures RenderAction(trade, account, actionLoading) == DepositOrCancel <==>
      actionLoading != Some(trade.id) && IsBuyer(trade, account) && trade.status == Created
    ensures RenderAction(trade, account, actionLoading) == ReleaseButton <==>
      actionLoading != Some(trade.id) && IsBuyer(trade, account) && trade.status == Locked
  {
  }

  /** The buyer test ignores letter case on both sides. */
  lemma BuyerTestIgnoresCase(trade: Trade, account: string)
    requires account != ""
    ensures IsBuyer(trade, Some(account)) <==> IsBuyer(trade.(buyer := Lower(trade.buyer)), Some(Lower(account)))
  {
    LowerIdempotent(trade.buyer);
    LowerIdempotent(account);
    assert |Lower(account)| == |account|;
  }

  // ---------------------------------------------------------------------
  // The component

  class Panel {
    /** The escrow contract's address, when a contract object is connected. */
    var escrow: Option<string>
    var tokenConnected: bool
    var account: Option<string>

    var trades: seq<Trade>
    var loading: bool
    var actionLoading: Option<int>
    /** The `cstpg_cleared_id` entry of the browser's storage. */
    var storedClearedId: Option<int>
    /** Wallet transactions requested, oldest first. */
    var issued: seq<Tx>
    var alerts: seq<Alert>
    /** Refreshes started after a successful action (not awaited by the handler). */
    var refreshes: nat

    /** `Number(localStorage.getItem('cstpg_cleared_id') || '0')`. */
    function ClearedId(): int
      reads this
    {
      if storedClearedId.Some? then storedClearedId.value else 0
    }

    /** Between two events nothing is loading, and every listed trade is
        newer than the watermark, at most ten of them. */
    predicate Valid()
      reads this
    {
      !loading && actionLoading.None? && |trades| <= Window
      && forall t :: t in trades ==> t.id > ClearedId()
    }

    constructor (escrow: Option<string>, tokenConnected: bool, account: Option<string>, storedClearedId: Option<int>)
      ensures Valid()
      ensures this.escrow == escrow && this.tokenConnected == tokenConnected && this.account == account
      ensures this.storedClearedId == storedClearedId
      ensures trades == [] && issued == [] && alerts == [] && refreshes == 0
    {
      this.escrow := escrow;
      this.tokenConnected := tokenConnected;
      this.account := account;
      this.storedClearedId := storedClearedId;
      trades := [];
      loading := false;
      actionLoading := None;
      issued := [];
      alerts := [];
      refreshes := 0;
    }

    /** `fetchTrades`. `counter` is `tradeCounter()` (None when the call
        fails) and `records` the trades the chain answers for. Any failure,
        including the demonstration address, falls back to the mock trades. */
    method FetchTrades(counter: Option<int>, records: map<int, Record>)
      requires Valid()
      modifies this`trades
      ensures Valid()
      ensures escrow.None? ==> trades == old(trades)
      ensures escrow.Some? && !Contains(escrow.value, MockAddressMarker) && counter.Some?
        && Readable(FetchIds(counter.value, ClearedId()), records)
        ==> trades == ChainTrades(FetchIds(counter.value, ClearedId()), records)
      ensures escrow.Some? && !(!Contains(escrow.value, MockAddressMarker) && counter.Some?
        && Readable(FetchIds(counter.value, ClearedId()), records))
        ==> trades == Newer(MockTrades(account), ClearedId())
    {
      if escrow.None? {
        return;
      }
      var cleared := ClearedId();
      if !Contains(escrow.value, MockAddressMarker) && counter.Some? {
        var list, ok := ReadWindow(counter.value, cleared, records);
        if ok {
          trades := list;
          return;
        }
      }
      MockClearedFromTwo(account, cleared);
      trades := Newer(MockTrades(account), cleared);
    }

    /** `handleClear`. `counter` is `tradeCounter()`, None when the call fails. */
    method HandleClear(counter: Option<int>)
      requires Valid()
      modifies this`trades, this`storedClearedId
      ensures Valid()
      ensures escrow.None? ==> trades == old(trades) && storedClearedId == old(storedClearedId)
      ensures escrow.Some? && counter.Some? ==> storedClearedId == Some(counter.value) && trades == []
      ensures escrow.Some? && counter.None? && old(trades) != [] ==>
        storedClearedId == Some(MaxId(old(trades))) && trades == []
      ensures escrow.Some? && counter.None? && old(trades) == [] ==> storedClearedId == old(storedClearedId) && trades == []
    {
      if escrow.None? {
        return;
      }
      if counter.Some? {
        storedClearedId := Some(counter.value);
        trades := [];
      } else if |trades| > 0 {
        storedClearedId := Some(MaxId(trades));
        trades := [];
      }
    }

    /** Sends one escrow call through the wallet and reports the outcome;
        the shared body of `handleRelease` and `handleCancel`. */
    method SendEscrowCall(call: Call, wallet: Result<string>)
      modifies this`issued, this`alerts, this`refreshes
      ensures issued == old(issued) + [Tx(Escrow, call)]
      ensures wallet.Ok? ==> alerts == old(alerts) + [Success] && refreshes == old(refreshes) + 1
      ensures wallet.Err? ==> alerts == old(alerts) + [Failure(wallet.message)] && refreshes == old(refreshes)
    {
      issued := issued + [Tx(Escrow, call)];
      if wallet.Ok? {
        alerts := alerts + [Success];
        refreshes := refreshes + 1;
      } else {
        alerts := alerts + [Failure(wallet.message)];
      }
    }

    /** `handleDeposit`. `allowance` is the token allowance the escrow has
        from the account (Err when the call fails); `wallet` is the wallet's
        answer to the one transaction sent (a hash, or a rejection). */
    method HandleDeposit(trade: Trade, allowance: Result<int>, wallet: Result<string>)
      requires Valid()
      modifies this`actionLoading, this`issued, this`alerts, this`refreshes
      ensures Valid()
      ensures !tokenConnected || escrow.None? || allowance.Err? ==> issued == old(issued)
      ensures !tokenConnected || escrow.None? ==> alerts == old(alerts)
      ensures tokenConnected && escrow.Some? && allowance.Ok? && allowance.value < trade.amount
        ==> issued == old(issued) + [Tx(Token, Approve(Escrow, trade.amount))]
      ensures tokenConnected && escrow.Some? && allowance.Ok? && allowance.value >= trade.amount
        ==> issued == old(issued) + [Tx(Escrow, DepositFunds(trade.id))]
      ensures tokenConnected && escrow.Some? && allowance.Err? ==> alerts == old(alerts) + [Failure(allowance.message)]
      ensures tokenConnected && escrow.Some? && allowance.Ok? && allowance.value < trade.amount
        ==> alerts == old(alerts) + [if wallet.Ok? then WaitConfirm(wallet.value) else Failure(wallet.message)]
      ensures tokenConnected && escrow.Some? && allowance.Ok? && allowance.value >= trade.amount
        ==> alerts == old(alerts) + [if wallet.Ok? then Success else Failure(wallet.message)]
      ensures refreshes == old(refreshes) + (if tokenConnected && escrow.Some? && allowance.Ok?
        && allowance.value >= trade.amount && wallet.Ok? then 1 else 0)
    {
      if !tokenConnected || escrow.None? {
        return;
      }
      actionLoading := Some(trade.id);
      if allowance.Err? {
        alerts := alerts + [Failure(allowance.message)];
      } else if allowance.value < trade.amount {
        issued := issued + [Tx(Token, Approve(Escrow, trade.amount))];
        if wallet.Ok? {
          alerts := alerts + [WaitConfirm(wallet.value)];
        } else {
          alerts := alerts + [Failure(wallet.message)];
        }
      } else {
        SendEscrowCall(DepositFunds(trade.id), wallet);
      }
      actionLoading := None;
    }

    /** `handleRelease`. */
    method HandleRelease(trade: Trade, wallet: Result<string>)
      requires Valid()
      modifies this`actionLoading, this`issued, this`alerts, this`refreshes
      ensures Valid()
      ensures escrow.None? ==> issued == old(issued) && alerts == old(alerts)
      ensures escrow.Some? ==> issued == old(issued) + [Tx(Escrow, ReleaseFunds(trade.id))]
      ensures escrow.Some? ==> alerts == old(alerts) + [if wallet.Ok? then Success else Failure(wallet.message)]
      ensures refreshes == old(refreshes) + (if escrow.Some? && wallet.Ok? then 1 else 0)
    {
      if escrow.None? {
        return;
      }
      actionLoading := Some(trade.id);
      SendEscrowCall(ReleaseFunds(trade.id), wallet);
      actionLoading := None;
    }

    /** `handleCancel`. */
    method HandleCancel(trade: Trade, wallet: Result<string>)
      requires Valid()
      modifies this`actionLoading, this`issued, this`alerts, this`refreshes
      ensures Valid()
      ensures escrow.None? ==> issued == old(issued) && alerts == old(alerts)
      ensures escrow.Some? ==> issued == old(issued) + [Tx(Escrow, CancelTrade(trade.id))]
      ensures escrow.Some? ==> alerts == old(alerts) + [if wallet.Ok? then Success else Failure(wallet.message)]
      ensures refreshes == old(refreshes) + (if escrow.Some? && wallet.Ok? then 1 else 0)
    {
      if escrow.None? {
        return;
      }
      actionLoading := Some(trade.id);
      SendEscrowCall(CancelTrade(trade.id), wallet);
      actionLoading := None;
    }
  }

  /** Clearing with the counter read and then reading again with the same
      counter lists nothing. */
  lemma ClearThenFetchIsEmpty(total: int)
    ensures FetchIds(total, total) == []
  {
  }
}
