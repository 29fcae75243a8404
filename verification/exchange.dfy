/** The currency exchange panel (frontend/src/components/CurrencyExchange.tsx):
    the paired token selectors, the displayed rate, the transactions a swap
    sends to the converter contract and the balance refresh. */
module Exchange {
  import opened Base

  /** The keys of `tokenMap`, in the order the selectors list them. */
  datatype Token = AXCNH | CFX | USDT | USDC

  const Symbols: seq<Token> := [AXCNH, CFX, USDT, USDC]

  /** An entry of `addressMap`: native CFX is the zero address, every other
      token its deployed contract. */
  datatype Address = ZeroAddress | TokenAddress(token: Token)

  function AddressOf(t: Token): (a: Address)
    ensures a == ZeroAddress <==> t == CFX
  {
    if t == CFX then ZeroAddress else TokenAddress(t)
  }

  /** Transactions a swap sends: an approval on the source token for the
      converter, or one of the converter's two swap entry points. */
  datatype SwapTx =
    | ApproveConverter(token: Token, amount: nat)
    | SwapAxcnhToToken(target: Address, amount: nat)
    | SwapTokenToAxcnh(source: Address, amount: nat, value: nat)

  /** The outcome of the transactions of one swap, as the chain reports it:
      all confirmed, or an error after `sent` of them went out. */
  datatype Outcome = Confirmed | Rejected(sent: nat, reason: string, message: string)

  datatype Modal = Closed | SwapSucceeded(from: Token, to: Token) | SwapFailed(message: string) | UnknownError

  // ---------------------------------------------------------------------
  // Rates

  /** The rate effect: the rate shown for a selection. */
  function Rate(from: Token, to: Token): real
  {
    if from == AXCNH then (if to == CFX then 4.0 else 0.14)
    else if from == CFX then 0.25
    else 7.14
  }

  /** The rates the deployment script gives the converter for one AXCNH
      (backend/scripts/deploy.js), by target token. */
  function DeployedRate(to: Token): real
    requires to != AXCNH
  {
    match to
    case CFX => 4.0
    case USDT => 0.14
    case USDC => 0.14
  }

  /** Selling AXCNH shows the deployed rate; buying it shows the inverse of
      that rate, exactly for CFX and within 0.1% for the stablecoins. */
  lemma RatesMatchDeployment(t: Token)
    requires t != AXCNH
    ensures Rate(AXCNH, t) == DeployedRate(t)
    ensures t == CFX ==> Rate(t, AXCNH) * DeployedRate(t) == 1.0
    ensures t != CFX ==> 0.999 <= Rate(t, AXCNH) * DeployedRate(t) <= 1.0
  {
  }

  // ---------------------------------------------------------------------
  // The transactions of a swap

  /** What `handleSwap` sends for `amount` base units, given the source
      token's allowance for the converter (not read when selling CFX). */
  function SwapPlan(from: Token, to: Token, amount: nat, allowance: int): seq<SwapTx>
  {
    if from == AXCNH then
      (if allowance < amount then [ApproveConverter(AXCNH, amount)] else [])
      + [SwapAxcnhToToken(AddressOf(to), amount)]
    else if from == CFX then
      [SwapTokenToAxcnh(ZeroAddress, 0, amount)]
    else
      (if allowance < amount then [ApproveConverter(from, amount)] else [])
      + [SwapTokenToAxcnh(AddressOf(from), amount, 0)]
  }

  /** A swap ends with exactly one converter call; selling AXCNH calls
      `swapAXCNHToToken` with the target's address, selling native CFX sends
      the amount as value with a zero token amount, and selling a stablecoin
      calls `swapTokenToAXCNH` with its address. */
  lemma SwapPlanRouting(from: Token, to: Token, amount: nat, allowance: int)
    ensures 1 <= |SwapPlan(from, to, amount, allowance)| <= 2
    ensures var p := SwapPlan(from, to, amount, allowance);
      var last := p[|p| - 1];
      (from == AXCNH ==> last == SwapAxcnhToToken(AddressOf(to), amount))
      && (from == CFX ==> last == SwapTokenToAxcnh(ZeroAddress, 0, amount))
      && (from == USDT || from == USDC ==> last == SwapTokenToAxcnh(TokenAddress(from), amount, 0))
  {
  }

  /** An approval is sent exactly when the source is a token whose allowance
      is below the amount, and it is for the source token and exactly the
      amount, ahead of the swap. */
  lemma SwapPlanApproval(from: Token, to: Token, amount: nat, allowance: int)
    ensures var p := SwapPlan(from, to, amount, allowance);
      (exists k :: 0 <= k < |p| && p[k].ApproveConverter?) <==> from != CFX && allowance < amount
    ensures var p := SwapPlan(from, to, amount, allowance);
      forall k :: 0 <= k < |p| && p[k].ApproveConverter? ==> k == 0 && p[k] == ApproveConverter(from, amount)
  {
    var p := SwapPlan(from, to, amount, allowance);
    if from != CFX && allowance < amount {
      assert p[0].ApproveConverter?;
    }
  }

  /** `e.reason || e.message || t('unknown_error')`. */
  function FailureModal(reason: string, message: string): Modal
  {
    if reason != "" then SwapFailed(reason)
    else if message != "" then SwapFailed(message)
    else UnknownError
  }

  // ---------------------------------------------------------------------
  // The component

  class Panel {
    var account: Option<string>
    /** The token contracts the application context holds (`tokenMap`
        entries that are not null); native CFX never has one. */
    var contracts: set<Token>
    var converterConnected: bool

    var amount: string
    var balances: map<Token, string>
    var fromToken: Token
    var toToken: Token
    var loading: bool
    var swapping: bool
    var estimatedRate: real
    var modal: Modal
    /** Transactions sent, oldest first. */
    var sent: seq<SwapTx>
    /** Balance refreshes started after a successful swap (not awaited). */
    var refreshes: nat

    /** Exactly one side of the pair is AXCNH. */
    predicate Paired()
      reads this
    {
      (fromToken == AXCNH) != (toToken == AXCNH)
    }

    /** The state between two events: no operation in flight, the selectors
        paired and the rate effect settled. */
    predicate Valid()
      reads this
    {
      Paired() && estimatedRate == Rate(fromToken, toToken)
      && CFX !in contracts && !loading && !swapping
    }

    constructor (account: Option<string>, contracts: set<Token>, converterConnected: bool)
      requires CFX !in contracts
      ensures Valid()
      ensures this.account == account && this.contracts == contracts && this.converterConnected == converterConnected
      ensures fromToken == AXCNH && toToken == CFX && amount == ""
      ensures balances == map[AXCNH := "0", CFX := "0", USDT := "0", USDC := "0"]
      ensures modal == Closed && sent == [] && refreshes == 0
    {
      this.account := account;
      this.contracts := contracts;
      this.converterConnected := converterConnected;
      amount := "";
      balances := map[AXCNH := "0", CFX := "0", USDT := "0", USDC := "0"];
      fromToken := AXCNH;
      toToken := CFX;
      loading := false;
      swapping := false;
      estimatedRate := 4.0;
      modal := Closed;
      sent := [];
      refreshes := 0;
    }

    /** The swap button's `disabled` condition. */
    function SwapDisabled(): (r: bool)
      reads this
      ensures Paired() ==> (r <==> swapping || amount == "")
    {
      swapping || amount == "" || fromToken == toToken
    }

    /** The rate effect, run after the selection changes. */
    method UpdateRate()
      modifies this`estimatedRate
      ensures estimatedRate == Rate(fromToken, toToken)
    {
      if fromToken == AXCNH {
        if toToken == CFX {
          estimatedRate := 4.0;
        } else {
          estimatedRate := 0.14;
        }
      } else if fromToken == CFX {
        estimatedRate := 0.25;
      } else {
        estimatedRate := 7.14;
      }
    }

    /** The from-selector: picking a token other than AXCNH forces the other
        side to AXCNH; picking AXCNH moves the other side off AXCNH to USDT
        when needed. Pairs the selectors from any prior selection. */
    method SelectFrom(v: Token)
      requires CFX !in contracts && !loading && !swapping
      modifies this`fromToken, this`toToken, this`estimatedRate
      ensures Valid()
      ensures fromToken == v
      ensures v != AXCNH ==> toToken == AXCNH
      ensures v == AXCNH ==> toToken == (if old(toToken) == AXCNH then USDT else old(toToken))
    {
      fromToken := v;
      if v != AXCNH {
        toToken := AXCNH;
      } else if toToken == AXCNH {
        toToken := USDT;
      }
      UpdateRate();
    }

    /** The to-selector, symmetric to the from-selector. */
    method SelectTo(v: Token)
      requires CFX !in contracts && !loading && !swapping
      modifies this`fromToken, this`toToken, this`estimatedRate
      ensures Valid()
      ensures toToken == v
      ensures v != AXCNH ==> fromToken == AXCNH
      ensures v == AXCNH ==> fromToken == (if old(fromToken) == AXCNH then USDT else old(fromToken))
    {
      toToken := v;
      if v != AXCNH {
        fromToken := AXCNH;
      } else if fromToken == AXCNH {
        fromToken := USDT;
      }
      UpdateRate();
    }

    /** `handleSwapDirection`: exchanges the two sides, so doing it twice
        restores the selection. */
    method SwapDirection()
      requires Valid()
      modifies this`fromToken, this`toToken, this`estimatedRate
      ensures Valid()
      ensures fromToken == old(toToken) && toToken == old(fromToken)
    {
      var temp := fromToken;
      fromToken := toToken;
      toToken := temp;
      UpdateRate();
    }

    /** The amount input. */
    method EditAmount(text: string)
      requires Valid()
      modifies this`amount
      ensures Valid() && amount == text
    {
      amount := text;
    }

    /** `handleSwap`. `units` is `parseUnits(amount, 18)` (Err when the text
        is not a number), `allowance` the source token's allowance for the
        converter, and `outcome` what the chain makes of the transactions. */
    method HandleSwap(units: Result<nat>, allowance: int, outcome: Outcome)
      requires Valid()
      modifies this`sent, this`modal, this`amount, this`swapping, this`refreshes
      ensures Valid()
      ensures !converterConnected || account.None? || account.value == "" || old(amount) == "" ==>
        sent == old(sent) && modal == old(modal) && amount == old(amount) && refreshes == old(refreshes)
      ensures converterConnected && account.Some? && account.value != "" && old(amount) != "" ==>
        if units.Err? then
          sent == old(sent) && modal == FailureModal("", units.message) && amount == old(amount)
          && refreshes == old(refreshes)
        else if outcome.Confirmed? then
          sent == old(sent) + SwapPlan(fromToken, toToken, units.value, allowance)
          && modal == SwapSucceeded(fromToken, toToken) && amount == "" && refreshes == old(refreshes) + 1
        else
          sent == old(sent) + Take(SwapPlan(fromToken, toToken, units.value, allowance), outcome.sent)
          && modal == FailureModal(outcome.reason, outcome.message) && amount == old(amount)
          && refreshes == old(refreshes)
    {
      if !converterConnected || account.None? || account.value == "" || amount == "" {
        return;
      }
      swapping := true;
      if units.Err? {
        modal := FailureModal("", units.message);
      } else {
        var plan := SwapPlan(fromToken, toToken, units.value, allowance);
        if outcome.Confirmed? {
          sent := sent + plan;
          modal := SwapSucceeded(fromToken, toToken);
          amount := "";
          refreshes := refreshes + 1;
        } else {
          sent := sent + Take(plan, outcome.sent);
          modal := FailureModal(outcome.reason, outcome.message);
        }
      }
      swapping := false;
    }

    /** `fetchBalances`. `cfxBalance` is the native balance the application
        context holds; `onChain` the formatted `balanceOf` answers, a token
        missing from it being a read that fails, which leaves the balances
        as they were. */
    method FetchBalances(cfxBalance: string, onChain: map<Token, string>)
      requires Valid()
      modifies this`balances, this`loading
      ensures Valid()
      ensures account.None? || account.value == "" || AXCNH !in contracts || !(contracts <= onChain.Keys) ==>
        balances == old(balances)
      ensures account.Some? && account.value != "" && AXCNH in contracts && contracts <= onChain.Keys ==>
        (forall t :: t in balances <==> t == CFX || t in contracts)
        && balances[CFX] == cfxBalance
        && forall t :: t in contracts ==> balances[t] == onChain[t]
    {
      if account.None? || account.value == "" || AXCNH !in contracts {
        return;
      }
      loading := true;
      var newBalances := map[CFX := cfxBalance];
      var failed := false;
      for i := 0 to |Symbols|
        invariant forall t :: t in newBalances <==> t == CFX || (t in Symbols[..i] && t in contracts)
        invariant newBalances[CFX] == cfxBalance
        invariant forall t :: t in newBalances && t != CFX ==> t in onChain && newBalances[t] == onChain[t]
        invariant forall t :: t in Symbols[..i] && t in contracts ==> t in onChain
      {
        var symbol := Symbols[i];
        assert Symbols[..i + 1] == Symbols[..i] + [symbol];
        if symbol == CFX {
          continue;
        }
        if symbol in contracts {
          if symbol !in onChain {
            failed := true;
            break;
          }
          newBalances := newBalances[symbol := onChain[symbol]];
        }
      }
      if !failed {
        assert Symbols[..|Symbols|] == Symbols;
        assert forall t: Token :: t in Symbols;
        balances := newBalances;
      }
      loading := false;
    }
  }
}
