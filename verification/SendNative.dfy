/** The native send handler: cap check, optional treasury fee, up to three broadcasts, one log row. */
module SendNative {
  import opened Wrappers
  import opened Decimal
  import opened EthAmount
  import K = Keystore
  import opened CapGate

  const PERF_FEE_BPS: nat := 500
  const MIN_FEE_WEI: nat := 100_000_000_000_000
  const MAX_ATTEMPTS: nat := 3

  datatype Split = Split(feeWei: nat, netWei: nat)

  /** `calculate_fee`, in wrapping 256-bit arithmetic. */
  function CalculateFee(amountWei: nat): Split {
    var feeWei := Wrap(amountWei * PERF_FEE_BPS) / 10_000;
    if feeWei < MIN_FEE_WEI then Split(0, amountWei)
    else Split(feeWei, if amountWei < feeWei then 0 else amountWei - feeWei)
  }

  /** Fee and remainder always add up, even for amounts so large that the product wraps. */
  lemma FeePlusNet(amountWei: nat)
    requires amountWei < U256
    ensures CalculateFee(amountWei).feeWei + CalculateFee(amountWei).netWei == amountWei
  {
    if amountWei * PERF_FEE_BPS < U256 {
      assert Wrap(amountWei * PERF_FEE_BPS) == amountWei * PERF_FEE_BPS;
    }
  }

  /** Below 0.002 ETH there is no fee; from there on it is five percent rounded down. */
  lemma FeeIsFivePercent(amountWei: nat)
    requires amountWei * PERF_FEE_BPS < U256
    ensures CalculateFee(amountWei).feeWei ==
            if amountWei < 2_000_000_000_000_000 then 0 else amountWei / 20
  {
    assert Wrap(amountWei * PERF_FEE_BPS) == amountWei * PERF_FEE_BPS;
  }

  // -- One call -------------------------------------------------------------

  /** What a broadcast came back with. An error means the transaction was not sent. */
  datatype Reply = Sent | TransientError | PermanentError

  /** The replies of the outside world to one call. */
  datatype Replies = Replies(simulationOk: bool, keyOk: bool, fee: Reply, main: seq<Reply>, feeLogUp: bool, dbUp: bool)

  datatype Response =
    | Refused                       // nothing was attempted
    | SimulationFailed
    | Completed(attempts: nat)
    | BroadcastFailed(attempts: nat)
    | LogFailed                     // the outcome could not be recorded

  /** How many broadcasts are made, starting at attempt `k`: retry only after transient errors. */
  function Attempts(main: seq<Reply>, k: nat): (n: nat)
    requires |main| == MAX_ATTEMPTS && 1 <= k <= MAX_ATTEMPTS
    ensures k <= n <= MAX_ATTEMPTS
    decreases MAX_ATTEMPTS - k
  {
    if main[k - 1] != TransientError || k == MAX_ATTEMPTS then k else Attempts(main, k + 1)
  }

  /** The attempts made before the last one all failed transiently: at most one broadcast is sent. */
  lemma {:induction false} AtMostOneSent(main: seq<Reply>, k: nat, i: nat)
    requires |main| == MAX_ATTEMPTS && 1 <= k <= MAX_ATTEMPTS && k <= i < Attempts(main, k)
    ensures main[i - 1] == TransientError
    decreases MAX_ATTEMPTS - k
  {
    if k < i {
      AtMostOneSent(main, k + 1, i);
    }
  }

  /** How many broadcasts a call makes, told by the replies: it goes on after a transient error, and only then. */
  lemma AttemptsAre(main: seq<Reply>)
    requires |main| == MAX_ATTEMPTS
    ensures Attempts(main, 1) == 1 <==> main[0] != TransientError
    ensures Attempts(main, 1) == 2 <==> main[0] == TransientError && main[1] != TransientError
    ensures Attempts(main, 1) == 3 <==> main[0] == TransientError && main[1] == TransientError
  {
  }

  /** A send_native row that was confirmed when logged, re-labelled by a later reset or not. */
  predicate SendRow(row: K.Row, wallet: string) {
    row.wallet == wallet && row.txType == K.SendNative && row.status in {K.Confirmed, K.CapResetExcluded}
  }

  function RowWei(row: K.Row): nat {
    if AllDigits(row.valueWei) then NatOf(row.valueWei) else 0
  }

  function LoggedSends(log: seq<K.Row>, wallet: string): nat {
    if |log| == 0 then 0
    else LoggedSends(log[..|log| - 1], wallet)
         + if SendRow(log[|log| - 1], wallet) then RowWei(log[|log| - 1]) else 0
  }

  lemma LoggedAppend(log: seq<K.Row>, row: K.Row, wallet: string)
    ensures LoggedSends(log + [row], wallet) ==
            LoggedSends(log, wallet) + if SendRow(row, wallet) then RowWei(row) else 0
  {
    assert (log + [row])[..|log|] == log;
  }

  lemma {:induction false} ResetKeepsLoggedSends(log: seq<K.Row>, wallet: string, other: string)
    ensures LoggedSends(K.ResetLog(log, other), wallet) == LoggedSends(log, wallet)
  {
    if |log| > 0 {
      assert K.ResetLog(log, other)[..|log| - 1] == K.ResetLog(log[..|log| - 1], other);
      ResetKeepsLoggedSends(log[..|log| - 1], wallet, other);
    }
  }

  // -- What one admitted call costs -----------------------------------------

  function Fee(feesEnabled: bool, value: nat): nat {
    if feesEnabled then CalculateFee(value).feeWei else 0
  }

  function PaidFee(feesEnabled: bool, value: nat, r: Replies): nat {
    if r.fee == Sent then Fee(feesEnabled, value) else 0
  }

  predicate MainSent(r: Replies)
    requires |r.main| == MAX_ATTEMPTS
  {
    r.main[Attempts(r.main, 1) - 1] == Sent
  }

  /** The wei a call takes from the wallet: all of it, or a stranded fee. */
  function Leaves(feesEnabled: bool, value: nat, r: Replies): nat
    requires |r.main| == MAX_ATTEMPTS
  {
    if MainSent(r) then value else PaidFee(feesEnabled, value, r)
  }

  /** What an admitted call takes, told by the replies, the amount and the fee setting alone. */
  lemma CallTakes(feesEnabled: bool, value: nat, r: Replies)
    requires |r.main| == MAX_ATTEMPTS && value * PERF_FEE_BPS < U256
    ensures var fee := if feesEnabled && r.fee == Sent && value >= 2_000_000_000_000_000 then value / 20 else 0;
            var sent := r.main[0] == Sent
                        || (r.main[0] == TransientError
                            && (r.main[1] == Sent || (r.main[1] == TransientError && r.main[2] == Sent)));
            && (MainSent(r) <==> sent)
            && PaidFee(feesEnabled, value, r) == fee
            && Leaves(feesEnabled, value, r) == if sent then value else fee
  {
    FeeIsFivePercent(value);
  }

  /** One wallet's sends, with an account of every wei that left it natively. */
  class Sender {
    const id: string
    const feesEnabled: bool
    const store: K.Keystore
    var killed: bool
    var outWei: nat              // fee plus main transfers that left the wallet
    ghost var strandedFees: nat  // fees sent by calls whose main transfer then failed
    ghost var unlogged: nat      // sends whose confirming row could not be written

    constructor (id: string, feesEnabled: bool, store: K.Keystore)
      requires LoggedSends(store.txLog, id) == 0
      ensures this.id == id && this.feesEnabled == feesEnabled && this.store == store
      ensures Balanced() && outWei == 0 && strandedFees == 0 && unlogged == 0 && !killed
    {
      this.id, this.feesEnabled, this.store := id, feesEnabled, store;
      killed, outWei, strandedFees, unlogged := false, 0, 0, 0;
    }

    /** Everything that left the wallet is a logged send, a stranded fee, or an unlogged send. */
    ghost predicate Balanced()
      reads this, store
    {
      outWei == LoggedSends(store.txLog, id) + strandedFees + unlogged
    }

    /**
     * One call against arbitrary replies; `toOk` covers both address checks. It is refused exactly
     * when the switch is killed, the wallet is missing or inactive, the address or the amount is no
     * good, the cap is no u128 or would be exceeded, or the key is missing; a refusal touches
     * nothing. Otherwise it takes the full amount when its transfer is sent and at most the fee when
     * not; only a send whose row cannot be written goes unlogged, and a logged one stays within the cap.
     */
    method Send(toOk: bool, amountEth: string, r: Replies) returns (response: Response)
      requires |r.main| == MAX_ATTEMPTS
      requires Balanced()
      modifies this`outWei, this`strandedFees, this`unlogged, store`txLog
      ensures Balanced()
      ensures var amount := EthToWei(amountEth);
              response == Refused <==>
              || killed || id !in store.wallets || !store.wallets[id].active || !toOk || amount == None
              || (&& store.wallets[id].capWei != "0" && store.wallets[id].capWei != ""
                  && (|| ParseU128(store.wallets[id].capWei) == None
                      || old(K.TotalSent(store.txLog, id)) + amount.value
                         > ParseU128(store.wallets[id].capWei).value))
              || (r.simulationOk && !r.keyOk)
      ensures response == Refused ==>
                && store.txLog == old(store.txLog) && outWei == old(outWei)
                && strandedFees == old(strandedFees) && unlogged == old(unlogged)
      ensures response != Refused ==>
                var value := EthToWei(amountEth).value;
                if !r.simulationOk then
                  && outWei == old(outWei) && strandedFees == old(strandedFees) && unlogged == old(unlogged)
                  && response == if r.dbUp then SimulationFailed else LogFailed
                else
                  && outWei == old(outWei) + Leaves(feesEnabled, value, r)
                  && strandedFees == old(strandedFees) + (if MainSent(r) then 0 else PaidFee(feesEnabled, value, r))
                  && unlogged == old(unlogged) + (if MainSent(r) && !r.dbUp then value else 0)
                  && response == if !r.dbUp then LogFailed
                                 else if MainSent(r) then Completed(Attempts(r.main, 1))
                                 else BroadcastFailed(Attempts(r.main, 1))
      ensures response != Refused ==>
                K.TotalSent(store.txLog, id) ==
                old(K.TotalSent(store.txLog, id))
                + if response.Completed? && EthToWei(amountEth).value < U128 then EthToWei(amountEth).value else 0
      ensures response.Completed? && store.wallets[id].capWei != "0" && store.wallets[id].capWei != "" ==>
                && ParseU128(store.wallets[id].capWei).Some?
                && K.TotalSent(store.txLog, id) == old(K.TotalSent(store.txLog, id)) + EthToWei(amountEth).value
                   <= ParseU128(store.wallets[id].capWei).value
    {
      hide EthToWei, K.TotalSent, LoggedSends, Attempts, ParseU128, Leaves, PaidFee, MainSent;
      var amount := EthToWei(amountEth);
      if killed || id !in store.wallets || !store.wallets[id].active || !toOk || amount.None? { return Refused; }
      var value := amount.value;
      var total := store.TotalSentWei(id);
      VerdictWhen(store.wallets[id].capWei, total, value);
      if Check(store.wallets[id].capWei, total, value) != Pass { return Refused; }
      assert ParseU128(store.wallets[id].capWei).Some? ==> ParseU128(store.wallets[id].capWei).value < U128
      by { ParsedWhen(store.wallets[id].capWei); }

      if !r.simulationOk {
        response := Record(K.SimulationFailed, value, r.dbUp, SimulationFailed);
        return;
      }
      if !r.keyOk { return Refused; }

      NeverWraps(amountEth);
      response := Dispatch(value, r);
    }

    /** The two transfers and the row, for a call that is admitted, simulates and has its key. */
    method Dispatch(value: nat, r: Replies) returns (response: Response)
      requires |r.main| == MAX_ATTEMPTS && value * 10_000 < U256
      requires Balanced()
      modifies this`outWei, this`strandedFees, this`unlogged, store`txLog
      ensures Balanced() && !response.Refused? && !response.SimulationFailed?
      ensures outWei == old(outWei) + Leaves(feesEnabled, value, r)
      ensures strandedFees == old(strandedFees) + (if MainSent(r) then 0 else PaidFee(feesEnabled, value, r))
      ensures unlogged == old(unlogged) + (if MainSent(r) && !r.dbUp then value else 0)
      ensures response == if !r.dbUp then LogFailed
                          else if MainSent(r) then Completed(Attempts(r.main, 1))
                          else BroadcastFailed(Attempts(r.main, 1))
      ensures K.TotalSent(store.txLog, id) ==
              old(K.TotalSent(store.txLog, id)) + if response.Completed? && value < U128 then value else 0
    {
      hide EthToWei, K.TotalSent, LoggedSends, Attempts, ParseU128;
      FeePlusNet(value);
      var split := if feesEnabled then CalculateFee(value) else Split(0, value);
      var feeSent := SendFee(split.feeWei, r);
      var sendValue := if feeSent then split.netWei else value;
      var attempts := Broadcast(r.main);
      if r.main[attempts - 1] == Sent {
        outWei := outWei + sendValue;
        response := Record(K.Confirmed, value, r.dbUp, Completed(attempts));
        if !r.dbUp { unlogged := unlogged + value; }
      } else {
        if feeSent { strandedFees := strandedFees + split.feeWei; }
        response := Record(K.Failed, value, r.dbUp, BroadcastFailed(attempts));
      }
    }

    /** A failed fee transfer never stops the send, and its log row is written or not. */
    method SendFee(feeWei: nat, r: Replies) returns (sent: bool)
      modifies this`outWei, store`txLog
      ensures sent == (feeWei != 0 && r.fee == Sent)
      ensures outWei == old(outWei) + if sent then feeWei else 0
      ensures LoggedSends(store.txLog, id) == old(LoggedSends(store.txLog, id))
      ensures K.TotalSent(store.txLog, id) == old(K.TotalSent(store.txLog, id))
      ensures store.txLog == if sent && r.feeLogUp
                             then old(store.txLog) + [K.Row(id, K.TreasuryFee, ToDec(feeWei), K.Confirmed)]
                             else old(store.txLog)
    {
      sent := feeWei != 0 && r.fee == Sent;
      if sent {
        outWei := outWei + feeWei;
        var row := K.Row(id, K.TreasuryFee, ToDec(feeWei), K.Confirmed);
        LoggedAppend(store.txLog, row, id);
        K.TotalGrows(store.txLog, row, id);
        var _ := store.LogTx(row, r.feeLogUp);
      }
    }

    method Broadcast(main: seq<Reply>) returns (attempts: nat)
      requires |main| == MAX_ATTEMPTS
      ensures attempts == Attempts(main, 1)
    {
      attempts := 1;
      while main[attempts - 1] == TransientError && attempts < MAX_ATTEMPTS
        invariant 1 <= attempts <= MAX_ATTEMPTS
        invariant Attempts(main, attempts) == Attempts(main, 1)
        decreases MAX_ATTEMPTS - attempts
      {
        attempts := attempts + 1;
      }
    }

    /** The call's own row: a failed insert is what the caller sees instead of the outcome. */
    method Record(status: K.TxStatus, value: nat, dbUp: bool, outcome: Response) returns (response: Response)
      modifies store`txLog
      ensures response == if dbUp then outcome else LogFailed
      ensures store.txLog == if dbUp then old(store.txLog) + [K.Row(id, K.SendNative, ToDec(value), status)]
                             else old(store.txLog)
      ensures LoggedSends(store.txLog, id) ==
              old(LoggedSends(store.txLog, id))
              + if dbUp && status in {K.Confirmed, K.CapResetExcluded} then value else 0
      ensures K.TotalSent(store.txLog, id) ==
              old(K.TotalSent(store.txLog, id)) + if dbUp && status == K.Confirmed && value < U128 then value else 0
    {
      var row := K.Row(id, K.SendNative, ToDec(value), status);
      LoggedAppend(store.txLog, row, id);
      ToDecNat(value);
      K.TotalGrows(store.txLog, row, id);
      PrintThenParse(value);
      var logged := store.LogTx(row, dbUp);
      response := if logged.Ok? then outcome else LogFailed;
    }

    /** An operator's cap reset re-labels rows without unbalancing the account. */
    method ResetCap()
      requires Balanced()
      modifies store`txLog
      ensures Balanced()
      ensures id in store.wallets ==>
                K.TotalSent(store.txLog, id) ==
                old(K.TypeSum(store.txLog, id, K.SendTx)) + old(K.TypeSum(store.txLog, id, K.SwapNative))
    {
      ResetKeepsLoggedSends(store.txLog, id, id);
      var _ := store.ResetTotalSent(id);
    }
  }
}
