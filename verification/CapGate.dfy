/** The lifetime-cap comparison every spend handler makes, and what operators can do to it. */
module CapGate {
  import opened Wrappers
  import opened Decimal
  import opened EthAmount
  import opened Keystore

  datatype Verdict = Pass | CapCorrupt | CapIntegrity | CapExceeded

  predicate Uncapped(capWei: string) {
    capWei == "0" || capWei == ""
  }

  function Check(capWei: string, total: nat, value: nat): Verdict {
    if Uncapped(capWei) then Pass
    else
      match ParseU128(capWei)
      case None => CapCorrupt
      case Some(cap) =>
        if total > cap then CapIntegrity
        else if value > cap - total then CapExceeded
        else Pass
  }

  /**
   * Each verdict by its condition: no cap is "0" or nothing at all; a corrupt one is no u128; a total
   * already over the cap is its own error; else a spend passes exactly when it fits what is left.
   */
  lemma VerdictWhen(capWei: string, total: nat, value: nat)
    ensures var verdict := Check(capWei, total, value);
            var none := capWei == "0" || capWei == "";
            && (verdict == CapCorrupt <==> !none && ParseU128(capWei) == None)
            && (verdict == CapIntegrity <==>
                  !none && ParseU128(capWei).Some? && total > ParseU128(capWei).value)
            && (verdict == CapExceeded <==>
                  && !none && ParseU128(capWei).Some?
                  && total <= ParseU128(capWei).value < total + value)
            && (verdict == Pass <==> none || (ParseU128(capWei).Some? && total + value <= ParseU128(capWei).value))
  {
  }

  /** A logged spend of a passing value is counted in full, so the new total stays within the cap. */
  lemma PassKeepsCap(capWei: string, cap: nat, log: seq<Row>, row: Row, value: nat)
    requires !Uncapped(capWei) && ParseU128(capWei) == Some(cap)
    requires Selected(row, row.wallet) && row.valueWei == ToDec(value)
    ensures Check(capWei, TotalSent(log, row.wallet), value) == Pass <==>
            TotalSent(log, row.wallet) + value <= cap
    ensures Check(capWei, TotalSent(log, row.wallet), value) == Pass ==>
              TotalSent(log + [row], row.wallet) == TotalSent(log, row.wallet) + value <= cap
  {
    PrintThenParse(value);
    TotalAppend(log, row, row.wallet);
  }

  /** A spend of 2^128 wei or more by an uncapped wallet is logged yet never counted. */
  lemma HugeSpendEscapesTotal(log: seq<Row>, row: Row, value: nat)
    requires row.valueWei == ToDec(value)
    ensures TotalSent(log + [row], row.wallet) ==
            TotalSent(log, row.wallet) + if Selected(row, row.wallet) && value < U128 then value else 0
  {
    PrintThenParse(value);
    TotalAppend(log, row, row.wallet);
  }

  /**
   * What a cap set through the update endpoint means: zero wei lifts the cap, 2^128 wei and more
   * refuses every spend, anything between is the bound.
   */
  lemma UpdatedCapMeaning(capEth: string, total: nat, value: nat)
    requires EthToWei(capEth).Some?
    ensures var cap := EthToWei(capEth).value;
            Check(ToDec(cap), total, value) == Pass <==> cap == 0 || (cap < U128 && total + value <= cap)
  {
    PrintThenParse(EthToWei(capEth).value);
    ToDecZero(EthToWei(capEth).value);
  }

  /** Any cap below one wei, written with more than eighteen decimals, lifts the cap. */
  lemma {:induction false} SubWeiCapIsUnlimited(w: string, d: string, total: nat, value: nat)
    requires AllDigits(w) && AllDigits(d) && NatOf(w) == 0
    requires NatOf(d) * WEI_PER_ETH < Pow10(|d|)
    ensures EthToWei(w + "." + d) == Some(0)
    ensures Check(ToDec(0), total, value) == Pass
  {
    hide EthToWei, NatOf, Pow10;
    ParseMeaning(w, d);
    NatOfConcat(w, d);
    TooSmall(EthToWei(w + "." + d).value, NatOf(d) * WEI_PER_ETH, Pow10(|d|));
    ToDecZero(0);
  }

  lemma TooSmall(v: nat, a: nat, d: nat)
    requires IsFloor(v, a, d) && a < d
    ensures v == 0
  {
  }

  /**
   * What a wallet may spend after a reset: exactly what the part that cannot be dropped, raw
   * transactions and native swaps, leaves of the cap.
   */
  lemma ResetUnblocksWhen(capWei: string, cap: nat, log: seq<Row>, wallet: string, value: nat)
    requires !Uncapped(capWei) && ParseU128(capWei) == Some(cap)
    ensures Check(capWei, TotalSent(ResetLog(log, wallet), wallet), value) == Pass <==>
            TotalSent(log, wallet) - TypeSum(log, wallet, SendNative) + value <= cap
  {
    ResetDropsNativePart(log, wallet);
  }

  // -- Sequential histories -------------------------------------------------

  /** One completed request. `value` is in wei; a swap is native when it spends ETH or WETH. */
  datatype Op =
    | Spend(wallet: string, txType: TxType, value: nat, broadcast: bool)
    | SetCap(wallet: string, capWei: string)
    | ResetCap(wallet: string)

  datatype Books = Books(caps: map<string, string>, log: seq<Row>)

  /** The handlers that compare with the cap: raw transactions do so only for a non-zero value. */
  predicate Capped(txType: TxType, value: nat) {
    || txType in {SendNative, SwapNative}
    || (txType == SendTx && value > 0)
  }

  function CapOf(b: Books, wallet: string): string {
    if wallet in b.caps then b.caps[wallet] else ""
  }

  predicate Refused(b: Books, op: Op)
    requires op.Spend?
  {
    Capped(op.txType, op.value) && Check(CapOf(b, op.wallet), TotalSent(b.log, op.wallet), op.value) != Pass
  }

  /**
   * The row a request ends with. A failed raw transaction is logged with value 0, and a failed
   * native swap under the plain swap type.
   */
  function FinalRow(wallet: string, txType: TxType, value: nat, broadcast: bool): Row {
    if broadcast then Row(wallet, txType, ToDec(value), Confirmed)
    else if txType == SendTx then Row(wallet, SendTx, "0", Failed)
    else if txType == SwapNative then Row(wallet, Swap, ToDec(value), Failed)
    else Row(wallet, txType, ToDec(value), Failed)
  }

  function Perform(b: Books, op: Op): Books {
    match op
    case Spend(wallet, txType, value, broadcast) =>
      if Refused(b, op) then b
      else b.(log := b.log + [FinalRow(wallet, txType, value, broadcast)])
    case SetCap(wallet, capWei) => b.(caps := b.caps[wallet := capWei])
    case ResetCap(wallet) => b.(log := ResetLog(b.log, wallet))
  }

  function PerformAll(b: Books, ops: seq<Op>): Books {
    if |ops| == 0 then b else Perform(PerformAll(b, ops[..|ops| - 1]), ops[|ops| - 1])
  }

  /**
   * After any history whatever: a native send, a native swap or a raw transaction that carries value
   * is refused exactly when the cap then in force is no u128 or would be exceeded; nothing else is.
   */
  lemma RefusedWhen(b: Books, ops: seq<Op>, op: Op)
    requires op.Spend?
    ensures var now := PerformAll(b, ops);
            var cap := if op.wallet in now.caps then now.caps[op.wallet] else "";
            var total := TotalSent(now.log, op.wallet);
            && (Refused(now, op) <==>
                  && (op.txType == SendNative || op.txType == SwapNative || (op.txType == SendTx && op.value != 0))
                  && cap != "0" && cap != ""
                  && (ParseU128(cap) == None || total + op.value > ParseU128(cap).value))
            && (Refused(now, op) ==> PerformAll(b, ops + [op]) == now)
  {
    assert (ops + [op])[..|ops|] == ops;
  }

  /**
   * What an accepted spend does to the total of any wallet: a broadcast one below 2^128 wei adds its
   * value to its own wallet's, unless it is a token swap; a failed one adds nothing.
   */
  lemma SpendCounts(b: Books, op: Op, wallet: string)
    requires op.Spend? && !Refused(b, op)
    ensures TotalSent(Perform(b, op).log, wallet) - TotalSent(b.log, wallet) ==
            if op.broadcast && op.wallet == wallet && op.value < U128
               && (op.txType == SendNative || op.txType == SwapNative || op.txType == SendTx)
            then op.value else 0
    ensures Perform(b, op).caps == b.caps && |Perform(b, op).log| == |b.log| + 1
  {
    TotalAppend(b.log, FinalRow(op.wallet, op.txType, op.value, op.broadcast), wallet);
    PrintThenParse(op.value);
  }

  /** So a capped spend that is accepted and broadcast leaves the counted total within the cap then in force. */
  lemma AcceptedSpendWithinCap(b: Books, ops: seq<Op>, op: Op, cap: nat)
    requires op.Spend? && op.broadcast
    requires op.txType == SendNative || op.txType == SwapNative || (op.txType == SendTx && op.value != 0)
    requires var now := PerformAll(b, ops);
             && op.wallet in now.caps && now.caps[op.wallet] != "0" && now.caps[op.wallet] != ""
             && ParseU128(now.caps[op.wallet]) == Some(cap)
    requires !Refused(PerformAll(b, ops), op)
    ensures var now := PerformAll(b, ops);
            var next := PerformAll(b, ops + [op]);
            TotalSent(next.log, op.wallet) == TotalSent(now.log, op.wallet) + op.value <= cap
  {
    assert (ops + [op])[..|ops|] == ops;
    SpendCounts(PerformAll(b, ops), op, op.wallet);
  }

  /** The two commands: a cap change touches one cap, a reset one wallet's rows. */
  lemma CommandsDo(b: Books, wallet: string, other: string, capWei: string)
    ensures var changed := Perform(b, SetCap(wallet, capWei));
            && changed.log == b.log && wallet in changed.caps && changed.caps[wallet] == capWei
            && (other != wallet ==> CapOf(changed, other) == CapOf(b, other))
    ensures var reset := Perform(b, ResetCap(wallet));
            && reset.caps == b.caps
            && TotalSent(reset.log, wallet) == TypeSum(b.log, wallet, SendTx) + TypeSum(b.log, wallet, SwapNative)
            && (other != wallet ==> TotalSent(reset.log, other) == TotalSent(b.log, other))
  {
    ResetDropsNativePart(b.log, wallet);
    if other != wallet { ResetIsLocal(b.log, wallet, other); }
  }

  /** A cap that every capped spend runs into: one that is no u128, or that the total exceeds. */
  predicate Blocks(capWei: string, total: nat) {
    !Uncapped(capWei) && (ParseU128(capWei).None? || total > ParseU128(capWei).value)
  }

  predicate Blocked(b: Books, wallet: string) {
    Blocks(CapOf(b, wallet), TotalSent(b.log, wallet))
  }

  /** Blocked is what refuses even a native send of nothing. */
  lemma BlockedRefusesZero(b: Books, wallet: string)
    ensures Blocked(b, wallet) <==> Refused(b, Spend(wallet, SendNative, 0, true))
  {
  }

  /** A cap change that lifts the cap or raises it to the total, or a reset that leaves no more than the cap. */
  predicate Unblocks(b: Books, op: Op, wallet: string) {
    && op.wallet == wallet
    && match op
       case Spend(_, _, _, _) => false
       case SetCap(_, capWei) => !Blocks(capWei, TotalSent(b.log, wallet))
       case ResetCap(_) => !Blocks(CapOf(b, wallet), TotalSent(ResetLog(b.log, wallet), wallet))
  }

  /** A blocked wallet stays blocked exactly until such an operation; lower caps and smaller resets do not count. */
  lemma BlockedUntil(b: Books, op: Op, wallet: string)
    requires Blocked(b, wallet)
    ensures Blocked(Perform(b, op), wallet) <==> !Unblocks(b, op, wallet)
  {
    match op {
      case Spend(w, txType, value, broadcast) =>
        if !Refused(b, op) {
          TotalAppend(b.log, FinalRow(w, txType, value, broadcast), wallet);
          PrintThenParse(value);
        }
      case SetCap(w, capWei) =>
      case ResetCap(w) => if w != wallet { ResetIsLocal(b.log, w, wallet); }
    }
  }

  /**
   * Over the cap means stuck: whatever is spent, set or reset, until a raise to the total, a lifted
   * cap or a sufficient reset every capped spend of the wallet is refused, a zero one included.
   */
  lemma {:induction false} OverCapStaysRefused(b: Books, ops: seq<Op>, wallet: string)
    requires Blocked(b, wallet)
    requires forall i :: 0 <= i < |ops| ==> !Unblocks(PerformAll(b, ops[..i]), ops[i], wallet)
    ensures Blocked(PerformAll(b, ops), wallet)
    ensures forall op: Op :: op.Spend? && op.wallet == wallet && Capped(op.txType, op.value) ==>
              Refused(PerformAll(b, ops), op)
  {
    hide Unblocks, Perform;
    if |ops| > 0 {
      var last := |ops| - 1;
      forall i | 0 <= i < last
        ensures !Unblocks(PerformAll(b, ops[..last][..i]), ops[..last][i], wallet)
      {
        assert ops[..last][..i] == ops[..i];
      }
      OverCapStaysRefused(b, ops[..last], wallet);
      BlockedUntil(PerformAll(b, ops[..last]), ops[last], wallet);
    }
  }

  /** A sufficient reset, told by the log before it. */
  lemma SufficientReset(b: Books, wallet: string)
    ensures Unblocks(b, ResetCap(wallet), wallet) <==>
            var capWei := CapOf(b, wallet);
            Uncapped(capWei) || (ParseU128(capWei).Some? &&
              TotalSent(b.log, wallet) - TypeSum(b.log, wallet, SendNative) <= ParseU128(capWei).value)
  {
    ResetDropsNativePart(b.log, wallet);
  }
}
