/** The keymaster's wallets and tx_log tables, and the running total the spend cap is compared with. */
module Keystore {
  import opened Wrappers
  import opened Decimal

  datatype TxType = SendNative | SendTx | SwapNative | Swap | TreasuryFee | SweepToSafe

  datatype TxStatus = Confirmed | Failed | SimulationFailed | CapResetExcluded

  datatype Row = Row(wallet: string, txType: TxType, valueWei: string, status: TxStatus)

  datatype Wallet = Wallet(capWei: string, active: bool)

  datatype StoreError = WalletNotFound | Internal

  /** The rows `total_sent_wei` selects. */
  predicate Selected(row: Row, wallet: string) {
    && row.wallet == wallet
    && row.status == Confirmed
    && row.txType in {SendNative, SendTx, SwapNative}
  }

  /** A selected row whose text is not a u128 is skipped, not reported. */
  function Counted(row: Row, wallet: string): nat {
    if !Selected(row, wallet) then 0
    else match ParseU128(row.valueWei) case Some(n) => n case None => 0
  }

  function TotalSent(log: seq<Row>, wallet: string): nat {
    if |log| == 0 then 0 else TotalSent(log[..|log| - 1], wallet) + Counted(log[|log| - 1], wallet)
  }

  /** The rows a reset re-labels: only confirmed send_native rows of the wallet. */
  predicate Resettable(row: Row, wallet: string) {
    row.wallet == wallet && row.txType == SendNative && row.status == Confirmed
  }

  function ResetRow(row: Row, wallet: string): Row {
    if Resettable(row, wallet) then row.(status := CapResetExcluded) else row
  }

  function ResetLog(log: seq<Row>, wallet: string): (after: seq<Row>)
    ensures |after| == |log|
  {
    seq(|log|, i requires 0 <= i < |log| => ResetRow(log[i], wallet))
  }

  /** What the wallet's confirmed rows of one type add up to, texts that are no u128 left out. */
  function TypeSum(log: seq<Row>, wallet: string, txType: TxType): nat {
    if |log| == 0 then 0
    else
      var row := log[|log| - 1];
      TypeSum(log[..|log| - 1], wallet, txType)
      + if row.wallet == wallet && row.txType == txType && row.status == Confirmed && ParseU128(row.valueWei).Some?
        then ParseU128(row.valueWei).value else 0
  }

  function CountResettable(log: seq<Row>, wallet: string): nat {
    if |log| == 0 then 0
    else CountResettable(log[..|log| - 1], wallet) + if Resettable(log[|log| - 1], wallet) then 1 else 0
  }

  /** What one more row adds to a wallet's total. */
  lemma TotalGrows(log: seq<Row>, row: Row, wallet: string)
    ensures TotalSent([], wallet) == 0
    ensures TotalSent(log + [row], wallet) - TotalSent(log, wallet) ==
            if row.wallet == wallet && row.status == Confirmed && ParseU128(row.valueWei).Some?
               && (row.txType == SendNative || row.txType == SendTx || row.txType == SwapNative)
            then ParseU128(row.valueWei).value else 0
  {
    TotalAppend(log, row, wallet);
  }

  lemma TotalAppend(log: seq<Row>, row: Row, wallet: string)
    ensures TotalSent(log + [row], wallet) == TotalSent(log, wallet) + Counted(row, wallet)
  {
    assert (log + [row])[..|log|] == log;
  }

  /** The total is made of native sends, raw transactions and native swaps. */
  lemma {:induction false} TotalIsThreeTypes(log: seq<Row>, wallet: string)
    ensures TotalSent(log, wallet) ==
            TypeSum(log, wallet, SendNative) + TypeSum(log, wallet, SendTx) + TypeSum(log, wallet, SwapNative)
  {
    if |log| > 0 { TotalIsThreeTypes(log[..|log| - 1], wallet); }
  }

  /** A reset clears the sum of its wallet's native sends and no other sum, of whatever type or wallet. */
  lemma {:induction false} ResetClearsOneSum(log: seq<Row>, wallet: string, other: string, txType: TxType)
    ensures TypeSum(ResetLog(log, wallet), other, txType) ==
            if other == wallet && txType == SendNative then 0 else TypeSum(log, other, txType)
  {
    if |log| > 0 {
      var last := |log| - 1;
      assert ResetLog(log, wallet)[..last] == ResetLog(log[..last], wallet);
      ResetClearsOneSum(log[..last], wallet, other, txType);
    }
  }

  /** A reset takes exactly the confirmed native sends out of its wallet's total. */
  lemma ResetDropsNativePart(log: seq<Row>, wallet: string)
    ensures TotalSent(ResetLog(log, wallet), wallet) == TotalSent(log, wallet) - TypeSum(log, wallet, SendNative)
    ensures TotalSent(ResetLog(log, wallet), wallet) ==
            TypeSum(log, wallet, SendTx) + TypeSum(log, wallet, SwapNative)
  {
    TotalIsThreeTypes(log, wallet);
    TotalIsThreeTypes(ResetLog(log, wallet), wallet);
    ResetClearsOneSum(log, wallet, wallet, SendNative);
    ResetClearsOneSum(log, wallet, wallet, SendTx);
    ResetClearsOneSum(log, wallet, wallet, SwapNative);
  }

  /** Which rows a reset re-labels, and that every other row is the row it was. */
  lemma ResetRows(log: seq<Row>, wallet: string, i: nat)
    requires i < |log|
    ensures var row := log[i];
            ResetLog(log, wallet)[i] ==
            Row(row.wallet, row.txType, row.valueWei,
                if row.wallet == wallet && row.txType == SendNative && row.status == Confirmed
                then CapResetExcluded else row.status)
  {
  }

  /** What a reset reports is the number of rows it changed. */
  lemma {:induction false} ReportedRows(log: seq<Row>, wallet: string)
    ensures CountResettable(log, wallet) == |set i | 0 <= i < |log| && ResetLog(log, wallet)[i] != log[i]|
  {
    if |log| > 0 {
      var last := |log| - 1;
      ReportedRows(log[..last], wallet);
      assert ResetLog(log, wallet)[..last] == ResetLog(log[..last], wallet);
      ChangesSnoc(log[..last], ResetLog(log[..last], wallet), log[last], ResetRow(log[last], wallet));
      assert log == log[..last] + [log[last]];
      assert ResetLog(log, wallet) == ResetLog(log[..last], wallet) + [ResetRow(log[last], wallet)];
    }
  }

  lemma ChangesSnoc(log: seq<Row>, after: seq<Row>, row: Row, row': Row)
    requires |after| == |log|
    ensures |set i | 0 <= i < |log| + 1 && (after + [row'])[i] != (log + [row])[i]|
            == |set i | 0 <= i < |log| && after[i] != log[i]| + if row' != row then 1 else 0
  {
    var before := set i | 0 <= i < |log| && after[i] != log[i];
    var changed := set i | 0 <= i < |log| + 1 && (after + [row'])[i] != (log + [row])[i];
    if row' != row {
      assert changed == before + {|log|};
    } else {
      assert changed == before;
    }
  }

  /** A reset leaves every other wallet's total alone. */
  lemma ResetIsLocal(log: seq<Row>, wallet: string, other: string)
    requires other != wallet
    ensures TotalSent(ResetLog(log, wallet), other) == TotalSent(log, other)
  {
    TotalIsThreeTypes(log, other);
    TotalIsThreeTypes(ResetLog(log, wallet), other);
    ResetClearsOneSum(log, wallet, other, SendNative);
    ResetClearsOneSum(log, wallet, other, SendTx);
    ResetClearsOneSum(log, wallet, other, SwapNative);
  }

  class Keystore {
    var wallets: map<string, Wallet>
    var txLog: seq<Row>

    constructor ()
      ensures wallets == map[] && txLog == []
    {
      wallets, txLog := map[], [];
    }

    method UpdateCap(id: string, capWei: string) returns (r: Result<(), StoreError>)
      modifies this`wallets
      ensures r == if id in old(wallets) then Ok(()) else Err(WalletNotFound)
      ensures wallets == if id in old(wallets) then old(wallets)[id := old(wallets)[id].(capWei := capWei)]
                         else old(wallets)
    {
      if id !in wallets { return Err(WalletNotFound); }
      wallets := wallets[id := wallets[id].(capWei := capWei)];
      r := Ok(());
    }

    /** `dbUp` is false when the insert fails; nothing is written then. */
    method LogTx(row: Row, dbUp: bool) returns (r: Result<(), StoreError>)
      modifies this`txLog
      ensures r == if dbUp then Ok(()) else Err(Internal)
      ensures txLog == if dbUp then old(txLog) + [row] else old(txLog)
    {
      if !dbUp { return Err(Internal); }
      txLog := txLog + [row];
      r := Ok(());
    }

    method ResetTotalSent(id: string) returns (r: Result<nat, StoreError>)
      modifies this`txLog
      ensures txLog == if id in wallets then ResetLog(old(txLog), id) else old(txLog)
      ensures |txLog| == |old(txLog)|
      ensures r == if id in wallets then Ok(|set i | 0 <= i < |txLog| && txLog[i] != old(txLog)[i]|)
                   else Err(WalletNotFound)
      ensures id in wallets ==>
                && TypeSum(txLog, id, SendNative) == 0
                && TotalSent(txLog, id) ==
                   old(TypeSum(txLog, id, SendTx)) + old(TypeSum(txLog, id, SwapNative))
    {
      if id !in wallets { return Err(WalletNotFound); }
      var rows, after := 0, [];
      for i := 0 to |txLog|
        invariant rows == CountResettable(txLog[..i], id)
        invariant after == ResetLog(txLog[..i], id)
      {
        assert txLog[..i + 1][..i] == txLog[..i];
        if Resettable(txLog[i], id) {
          rows := rows + 1;
          after := after + [txLog[i].(status := CapResetExcluded)];
        } else {
          after := after + [txLog[i]];
        }
        assert after == ResetLog(txLog[..i + 1], id);
      }
      assert txLog[..|txLog|] == txLog;
      ReportedRows(txLog, id);
      ResetDropsNativePart(txLog, id);
      ResetClearsOneSum(txLog, id, id, SendNative);
      txLog := after;
      r := Ok(rows);
    }

    method TotalSentWei(id: string) returns (total: nat)
      ensures total == TotalSent(txLog, id)
    {
      total := 0;
      for i := 0 to |txLog|
        invariant total == TotalSent(txLog[..i], id)
      {
        assert txLog[..i + 1][..i] == txLog[..i];
        if Selected(txLog[i], id) {
          match ParseU128(txLog[i].valueWei)
          case Some(n) => total := total + n;
          case None =>
        }
      }
      assert txLog[..|txLog|] == txLog;
    }
  }
}
