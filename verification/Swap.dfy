/**
 * Wrap, approve, swap: the token swap of the keymaster over a wallet's balances and the router's
 * allowance. An error from the RPC node is ambiguous: the transaction may have landed all the same.
 */
module Swap {
  import opened Wrappers
  import opened Decimal

  /** One wallet, one input token, one router. For an ETH swap the input token is WETH. */
  datatype Chain = Chain(eth: nat, balIn: nat, balOut: nat, allowance: nat)

  datatype Tx = Wrap(amount: nat) | Approve(amount: nat) | ExactInput(amountIn: nat, minOut: nat)

  /** `landed`: it was mined; `seen`: the node said so. A swap that lands yields `received`. */
  datatype Reply = Reply(landed: bool, seen: bool, received: nat)

  /** Everything the node answers during one call; `topUp` is WETH others send before the re-check. */
  datatype Node = Node(balanceUp: bool, wrap: Reply, topUp: nat, recheckUp: bool,
                       allowanceUp: bool, approve: Reply, swap: Reply)

  datatype Step = ReadStep | WrapStep | ApproveStep | SwapStep

  /** A transaction handed to the node, with the chain it met. */
  datatype Sent = Sent(tx: Tx, before: Chain, reply: Reply)

  /** What a mined transaction needs to succeed; otherwise it reverts and changes nothing. */
  predicate Succeeds(c: Chain, tx: Tx, r: Reply) {
    match tx
    case Wrap(a) => a <= c.eth
    case Approve(_) => true
    case ExactInput(a, minOut) => a <= c.balIn && a <= c.allowance && minOut <= r.received
  }

  /** ERC-20 effects; WETH leaves an allowance of 2^256 - 1 as it is. */
  function Effect(c: Chain, tx: Tx, r: Reply): Chain
    requires Succeeds(c, tx, r)
  {
    match tx
    case Wrap(a) => c.(eth := c.eth - a, balIn := c.balIn + a)
    case Approve(a) => c.(allowance := a)
    case ExactInput(a, _) =>
      c.(balIn := c.balIn - a, balOut := c.balOut + r.received,
         allowance := if c.allowance == U256 - 1 then c.allowance else c.allowance - a)
  }

  predicate Landed(s: Sent) {
    s.reply.landed && Succeeds(s.before, s.tx, s.reply)
  }

  function After(s: Sent): Chain {
    if Landed(s) then Effect(s.before, s.tx, s.reply) else s.before
  }

  predicate Confirmed(s: Sent) {
    Landed(s) && s.reply.seen
  }

  // -- The sequence ---------------------------------------------------------

  /** A point of the sequence: the chain, what was sent so far, and the step that failed, if any. */
  datatype Stage = Stage(chain: Chain, sent: seq<Sent>, failed: Option<Step>)

  function Submit(s: Stage, tx: Tx, reply: Reply): Stage {
    Stage(After(Sent(tx, s.chain, reply)), s.sent + [Sent(tx, s.chain, reply)], None)
  }

  function WrapStage(s: Stage, amountIn: nat, n: Node): Stage {
    if !n.balanceUp then s.(failed := Some(ReadStep))
    else if s.chain.balIn >= amountIn then s
    else
      var tx := Wrap(amountIn - s.chain.balIn);
      var s' := Submit(s, tx, n.wrap);
      if Confirmed(Sent(tx, s.chain, n.wrap)) then s'
      else
        var topped := s'.(chain := s'.chain.(balIn := s'.chain.balIn + n.topUp));
        // an unreadable balance falls back to the one read before the wrap
        if n.recheckUp && topped.chain.balIn >= amountIn then topped else topped.(failed := Some(WrapStep))
  }

  function ApproveStage(s: Stage, amountIn: nat, n: Node): Stage {
    if !n.allowanceUp then s.(failed := Some(ReadStep))
    else if s.chain.allowance >= amountIn then s
    else
      var s' := Submit(s, Approve(amountIn), n.approve);
      if Confirmed(Sent(Approve(amountIn), s.chain, n.approve)) then s' else s'.(failed := Some(ApproveStep))
  }

  function SwapStage(s: Stage, amountIn: nat, minOut: nat, n: Node): Stage {
    var tx := ExactInput(amountIn, minOut);
    var s' := Submit(s, tx, n.swap);
    if Confirmed(Sent(tx, s.chain, n.swap)) then s' else s'.(failed := Some(SwapStep))
  }

  /** The chain and the transactions of a call just before its swap, if it gets that far. */
  function BeforeSwap(c: Chain, native: bool, amountIn: nat, n: Node): Stage {
    var start := Stage(c, [], None);
    var wrapped := if native then WrapStage(start, amountIn, n) else start;
    if wrapped.failed.Some? then wrapped else ApproveStage(wrapped, amountIn, n)
  }

  function Outcome(c: Chain, native: bool, amountIn: nat, minOut: nat, n: Node): Stage {
    var prepared := BeforeSwap(c, native, amountIn, n);
    if prepared.failed.Some? then prepared else SwapStage(prepared, amountIn, minOut, n)
  }

  /** `execute_swap_inner` against a live chain. */
  class SwapRun {
    var chain: Chain
    var sent: seq<Sent>

    constructor (chain: Chain)
      ensures this.chain == chain && sent == []
    {
      this.chain, sent := chain, [];
    }

    method SendAndWait(tx: Tx, reply: Reply) returns (confirmed: bool)
      modifies this
      ensures confirmed == Confirmed(Sent(tx, old(chain), reply))
      ensures chain == After(Sent(tx, old(chain), reply))
      ensures sent == old(sent) + [Sent(tx, old(chain), reply)]
    {
      var s := Sent(tx, chain, reply);
      sent := sent + [s];
      chain := After(s);
      confirmed := Confirmed(s);
    }

    method Execute(native: bool, amountIn: nat, minOut: nat, n: Node) returns (failed: Option<Step>)
      requires sent == []
      modifies this
      ensures Stage(chain, sent, failed) == Outcome(old(chain), native, amountIn, minOut, n)
    {
      if native {
        if !n.balanceUp { return Some(ReadStep); }
        var wethBalance := chain.balIn;
        if wethBalance < amountIn {
          var confirmed := SendAndWait(Wrap(amountIn - wethBalance), n.wrap);
          if !confirmed {
            chain := chain.(balIn := chain.balIn + n.topUp);
            var postFailureBalance := if n.recheckUp then chain.balIn else wethBalance;
            if postFailureBalance < amountIn { return Some(WrapStep); }
          }
        }
      }
      if !n.allowanceUp { return Some(ReadStep); }
      if chain.allowance < amountIn {
        var confirmed := SendAndWait(Approve(amountIn), n.approve);
        if !confirmed { return Some(ApproveStep); }
      }
      var confirmed := SendAndWait(ExactInput(amountIn, minOut), n.swap);
      failed := if confirmed then None else Some(SwapStep);
    }
  }

  // -- What each stage does -------------------------------------------------

  function Shortfall(c: Chain, amountIn: nat): nat {
    if c.balIn >= amountIn then 0 else amountIn - c.balIn
  }

  /** The ETH a call turned into WETH: only its first transaction can be a wrap. */
  function Wrapped(o: Stage): nat {
    if |o.sent| > 0 && o.sent[0].tx.Wrap? && Landed(o.sent[0]) then o.sent[0].tx.amount else 0
  }

  function TopUpUsed(c: Chain, native: bool, amountIn: nat, n: Node): nat {
    if native && n.balanceUp && c.balIn < amountIn
       && !Confirmed(Sent(Wrap(amountIn - c.balIn), c, n.wrap))
    then n.topUp else 0
  }

  /** The swap landed, whatever the node said about it. */
  predicate Swapped(o: Stage) {
    |o.sent| > 0 && o.sent[|o.sent| - 1].tx.ExactInput? && Landed(o.sent[|o.sent| - 1])
  }

  lemma WrapFacts(c: Chain, amountIn: nat, n: Node)
    ensures var o := WrapStage(Stage(c, [], None), amountIn, n);
            && (o.sent == [] || o.sent == [Sent(Wrap(amountIn - c.balIn), c, n.wrap)])
            && (o.sent != [] ==> c.balIn < amountIn)
            && o.chain == c.(eth := c.eth - Wrapped(o), balIn := c.balIn + Wrapped(o) + TopUpUsed(c, true, amountIn, n))
            && (Wrapped(o) == 0 || Wrapped(o) == Shortfall(c, amountIn))
            && (o.failed == None ==> o.chain.balIn >= amountIn)
            && o.failed != Some(SwapStep)
  {
  }

  lemma ApproveFacts(s: Stage, amountIn: nat, n: Node)
    requires s.failed == None
    ensures var o := ApproveStage(s, amountIn, n);
            && (o.sent == s.sent || (o.sent == s.sent + [Sent(Approve(amountIn), s.chain, n.approve)]
                                     && s.chain.allowance < amountIn))
            && o.chain == s.chain.(allowance := o.chain.allowance)
            && (o.failed == None ==> o.chain.allowance >= amountIn)
            && o.failed != Some(SwapStep)
  {
  }

  ghost predicate Prepared(o: Stage, c: Chain, native: bool, amountIn: nat, n: Node) {
    && |o.sent| <= 2
    && (forall i, j :: 0 <= i < j < |o.sent| ==> Kind(o.sent[i].tx) < Kind(o.sent[j].tx))
    && (forall i :: 0 <= i < |o.sent| ==> WellSized(o.sent[i], c, native, amountIn))
    && o.chain.eth == c.eth - Wrapped(o)
    && o.chain.balIn == c.balIn + Wrapped(o) + TopUpUsed(c, native, amountIn, n)
    && o.chain.balOut == c.balOut
    && (Wrapped(o) == 0 || (native && Wrapped(o) == Shortfall(c, amountIn)))
    && (o.failed == None ==> o.chain.allowance >= amountIn && (native ==> o.chain.balIn >= amountIn))
    && o.failed != Some(SwapStep)
  }

  function Kind(tx: Tx): nat {
    match tx case Wrap(_) => 0 case Approve(_) => 1 case ExactInput(_, _) => 2
  }

  /** A wrap asks for the shortfall of a native input, an approval for the input and only when needed. */
  predicate WellSized(s: Sent, c: Chain, native: bool, amountIn: nat) {
    match s.tx
    case Wrap(a) => native && c.balIn < amountIn && a == amountIn - c.balIn
    case Approve(a) => a == amountIn && s.before.allowance < amountIn
    case ExactInput(_, _) => false
  }

  lemma Preparation(c: Chain, native: bool, amountIn: nat, n: Node)
    ensures Prepared(BeforeSwap(c, native, amountIn, n), c, native, amountIn, n)
  {
    hide WrapStage, ApproveStage, Landed, Confirmed;
    var start := Stage(c, [], None);
    WrapFacts(c, amountIn, n);
    var wrapped := if native then WrapStage(start, amountIn, n) else start;
    if wrapped.failed == None {
      ApproveFacts(wrapped, amountIn, n);
    }
  }

  // -- What one call can do -------------------------------------------------

  /**
   * At most one wrap, one approval and one swap, in that order. The swap is handed to the router
   * only with enough allowance, and for a native input enough WETH; what precedes it is well sized.
   */
  lemma {:induction false} EachStepOnce(c: Chain, native: bool, amountIn: nat, minOut: nat, n: Node)
    ensures var o := Outcome(c, native, amountIn, minOut, n);
            && (forall i, j :: 0 <= i < j < |o.sent| ==>
                  && !o.sent[j].tx.Wrap? && !o.sent[i].tx.ExactInput?
                  && (o.sent[i].tx.Approve? ==> o.sent[j].tx.ExactInput?))
            && (forall i :: 0 <= i < |o.sent| ==>
                  var s := o.sent[i];
                  && (s.tx.Wrap? ==> native && c.balIn < amountIn && s.tx.amount == amountIn - c.balIn)
                  && (s.tx.Approve? ==> s.tx.amount == amountIn && s.before.allowance < amountIn)
                  && (s.tx.ExactInput? ==>
                        && s.tx.amountIn == amountIn && s.tx.minOut == minOut
                        && s.before.allowance >= amountIn && (native ==> s.before.balIn >= amountIn)))
  {
    hide WrapStage, ApproveStage, Landed, Confirmed, After;
    Preparation(c, native, amountIn, n);
  }

  /**
   * What moved, whatever was reported: ETH plus input token is conserved up to top-ups and the
   * exact input of a swap that landed, which paid out at least the floor. Ok means it landed.
   */
  lemma {:induction false} Conservation(c: Chain, native: bool, amountIn: nat, minOut: nat, n: Node)
    ensures var o := Outcome(c, native, amountIn, minOut, n);
            && o.chain.eth + o.chain.balIn + (if Swapped(o) then amountIn else 0)
               == c.eth + c.balIn + TopUpUsed(c, native, amountIn, n)
            && o.chain.balOut == c.balOut + (if Swapped(o) then n.swap.received else 0)
            && (Swapped(o) ==> n.swap.received >= minOut)
            && (!native ==> o.chain.eth == c.eth)
            && (o.failed == None ==> Swapped(o))
            && (o.failed.Some? && o.failed.value != SwapStep ==> !Swapped(o))
  {
    hide WrapStage, ApproveStage, Wrapped, TopUpUsed;
    Preparation(c, native, amountIn, n);
  }

  /**
   * ETH goes down by exactly what a landed wrap took, never more than the WETH shortfall, and what
   * is still short afterwards is what the wrap left or the swap used up.
   */
  lemma {:induction false} WrapsWithinShortfall(c: Chain, native: bool, amountIn: nat, minOut: nat, n: Node)
    ensures var o := Outcome(c, native, amountIn, minOut, n);
            && o.chain.eth + Wrapped(o) == c.eth
            && Wrapped(o) <= Shortfall(c, amountIn)
            && Wrapped(o) + Shortfall(o.chain, amountIn)
               <= Shortfall(c, amountIn) + (if Swapped(o) then amountIn else 0)
  {
    hide WrapStage, ApproveStage, TopUpUsed;
    Preparation(c, native, amountIn, n);
    var prepared := BeforeSwap(c, native, amountIn, n);
    if prepared.failed == None {
      assert Outcome(c, native, amountIn, minOut, n).sent[..|prepared.sent|] == prepared.sent;
    }
  }

  // -- How a call ends ------------------------------------------------------

  /**
   * Which end a call comes to, from the chain it met and the answers alone. A native call gets its
   * WETH unless the balance is unreadable, or it is short and neither its wrap is known to have
   * landed nor a re-check finds enough.
   */
  lemma CallEndsWhen(c: Chain, native: bool, amountIn: nat, minOut: nat, n: Node)
    ensures var failed := Outcome(c, native, amountIn, minOut, n).failed;
            var wraps := n.wrap.landed && amountIn - c.balIn <= c.eth;
            var rechecked := c.balIn + (if wraps then amountIn - c.balIn else 0) + n.topUp;
            var short := native && n.balanceUp && c.balIn < amountIn && !(wraps && n.wrap.seen)
                         && !(n.recheckUp && rechecked >= amountIn);
            var unread := native && !n.balanceUp;
            var refused := c.allowance < amountIn && !(n.approve.landed && n.approve.seen);
            var swaps := n.swap.landed && n.swap.received >= minOut && (native || c.balIn >= amountIn);
            && (failed == Some(WrapStep) <==> short)
            && (failed == Some(ReadStep) <==> unread || (!short && !n.allowanceUp))
            && (failed == Some(ApproveStep) <==> !unread && !short && n.allowanceUp && refused)
            && (failed == Some(SwapStep) <==>
                  !unread && !short && n.allowanceUp && !refused && !(swaps && n.swap.seen))
            && (failed == None <==> !unread && !short && n.allowanceUp && !refused && swaps && n.swap.seen)
  {
  }

  /**
   * The balances a call leaves, by what landed: the wrap turns the shortfall into WETH, a top-up
   * counts while the wrap is unconfirmed, and a swap that the call got as far as takes the input.
   */
  lemma CallLeaves(c: Chain, native: bool, amountIn: nat, minOut: nat, n: Node)
    ensures var o := Outcome(c, native, amountIn, minOut, n);
            var needs := native && n.balanceUp && c.balIn < amountIn;
            var wraps := needs && n.wrap.landed && amountIn - c.balIn <= c.eth;
            var wrapped := if wraps then amountIn - c.balIn else 0;
            var topped := if needs && !(wraps && n.wrap.seen) then n.topUp else 0;
            var swaps := (o.failed == None || o.failed == Some(SwapStep)) && n.swap.landed
                         && n.swap.received >= minOut && (native || c.balIn >= amountIn);
            && o.chain.eth == c.eth - wrapped
            && o.chain.balIn == c.balIn + wrapped + topped - (if swaps then amountIn else 0)
            && o.chain.balOut == c.balOut + (if swaps then n.swap.received else 0)
            && (o.failed == None ==>
                  var allowed := if c.allowance < amountIn then amountIn else c.allowance;
                  o.chain.allowance == if allowed == U256 - 1 then allowed else allowed - amountIn)
  {
  }

  // -- What a failed call leaves --------------------------------------------

  /** A call that reports failure has swapped exactly when its swap landed well without being seen. */
  lemma FailedCallSwappedWhen(c: Chain, native: bool, amountIn: nat, minOut: nat, n: Node)
    requires Outcome(c, native, amountIn, minOut, n).failed.Some?
    ensures var o := Outcome(c, native, amountIn, minOut, n);
            Swapped(o) <==>
            && o.failed == Some(SwapStep) && n.swap.landed && !n.swap.seen && n.swap.received >= minOut
            && (native || c.balIn >= amountIn)
  {
    hide WrapStage, ApproveStage, Wrapped, TopUpUsed;
    Preparation(c, native, amountIn, n);
    NotNativeKeepsBalance(c, amountIn, n);
  }

  lemma NotNativeKeepsBalance(c: Chain, amountIn: nat, n: Node)
    ensures BeforeSwap(c, false, amountIn, n).chain.balIn == c.balIn
  {
  }

  /** An error is no licence to retry: whenever a failed call has swapped, the same call again can swap again. */
  lemma RetryAfterUnseenSwap(c: Chain, native: bool, amountIn: nat, minOut: nat, n: Node)
    requires var o := Outcome(c, native, amountIn, minOut, n);
             o.failed.Some? && Swapped(o) && o.chain.balIn >= amountIn
    ensures var o := Outcome(c, native, amountIn, minOut, n);
            var mined := Reply(true, true, minOut);
            var o' := Outcome(o.chain, native, amountIn, minOut, Node(true, mined, 0, true, true, mined, mined));
            && o'.failed == None && o'.chain.balIn == o.chain.balIn - amountIn
            && o'.chain.balOut == o.chain.balOut + minOut
  {
    hide Swapped;
    var o := Outcome(c, native, amountIn, minOut, n);
    FreshCallSwaps(o.chain, native, amountIn, minOut);
  }

  lemma FreshCallSwaps(c: Chain, native: bool, amountIn: nat, minOut: nat)
    requires c.balIn >= amountIn
    ensures var mined := Reply(true, true, minOut);
            var o := Outcome(c, native, amountIn, minOut, Node(true, mined, 0, true, true, mined, mined));
            && o.failed == None && o.chain.balIn == c.balIn - amountIn && o.chain.balOut == c.balOut + minOut
  {
  }
}
