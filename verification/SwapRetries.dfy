/**
 * Calls for one and the same swap, one after another or side by side, against a chain where a
 * transaction given up on is still pending: it may be mined at any later moment, or never. The calls
 * interleave at every request to the node.
 */
module SwapRetries {
  import opened Wrappers
  import opened Swap

  /** What every call asks for. */
  datatype Order = Order(amountIn: nat, minOut: nat)

  /** Where a call stands. `Sending` has decided on a transaction, `Waiting` has handed it to the node. */
  datatype Phase =
    | AtBalance
    | AtRecheck
    | AtAllowance
    | Sending(tx: Tx)
    | Waiting(tx: Tx)
    | Mined(tx: Tx, ok: bool)
    | Finished(failed: Option<Step>)

  /** What has been mined so far: `excess` and `overlaps` account for wraps decided while others were under way. */
  datatype Totals = Totals(
    wrapped: nat, swaps: nat, spent: nat, received: nat, due: nat, toppedUp: nat, excess: nat, overlaps: nat)

  datatype World = World(chain: Chain, calls: seq<Phase>, pool: seq<Tx>, totals: Totals)

  datatype Event =
    | Arrive(native: bool)
    | ReadBalance(i: nat, up: bool)
    | Recheck(i: nat, up: bool)
    | ReadAllowance(i: nat, up: bool)
    | Submits(i: nat)
    | Mines(i: nat, received: nat)     // the transaction a call waits for
    | Confirms(i: nat)
    | Fails(i: nat)                    // an error or the receipt timeout
    | PoolMines(j: nat, received: nat) // a transaction given up on
    | PoolDrops(j: nat)
    | TopUp(amount: nat)
    | Crash(i: nat)

  // -- Sums over calls and pending transactions -----------------------------

  function Sum<T>(s: seq<T>, f: T -> nat): nat {
    if |s| == 0 then 0 else Sum(s[..|s| - 1], f) + f(s[|s| - 1])
  }

  lemma {:induction false} SumUpdate<T>(s: seq<T>, i: nat, x: T, f: T -> nat)
    requires i < |s|
    ensures Sum(s[i := x], f) == Sum(s, f) - f(s[i]) + f(x)
    ensures Sum(s, f) >= f(s[i])
  {
    var last := |s| - 1;
    if i < last {
      assert s[i := x][..last] == s[..last][i := x];
      SumUpdate(s[..last], i, x, f);
    } else {
      assert s[i := x][..last] == s[..last];
    }
  }

  lemma {:induction false} SumRemove<T>(s: seq<T>, j: nat, f: T -> nat)
    requires j < |s|
    ensures Sum(s, f) == Sum(Without(s, j), f) + f(s[j])
  {
    var last := |s| - 1;
    if j < last {
      assert Without(s, j)[..last - 1] == Without(s[..last], j);
      SumRemove(s[..last], j, f);
    } else {
      assert Without(s, j) == s[..last];
    }
  }

  lemma SumAppend<T>(s: seq<T>, x: T, f: T -> nat)
    ensures Sum(s + [x], f) == Sum(s, f) + f(x)
  {
    assert (s + [x])[..|s|] == s;
  }

  function Without<T>(s: seq<T>, j: nat): seq<T>
    requires j < |s|
  {
    s[..j] + s[j + 1..]
  }

  /** ETH that a transaction would wrap. */
  function WrapOf(tx: Tx): nat {
    if tx.Wrap? then tx.amount else 0
  }

  function SwapOf(tx: Tx): nat {
    if tx.ExactInput? then 1 else 0
  }

  /** ETH that a call has decided to wrap and that is not mined yet. */
  function CallWrap(p: Phase): nat {
    if p.Sending? || p.Waiting? then WrapOf(p.tx) else 0
  }

  /** A call can still bring at most one swap. */
  function CallSwap(p: Phase): nat {
    match p
    case Mined(tx, ok) => if tx.ExactInput? then 0 else 1
    case Finished(_) => 0
    case _ => 1
  }

  /** A call that knows its swap landed. */
  function CallDone(p: Phase): nat {
    if p == Finished(None) || (p.Mined? && p.tx.ExactInput? && p.ok) then 1 else 0
  }

  /** ETH on its way into WETH: decided, sent or given up on, and not mined. */
  function UnderWay(w: World): nat {
    Sum(w.calls, CallWrap) + Sum(w.pool, WrapOf)
  }

  // -- Steps ----------------------------------------------------------------

  function Min(a: nat, b: nat): nat {
    if a <= b then a else b
  }

  function Max(a: nat, b: nat): nat {
    if a <= b then b else a
  }

  function At(w: World, i: nat, p: Phase): World
    requires i < |w.calls|
  {
    w.(calls := w.calls[i := p])
  }

  /** A transaction is mined; it reverts if the chain does not allow it. */
  function Mine(w: World, tx: Tx, received: nat): World {
    var r := Reply(true, true, received);
    if !Succeeds(w.chain, tx, r) then w
    else
      var t := w.totals;
      w.(chain := Effect(w.chain, tx, r),
         totals := match tx
                   case Wrap(a) => t.(wrapped := t.wrapped + a)
                   case Approve(_) => t
                   case ExactInput(a, m) =>
                     t.(swaps := t.swaps + 1, spent := t.spent + a,
                        due := t.due + m, received := t.received + received))
  }

  /** The wrap a balance read decides on, charged with what it duplicates. */
  function DecideWrap(w: World, i: nat, o: Order): World
    requires i < |w.calls|
  {
    var short, p, t := Shortfall(w.chain, o.amountIn), UnderWay(w), w.totals;
    At(w, i, Sending(Wrap(short))).(totals := t.(excess := t.excess + Min(p, short),
                                                 overlaps := t.overlaps + if p > 0 then 1 else 0))
  }

  function StepOf(tx: Tx): Step {
    match tx case Wrap(_) => WrapStep case Approve(_) => ApproveStep case ExactInput(_, _) => SwapStep
  }

  /** After an error a wrap is looked at once more, the others end the call. */
  function AfterError(tx: Tx): Phase {
    if tx.Wrap? then AtRecheck else Finished(Some(StepOf(tx)))
  }

  function AfterConfirm(tx: Tx, o: Order): Phase {
    match tx
    case Wrap(_) => AtAllowance
    case Approve(_) => Sending(ExactInput(o.amountIn, o.minOut))
    case ExactInput(_, _) => Finished(None)
  }

  predicate Deciding(w: World, e: Event, o: Order) {
    e.ReadBalance? && e.i < |w.calls| && w.calls[e.i].AtBalance? && e.up && w.chain.balIn < o.amountIn
  }

  /** One event of call `i`. */
  function CallStep(w: World, e: Event, i: nat, o: Order): World
    requires i < |w.calls|
  {
    var p := w.calls[i];
    match e
    case ReadBalance(_, up) =>
      if !p.AtBalance? then w
      else if !up then At(w, i, Finished(Some(ReadStep)))
      else if w.chain.balIn >= o.amountIn then At(w, i, AtAllowance)
      else DecideWrap(w, i, o)
    case Recheck(_, up) =>
      if !p.AtRecheck? then w
      else At(w, i, if up && w.chain.balIn >= o.amountIn then AtAllowance else Finished(Some(WrapStep)))
    case ReadAllowance(_, up) =>
      if !p.AtAllowance? then w
      else if !up then At(w, i, Finished(Some(ReadStep)))
      else At(w, i, Sending(if w.chain.allowance < o.amountIn then Approve(o.amountIn)
                            else ExactInput(o.amountIn, o.minOut)))
    case Submits(_) => if p.Sending? then At(w, i, Waiting(p.tx)) else w
    case Mines(_, received) =>
      if !p.Waiting? then w
      else At(Mine(w, p.tx, received), i, Mined(p.tx, Succeeds(w.chain, p.tx, Reply(true, true, received))))
    case Confirms(_) => if p.Mined? && p.ok then At(w, i, AfterConfirm(p.tx, o)) else w
    case Fails(_) =>
      if p.Mined? then At(w, i, AfterError(p.tx))
      else if p.Sending? || p.Waiting? then At(w, i, AfterError(p.tx)).(pool := w.pool + [p.tx])
      else w
    case Crash(_) =>
      if p.Waiting? then At(w, i, Finished(Some(StepOf(p.tx)))).(pool := w.pool + [p.tx])
      else if p.Finished? then w
      else At(w, i, Finished(Some(if p.Sending? || p.Mined? then StepOf(p.tx) else ReadStep)))
    case _ => w
  }

  function CallOf(e: Event): Option<nat> {
    match e
    case ReadBalance(i, _) => Some(i)
    case Recheck(i, _) => Some(i)
    case ReadAllowance(i, _) => Some(i)
    case Submits(i) => Some(i)
    case Mines(i, _) => Some(i)
    case Confirms(i) => Some(i)
    case Fails(i) => Some(i)
    case Crash(i) => Some(i)
    case _ => None
  }

  function Next(w: World, e: Event, o: Order): World {
    match e
    case Arrive(native) => w.(calls := w.calls + [if native then AtBalance else AtAllowance])
    case PoolMines(j, received) =>
      if j < |w.pool| then Mine(w, w.pool[j], received).(pool := Without(w.pool, j)) else w
    case PoolDrops(j) => if j < |w.pool| then w.(pool := Without(w.pool, j)) else w
    case TopUp(x) =>
      w.(chain := w.chain.(balIn := w.chain.balIn + x), totals := w.totals.(toppedUp := w.totals.toppedUp + x))
    case _ =>
      var i := CallOf(e).value;
      if i < |w.calls| then CallStep(w, e, i, o) else w
  }

  function Start(c: Chain): World {
    World(c, [], [], Totals(0, 0, 0, 0, 0, 0, 0, 0))
  }

  function Run(c: Chain, es: seq<Event>, o: Order): World {
    if |es| == 0 then Start(c) else Next(Run(c, es[..|es| - 1], o), es[|es| - 1], o)
  }

  // -- Where a call goes ----------------------------------------------------

  /** What brings a call to each of its points, and no other event does. */
  lemma CallGoesTo(w: World, e: Event, i: nat, o: Order)
    requires i < |w.calls| && Next(w, e, o).calls[i] != w.calls[i]
    ensures var p, p' := w.calls[i], Next(w, e, o).calls[i];
            var funded, allowed := w.chain.balIn >= o.amountIn, w.chain.allowance >= o.amountIn;
            match p'
            case AtBalance => false
            case AtRecheck =>
              e == Fails(i) && ((p.Sending? && p.tx.Wrap?) || (p.Waiting? && p.tx.Wrap?) || (p.Mined? && p.tx.Wrap?))
            case AtAllowance =>
              || (p.AtBalance? && e == ReadBalance(i, true) && funded)
              || (p.AtRecheck? && e == Recheck(i, true) && funded)
              || (e == Confirms(i) && p.Mined? && p.ok && p.tx.Wrap?)
            case Sending(Wrap(amount)) =>
              p.AtBalance? && e == ReadBalance(i, true) && !funded && amount == o.amountIn - w.chain.balIn
            case Sending(Approve(amount)) =>
              p.AtAllowance? && e == ReadAllowance(i, true) && !allowed && amount == o.amountIn
            case Sending(ExactInput(amountIn, minOut)) =>
              && amountIn == o.amountIn && minOut == o.minOut
              && (|| (p.AtAllowance? && e == ReadAllowance(i, true) && allowed)
                  || (e == Confirms(i) && p.Mined? && p.ok && p.tx.Approve?))
            case Waiting(tx) => p == Sending(tx) && e == Submits(i)
            case Mined(tx, _) => p == Waiting(tx) && e.Mines? && e.i == i
            case Finished(None) => e == Confirms(i) && p.Mined? && p.ok && p.tx.ExactInput?
            case Finished(Some(step)) =>
              || e == Crash(i)
              || (p.AtBalance? && e == ReadBalance(i, false) && step == ReadStep)
              || (p.AtAllowance? && e == ReadAllowance(i, false) && step == ReadStep)
              || (p.AtRecheck? && e.Recheck? && e.i == i && !(e.up && funded) && step == WrapStep)
              || (&& e == Fails(i) && (p.Sending? || p.Waiting? || p.Mined?)
                  && ((p.tx.Approve? && step == ApproveStep) || (p.tx.ExactInput? && step == SwapStep)))
  {
    hide Mine, Shortfall;
    assert Shortfall(w.chain, o.amountIn) == o.amountIn - w.chain.balIn || w.chain.balIn >= o.amountIn
    by { ShortfallIs(w.chain, o.amountIn); }
    if e.Mines? && e.i < |w.calls| && w.calls[e.i].Waiting? {
      MineKeepsCalls(w, w.calls[e.i].tx, e.received);
    } else if e.PoolMines? && e.j < |w.pool| {
      MineKeepsCalls(w, w.pool[e.j], e.received);
    }
  }

  lemma ShortfallIs(c: Chain, amountIn: nat)
    ensures Shortfall(c, amountIn) == if c.balIn >= amountIn then 0 else amountIn - c.balIn
  {
  }

  lemma MineKeepsCalls(w: World, tx: Tx, received: nat)
    ensures Mine(w, tx, received).calls == w.calls && Mine(w, tx, received).pool == w.pool
  {
  }

  /** And each event does bring a call on: none of them leaves it where it stands. */
  lemma CallGoesOn(w: World, e: Event, i: nat, o: Order)
    requires i < |w.calls|
    ensures Next(w, e, o).calls[i] != w.calls[i] <==>
            var p := w.calls[i];
            || (p.AtBalance? && e.ReadBalance? && e.i == i) || (p.AtRecheck? && e.Recheck? && e.i == i)
            || (p.AtAllowance? && e.ReadAllowance? && e.i == i)
            || (p.Sending? && e == Submits(i)) || (p.Waiting? && e.Mines? && e.i == i)
            || (p.Mined? && p.ok && e == Confirms(i))
            || ((p.Sending? || p.Waiting? || p.Mined?) && e == Fails(i))
            || (!p.Finished? && e == Crash(i))
  {
    hide Mine, Shortfall, UnderWay;
    if e.Mines? && e.i < |w.calls| && w.calls[e.i].Waiting? {
      MineKeepsCalls(w, w.calls[e.i].tx, e.received);
    } else if e.PoolMines? && e.j < |w.pool| {
      MineKeepsCalls(w, w.pool[e.j], e.received);
    }
  }

  /** A transaction is left pending exactly by a call that gives up on one it may have handed over. */
  lemma LeftPendingWhen(w: World, e: Event, o: Order)
    ensures var w' := Next(w, e, o);
            |w'.pool| > |w.pool| <==>
            exists i :: && 0 <= i < |w.calls| && (w.calls[i].Sending? || w.calls[i].Waiting?)
                        && (e == Fails(i) || (e == Crash(i) && w.calls[i].Waiting?))
                        && w'.pool == w.pool + [w.calls[i].tx]
  {
    hide UnderWay, Shortfall, Mine;
    if e.Mines? && e.i < |w.calls| && w.calls[e.i].Waiting? {
      MineKeepsCalls(w, w.calls[e.i].tx, e.received);
    } else if e.PoolMines? && e.j < |w.pool| {
      MineKeepsCalls(w, w.pool[e.j], e.received);
    } else if e.Fails? || e.Crash? {
      if e.i < |w.calls| && (w.calls[e.i].Sending? || w.calls[e.i].Waiting?) {
        var i := e.i;
        assert e == Fails(i) || e == Crash(i);
      }
    }
  }

  // -- The invariant --------------------------------------------------------

  /** What wraps may have taken: the first shortfall, the input of landed swaps, and duplicated wraps. */
  predicate WrapsBounded(w: World, c: Chain, o: Order) {
    w.totals.wrapped + Max(UnderWay(w), Shortfall(w.chain, o.amountIn))
    <= Shortfall(c, o.amountIn) + w.totals.spent + w.totals.excess
  }

  predicate Conserved(now: Chain, t: Totals, c: Chain) {
    && now.eth + t.wrapped == c.eth
    && now.eth + now.balIn + t.spent == c.eth + c.balIn + t.toppedUp
    && now.balOut == c.balOut + t.received && t.received >= t.due
  }

  /** Swaps landed, pending or still to come number at most the calls; reported ones have landed. */
  predicate SwapsBounded(w: World) {
    && w.totals.swaps + Sum(w.pool, SwapOf) + Sum(w.calls, CallSwap) <= |w.calls|
    && Sum(w.calls, CallDone) <= w.totals.swaps
  }

  predicate Ordered(tx: Tx, o: Order) {
    tx.ExactInput? ==> tx == ExactInput(o.amountIn, o.minOut)
  }

  predicate PhaseOrdered(p: Phase, o: Order) {
    p.Sending? || p.Waiting? || p.Mined? ==> Ordered(p.tx, o)
  }

  ghost predicate AllOrdered(w: World, o: Order) {
    && (forall i :: 0 <= i < |w.calls| ==> PhaseOrdered(w.calls[i], o))
    && (forall j :: 0 <= j < |w.pool| ==> Ordered(w.pool[j], o))
  }

  predicate Priced(t: Totals, o: Order) {
    && t.spent == t.swaps * o.amountIn && t.due == t.swaps * o.minOut
    && t.excess <= t.overlaps * o.amountIn
  }

  ghost predicate Sound(w: World, c: Chain, o: Order) {
    && WrapsBounded(w, c, o) && Conserved(w.chain, w.totals, c) && SwapsBounded(w)
    && AllOrdered(w, o) && Priced(w.totals, o)
  }

  /** Moving one call, and perhaps leaving its transaction to the pool, moves its own share of each sum. */
  lemma MoveSums(w: World, w': World, i: nat, tx: Tx)
    requires i < |w.calls| == |w'.calls| && w'.calls == w.calls[i := w'.calls[i]]
    requires w'.pool == w.pool || w'.pool == w.pool + [tx]
    ensures var p, p' := w.calls[i], w'.calls[i]; var left := w'.pool != w.pool;
            && UnderWay(w') + CallWrap(p) == UnderWay(w) + CallWrap(p') + (if left then WrapOf(tx) else 0)
            && Sum(w'.pool, SwapOf) + Sum(w'.calls, CallSwap) + CallSwap(p)
               == Sum(w.pool, SwapOf) + Sum(w.calls, CallSwap) + CallSwap(p') + (if left then SwapOf(tx) else 0)
            && Sum(w'.calls, CallDone) + CallDone(p) == Sum(w.calls, CallDone) + CallDone(p')
  {
    hide WrapOf, SwapOf, CallWrap, CallSwap, CallDone;
    SumUpdate(w.calls, i, w'.calls[i], CallWrap);
    SumUpdate(w.calls, i, w'.calls[i], CallSwap);
    SumUpdate(w.calls, i, w'.calls[i], CallDone);
    SumAppend(w.pool, tx, WrapOf);
    SumAppend(w.pool, tx, SwapOf);
  }

  lemma PoolSums(w: World, w': World, j: nat)
    requires j < |w.pool| && w'.calls == w.calls && w'.pool == Without(w.pool, j)
    ensures UnderWay(w) == UnderWay(w') + WrapOf(w.pool[j])
    ensures Sum(w.pool, SwapOf) == Sum(w'.pool, SwapOf) + SwapOf(w.pool[j])
  {
    SumRemove(w.pool, j, WrapOf);
    SumRemove(w.pool, j, SwapOf);
  }

  /** Mining keeps the books: `under` is what is under way besides the transaction mined. */
  lemma MineKeepsBooks(w: World, tx: Tx, received: nat, under: nat, c: Chain, o: Order)
    requires Conserved(w.chain, w.totals, c) && Priced(w.totals, o) && Ordered(tx, o)
    requires w.totals.wrapped + Max(under + WrapOf(tx), Shortfall(w.chain, o.amountIn))
             <= Shortfall(c, o.amountIn) + w.totals.spent + w.totals.excess
    ensures var w' := Mine(w, tx, received);
            && Conserved(w'.chain, w'.totals, c) && Priced(w'.totals, o) && w'.calls == w.calls && w'.pool == w.pool
            && w'.totals.swaps == w.totals.swaps
               + (if tx.ExactInput? && Succeeds(w.chain, tx, Reply(true, true, received)) then 1 else 0)
            && w'.totals.wrapped + Max(under, Shortfall(w'.chain, o.amountIn))
               <= Shortfall(c, o.amountIn) + w'.totals.spent + w'.totals.excess
  {
    OneMoreSwap(w.totals.swaps, o.amountIn);
    OneMoreSwap(w.totals.swaps, o.minOut);
  }

  lemma OneMoreSwap(k: nat, x: nat)
    ensures (k + 1) * x == k * x + x
  {
  }

  lemma DecideKeepsSound(w: World, i: nat, c: Chain, o: Order)
    requires Sound(w, c, o) && i < |w.calls| && w.calls[i].AtBalance?
    ensures Sound(DecideWrap(w, i, o), c, o)
  {
    hide Sum;
    var w' := DecideWrap(w, i, o);
    MoveSums(w, w', i, Wrap(0));
    OneMoreSwap(w.totals.overlaps, o.amountIn);
  }

  lemma MinesKeepsSound(w: World, i: nat, received: nat, c: Chain, o: Order)
    requires Sound(w, c, o) && i < |w.calls| && w.calls[i].Waiting?
    ensures Sound(CallStep(w, Mines(i, received), i, o), c, o)
  {
    hide Sum, Mine, Priced, Conserved, Succeeds;
    var p, w' := w.calls[i], CallStep(w, Mines(i, received), i, o);
    MineKeepsBooks(w, p.tx, received, UnderWay(w) - CallShare(w, i), c, o);
    MoveSums(w, w', i, p.tx);
  }

  /** A call's own wrap is part of what is under way. */
  function CallShare(w: World, i: nat): (a: nat)
    requires i < |w.calls|
    ensures a <= UnderWay(w) && a == CallWrap(w.calls[i])
  {
    SumUpdate(w.calls, i, w.calls[i], CallWrap);
    CallWrap(w.calls[i])
  }

  /** Steps of one call that mine nothing and decide no wrap. */
  lemma MoveKeepsSound(w: World, e: Event, i: nat, c: Chain, o: Order)
    requires Sound(w, c, o) && CallOf(e) == Some(i) && i < |w.calls| && !e.Mines? && !Deciding(w, e, o)
    ensures Sound(CallStep(w, e, i, o), c, o)
  {
    hide Sum, Priced, Conserved;
    var p, w' := w.calls[i], CallStep(w, e, i, o);
    if w' != w {
      var tx := if p.Sending? || p.Waiting? then p.tx else Wrap(0);
      MoveSums(w, w', i, tx);
    }
  }

  lemma PoolKeepsSound(w: World, j: nat, received: nat, c: Chain, o: Order)
    requires Sound(w, c, o) && j < |w.pool|
    ensures Sound(Next(w, PoolMines(j, received), o), c, o)
    ensures Sound(Next(w, PoolDrops(j), o), c, o)
  {
    hide Sum, Mine, Priced, Conserved, Succeeds;
    var tx := w.pool[j];
    var dropped := w.(pool := Without(w.pool, j));
    PoolSums(w, dropped, j);
    MineKeepsBooks(w, tx, received, UnderWay(dropped), c, o);
    var w' := Next(w, PoolMines(j, received), o);
  }

  lemma ArriveKeepsSound(w: World, native: bool, c: Chain, o: Order)
    requires Sound(w, c, o)
    ensures Sound(Next(w, Arrive(native), o), c, o)
  {
    hide Sum;
    var p := if native then AtBalance else AtAllowance;
    SumAppend(w.calls, p, CallWrap);
    SumAppend(w.calls, p, CallSwap);
    SumAppend(w.calls, p, CallDone);
  }

  lemma StepKeepsSound(w: World, e: Event, c: Chain, o: Order)
    requires Sound(w, c, o)
    ensures Sound(Next(w, e, o), c, o)
  {
    hide Sound, CallStep, DecideWrap, Mine;
    match e {
      case Arrive(native) => ArriveKeepsSound(w, native, c, o);
      case PoolMines(j, received) => if j < |w.pool| { PoolKeepsSound(w, j, received, c, o); }
      case PoolDrops(j) => if j < |w.pool| { PoolKeepsSound(w, j, 0, c, o); }
      case TopUp(x) => TopUpKeepsSound(w, x, c, o);
      case _ =>
        var i := CallOf(e).value;
        if i < |w.calls| { CallKeepsSound(w, e, i, c, o); }
    }
  }

  lemma TopUpKeepsSound(w: World, x: nat, c: Chain, o: Order)
    requires Sound(w, c, o)
    ensures Sound(Next(w, TopUp(x), o), c, o)
  {
    hide Sum;
  }

  lemma CallKeepsSound(w: World, e: Event, i: nat, c: Chain, o: Order)
    requires Sound(w, c, o) && CallOf(e) == Some(i) && i < |w.calls|
    ensures Sound(CallStep(w, e, i, o), c, o)
  {
    hide Sound, DecideWrap, Mine, Sum;
    if Deciding(w, e, o) { DecideKeepsSound(w, i, c, o); }
    else if e.Mines? { if w.calls[i].Waiting? { MinesKeepsSound(w, i, e.received, c, o); } }
    else { MoveKeepsSound(w, e, i, c, o); }
  }

  /**
   * Over any calls, interleaved in any way, with transactions mined as late as they like: wraps take
   * no more than the first shortfall, one input for each landed swap, and what was decided while other
   * wraps were still under way, at most one input for each such decision. ETH plus WETH is conserved,
   * every landed swap costs exactly one input and pays its floor, no call brings more than one, and
   * every call that reports success has brought one.
   */
  lemma {:induction false} RetriesAreBounded(c: Chain, es: seq<Event>, o: Order)
    ensures Sound(Run(c, es, o), c, o)
  {
    hide Next, Sound;
    if |es| == 0 {
      StartIsSound(c, o);
    } else {
      RetriesAreBounded(c, es[..|es| - 1], o);
      StepKeepsSound(Run(c, es[..|es| - 1], o), es[|es| - 1], c, o);
    }
  }

  lemma StartIsSound(c: Chain, o: Order)
    ensures Sound(Start(c), c, o)
  {
  }

  // -- When the bound is the plain one --------------------------------------

  /** A step costs a duplicated wrap exactly when it decides one while another is still under way. */
  lemma DuplicatesWhen(w: World, e: Event, o: Order)
    ensures var t, t' := w.totals, Next(w, e, o).totals;
            && (t'.excess > t.excess <==> Deciding(w, e, o) && UnderWay(w) > 0)
            && (t'.overlaps > t.overlaps <==> Deciding(w, e, o) && UnderWay(w) > 0)
            && t'.excess >= t.excess && t'.overlaps >= t.overlaps
  {
    hide UnderWay;
  }

  lemma {:induction false} ExcessNeedsOverlap(c: Chain, es: seq<Event>, o: Order)
    ensures var t := Run(c, es, o).totals; t.excess > 0 <==> t.overlaps > 0
  {
    hide Next;
    if |es| > 0 {
      ExcessNeedsOverlap(c, es[..|es| - 1], o);
      DuplicatesWhen(Run(c, es[..|es| - 1], o), es[|es| - 1], o);
    }
  }

  /** With no wrap under way at any read that decides one, wraps stay within shortfall and landed inputs. */
  lemma {:induction false} NoOverlapNoExcess(c: Chain, es: seq<Event>, o: Order)
    requires Run(c, es, o).totals.overlaps == 0
    ensures Run(c, es, o).totals.wrapped <= Shortfall(c, o.amountIn) + Run(c, es, o).totals.spent
  {
    hide Run;
    RetriesAreBounded(c, es, o);
    ExcessNeedsOverlap(c, es, o);
  }

  // -- When wraps really overrun --------------------------------------------

  function From(w: World, es: seq<Event>, o: Order): World {
    if |es| == 0 then w else Next(From(w, es[..|es| - 1], o), es[|es| - 1], o)
  }

  /** No event of the run decides a wrap. */
  predicate NoDecision(w: World, es: seq<Event>, o: Order) {
    |es| == 0 || (NoDecision(w, es[..|es| - 1], o) && !Deciding(From(w, es[..|es| - 1], o), es[|es| - 1], o))
  }

  /** What may come of what is under way, with no further wrap decided. */
  ghost predicate Settles(w: World, w': World, o: Order) {
    exists es :: From(w, es, o) == w' && NoDecision(w, es, o)
  }

  lemma SettlesOn(w: World, w1: World, e: Event, o: Order)
    requires Settles(w, w1, o) && !Deciding(w1, e, o)
    ensures Settles(w, Next(w1, e, o), o)
  {
    hide Next, Deciding;
    var es :| From(w, es, o) == w1 && NoDecision(w, es, o);
    assert (es + [e])[..|es|] == es;
    assert From(w, es + [e], o) == Next(w1, e, o) && NoDecision(w, es + [e], o);
  }

  /** Without a decision the wraps mined and under way together never grow. */
  lemma NothingAdded(w: World, e: Event, o: Order)
    requires !Deciding(w, e, o)
    ensures var w' := Next(w, e, o);
            w'.totals.wrapped + UnderWay(w') <= w.totals.wrapped + UnderWay(w) && w'.totals.spent >= w.totals.spent
  {
    hide Sum, CallStep;
    match e {
      case Arrive(native) => SumAppend(w.calls, if native then AtBalance else AtAllowance, CallWrap);
      case PoolMines(j, _) => if j < |w.pool| { PoolSums(w, w.(pool := Without(w.pool, j)), j); }
      case PoolDrops(j) => if j < |w.pool| { PoolSums(w, w.(pool := Without(w.pool, j)), j); }
      case TopUp(_) =>
      case _ =>
        var i := CallOf(e).value;
        if i < |w.calls| { NothingAddedByCall(w, e, i, o); }
    }
  }

  lemma NothingAddedByCall(w: World, e: Event, i: nat, o: Order)
    requires CallOf(e) == Some(i) && i < |w.calls| && !Deciding(w, e, o)
    ensures var w' := CallStep(w, e, i, o);
            w'.totals.wrapped + UnderWay(w') <= w.totals.wrapped + UnderWay(w) && w'.totals.spent >= w.totals.spent
  {
    hide Sum;
    var p, w' := w.calls[i], CallStep(w, e, i, o);
    if w' != w {
      MoveSums(w, w', i, if p.Sending? || p.Waiting? then p.tx else Wrap(0));
    }
  }

  lemma {:induction false} SettlingAddsNothing(w: World, es: seq<Event>, o: Order)
    requires NoDecision(w, es, o)
    ensures var w' := From(w, es, o);
            w'.totals.wrapped + UnderWay(w') <= w.totals.wrapped + UnderWay(w) && w'.totals.spent >= w.totals.spent
  {
    hide Next, Deciding, UnderWay;
    if |es| > 0 {
      SettlingAddsNothing(w, es[..|es| - 1], o);
      NothingAdded(From(w, es[..|es| - 1], o), es[|es| - 1], o);
    }
  }

  lemma {:induction false} SumPositive<T>(s: seq<T>, f: T -> nat)
    requires Sum(s, f) > 0
    ensures exists i :: 0 <= i < |s| && f(s[i]) > 0
  {
    if f(s[|s| - 1]) == 0 {
      SumPositive(s[..|s| - 1], f);
      var i :| 0 <= i < |s| - 1 && f(s[..|s| - 1][i]) > 0;
      assert f(s[i]) > 0;
    }
  }

  /** With the ETH there, everything under way can be mined. */
  lemma {:induction false} AllMined(w0: World, w: World, o: Order) returns (w': World)
    requires Settles(w0, w, o) && UnderWay(w) <= w.chain.eth
    ensures Settles(w0, w', o)
    ensures w'.totals.wrapped == w.totals.wrapped + UnderWay(w) && w'.totals.spent == w.totals.spent
    decreases UnderWay(w)
  {
    hide Settles;
    if UnderWay(w) == 0 { return w; }
    var next := OneMined(w0, w, o);
    w' := AllMined(w0, next, o);
  }

  lemma OneMined(w0: World, w: World, o: Order) returns (w': World)
    requires Settles(w0, w, o) && 0 < UnderWay(w) <= w.chain.eth
    ensures Settles(w0, w', o) && UnderWay(w') < UnderWay(w) && UnderWay(w') <= w'.chain.eth
    ensures w'.totals.wrapped + UnderWay(w') == w.totals.wrapped + UnderWay(w) && w'.totals.spent == w.totals.spent
  {
    hide Settles, Sum;
    if Sum(w.pool, WrapOf) > 0 {
      SumPositive(w.pool, WrapOf);
      var j :| 0 <= j < |w.pool| && WrapOf(w.pool[j]) > 0;
      PoolSums(w, w.(pool := Without(w.pool, j)), j);
      SettlesOn(w0, w, PoolMines(j, 0), o);
      w' := Next(w, PoolMines(j, 0), o);
    } else {
      SumPositive(w.calls, CallWrap);
      var i :| 0 <= i < |w.calls| && CallWrap(w.calls[i]) > 0;
      w' := CallMined(w0, w, i, o);
    }
  }

  lemma CallMined(w0: World, w: World, i: nat, o: Order) returns (w': World)
    requires Settles(w0, w, o) && UnderWay(w) <= w.chain.eth && i < |w.calls| && CallWrap(w.calls[i]) > 0
    ensures Settles(w0, w', o) && UnderWay(w') < UnderWay(w) && UnderWay(w') <= w'.chain.eth
    ensures w'.totals.wrapped + UnderWay(w') == w.totals.wrapped + UnderWay(w) && w'.totals.spent == w.totals.spent
  {
    hide Settles, Sum;
    var share := CallShare(w, i);
    SettlesOn(w0, w, Submits(i), o);
    var w1 := Next(w, Submits(i), o);
    SettlesOn(w0, w1, Mines(i, 0), o);
    w' := Next(w1, Mines(i, 0), o);
    assert w'.calls == w.calls[i := w'.calls[i]];
    MoveSums(w, w', i, Wrap(0));
  }

  /**
   * Wraps can come to take more than shortfall and landed inputs, with no further wrap decided,
   * exactly when those mined and those under way together already exceed them; given the ETH.
   */
  lemma OverrunsWhen(w: World, c: Chain, o: Order)
    requires UnderWay(w) <= w.chain.eth
    ensures (exists w' :: Settles(w, w', o) && w'.totals.wrapped > Shortfall(c, o.amountIn) + w'.totals.spent)
            <==> w.totals.wrapped + UnderWay(w) > Shortfall(c, o.amountIn) + w.totals.spent
  {
    if w' :| Settles(w, w', o) && w'.totals.wrapped > Shortfall(c, o.amountIn) + w'.totals.spent {
      var es :| From(w, es, o) == w' && NoDecision(w, es, o);
      SettlingAddsNothing(w, es, o);
    }
    if w.totals.wrapped + UnderWay(w) > Shortfall(c, o.amountIn) + w.totals.spent {
      assert From(w, [], o) == w && NoDecision(w, [], o);
      var w' := AllMined(w, w, o);
    }
  }

  /** So a read that decides a wrap makes room for an overrun exactly when that holds with its shortfall added. */
  lemma DecisionOverrunsWhen(w: World, e: Event, c: Chain, o: Order)
    requires Deciding(w, e, o) && UnderWay(w) + Shortfall(w.chain, o.amountIn) <= w.chain.eth
    ensures (exists w' ::
               Settles(Next(w, e, o), w', o) && w'.totals.wrapped > Shortfall(c, o.amountIn) + w'.totals.spent)
            <==> w.totals.wrapped + UnderWay(w) + Shortfall(w.chain, o.amountIn)
                 > Shortfall(c, o.amountIn) + w.totals.spent
  {
    MoveSums(w, Next(w, e, o), e.i, Wrap(0));
    OverrunsWhen(Next(w, e, o), c, o);
  }

  // -- Runs step by step ----------------------------------------------------

  ghost predicate Reachable(w: World, c: Chain, o: Order) {
    exists es :: Run(c, es, o) == w
  }

  lemma Then(w: World, e: Event, c: Chain, o: Order)
    requires Reachable(w, c, o)
    ensures Reachable(Next(w, e, o), c, o)
  {
    var es :| Run(c, es, o) == w;
    assert (es + [e])[..|es|] == es;
    assert Run(c, es + [e], o) == Next(w, e, o);
  }

  // -- One call alone -------------------------------------------------------

  /** A lone call's transaction, mined at once or never, leaves what the sequence says. */
  lemma SendsAlone(w: World, tx: Tx, reply: Reply, c: Chain, o: Order) returns (w': World)
    requires Reachable(w, c, o) && w.calls == [Sending(tx)]
    ensures Reachable(w', c, o) && w'.chain == After(Sent(tx, w.chain, reply))
    ensures w'.calls == [if Confirmed(Sent(tx, w.chain, reply)) then AfterConfirm(tx, o) else AfterError(tx)]
  {
    hide Reachable;
    Then(w, Submits(0), c, o);
    w' := Next(w, Submits(0), o);
    if reply.landed {
      Then(w', Mines(0, reply.received), c, o);
      w' := Next(w', Mines(0, reply.received), o);
    }
    var e := if Confirmed(Sent(tx, w.chain, reply)) then Confirms(0) else Fails(0);
    Then(w', e, c, o);
    w' := Next(w', e, o);
  }

  /** From the allowance on: approve if needed, then swap. */
  lemma FinishesAlone(w: World, n: Node, c: Chain, o: Order) returns (w': World)
    requires Reachable(w, c, o) && w.calls == [AtAllowance]
    ensures var approved := ApproveStage(Stage(w.chain, [], None), o.amountIn, n);
            var end := if approved.failed.Some? then approved else SwapStage(approved, o.amountIn, o.minOut, n);
            Reachable(w', c, o) && w'.chain == end.chain && w'.calls == [Finished(end.failed)]
  {
    hide Reachable;
    Then(w, ReadAllowance(0, n.allowanceUp), c, o);
    w' := Next(w, ReadAllowance(0, n.allowanceUp), o);
    if !n.allowanceUp { return; }
    if w.chain.allowance < o.amountIn {
      w' := SendsAlone(w', Approve(o.amountIn), n.approve, c, o);
      if !Confirmed(Sent(Approve(o.amountIn), w.chain, n.approve)) { return; }
    }
    w' := SendsAlone(w', ExactInput(o.amountIn, o.minOut), n.swap, c, o);
  }

  /** The wrap of a native call, ending at the allowance or in failure. */
  lemma WrapsAlone(w: World, n: Node, c: Chain, o: Order) returns (w': World)
    requires Reachable(w, c, o) && w.calls == [AtBalance]
    ensures var wrapped := WrapStage(Stage(w.chain, [], None), o.amountIn, n);
            && Reachable(w', c, o) && w'.chain == wrapped.chain
            && w'.calls == [if wrapped.failed.Some? then Finished(wrapped.failed) else AtAllowance]
  {
    hide Reachable, UnderWay;
    Then(w, ReadBalance(0, n.balanceUp), c, o);
    w' := Next(w, ReadBalance(0, n.balanceUp), o);
    if !n.balanceUp || w.chain.balIn >= o.amountIn { return; }
    var tx := Wrap(o.amountIn - w.chain.balIn);
    w' := SendsAlone(w', tx, n.wrap, c, o);
    if !Confirmed(Sent(tx, w.chain, n.wrap)) {
      Then(w', TopUp(n.topUp), c, o);
      w' := Next(w', TopUp(n.topUp), o);
      Then(w', Recheck(0, n.recheckUp), c, o);
      w' := Next(w', Recheck(0, n.recheckUp), o);
    }
  }

  /** The sequence of one call is a run of this machine, to the same chain and the same end. */
  lemma OneCallIsARun(c: Chain, native: bool, o: Order, n: Node) returns (w: World)
    ensures var end := Outcome(c, native, o.amountIn, o.minOut, n);
            Reachable(w, c, o) && w.chain == end.chain && w.calls == [Finished(end.failed)]
  {
    assert Reachable(Start(c), c, o) by { assert Run(c, [], o) == Start(c); }
    hide Reachable, WrapStage;
    Then(Start(c), Arrive(native), c, o);
    w := Next(Start(c), Arrive(native), o);
    assert w.calls == [if native then AtBalance else AtAllowance];
    if native {
      var wrapped := WrapStage(Stage(c, [], None), o.amountIn, n);
      w := WrapsAlone(w, n, c, o);
      if wrapped.failed.Some? { return; }
      SentIsNoMatter(wrapped, n, o);
    }
    w := FinishesAlone(w, n, c, o);
  }

  /** What was sent before makes no difference to what follows. */
  lemma SentIsNoMatter(s: Stage, n: Node, o: Order)
    requires s.failed.None?
    ensures var a, b := ApproveStage(s, o.amountIn, n), ApproveStage(Stage(s.chain, [], None), o.amountIn, n);
            && a.chain == b.chain && a.failed == b.failed
            && (a.failed.None? ==>
                  var x, y := SwapStage(a, o.amountIn, o.minOut, n), SwapStage(b, o.amountIn, o.minOut, n);
                  x.chain == y.chain && x.failed == y.failed)
  {
  }

  // -- Wraps that pile up ---------------------------------------------------

  /** `k` calls have given up on their wraps, all still pending. */
  function Stuck(c: Chain, o: Order, k: nat): World {
    var short := Shortfall(c, o.amountIn);
    World(c, seq(k, _ => Finished(Some(WrapStep))), seq(k, _ => Wrap(short)),
          Totals(0, 0, 0, 0, 0, 0, if k == 0 then 0 else (k - 1) * short, if k == 0 then 0 else k - 1))
  }

  lemma {:induction false} StuckIsUnderWay(c: Chain, o: Order, k: nat)
    ensures UnderWay(Stuck(c, o, k)) == k * Shortfall(c, o.amountIn)
  {
    if k > 0 {
      var w, w' := Stuck(c, o, k - 1), Stuck(c, o, k);
      StuckIsUnderWay(c, o, k - 1);
      assert w'.calls == w.calls + [Finished(Some(WrapStep))];
      assert w'.pool == w.pool + [Wrap(Shortfall(c, o.amountIn))];
      SumAppend(w.calls, Finished(Some(WrapStep)), CallWrap);
      SumAppend(w.pool, Wrap(Shortfall(c, o.amountIn)), WrapOf);
      OneMoreSwap(k - 1, Shortfall(c, o.amountIn));
    }
  }

  /** One more call reads the same balance, wraps and times out. */
  lemma OneMoreStuck(c: Chain, o: Order, k: nat)
    requires c.balIn < o.amountIn && Reachable(Stuck(c, o, k), c, o)
    ensures Reachable(Stuck(c, o, k + 1), c, o)
  {
    hide Reachable, UnderWay, Stuck;
    StuckIsUnderWay(c, o, k);
    StuckShape(c, o, k);
    var w, short := Stuck(c, o, k), Shortfall(c, o.amountIn);
    var w1 := Next(w, Arrive(true), o);
    Then(w, Arrive(true), c, o);
    ArrivesAlone(w);
    DuplicateCost(k, short);
    var w2 := Next(w1, ReadBalance(k, true), o);
    Then(w1, ReadBalance(k, true), c, o);
    var w3 := Next(w2, Submits(k), o);
    Then(w2, Submits(k), c, o);
    var w4 := Next(w3, Fails(k), o);
    Then(w3, Fails(k), c, o);
    var w5 := Next(w4, Recheck(k, false), o);
    Then(w4, Recheck(k, false), c, o);
    StuckShape(c, o, k + 1);
    assert w5.calls == Stuck(c, o, k + 1).calls;
    assert w5.pool == Stuck(c, o, k + 1).pool;
  }

  lemma StuckShape(c: Chain, o: Order, k: nat)
    ensures var w, short := Stuck(c, o, k), Shortfall(c, o.amountIn);
            && w.chain == c && |w.calls| == |w.pool| == k
            && (forall i :: 0 <= i < k ==> w.calls[i] == Finished(Some(WrapStep)) && w.pool[i] == Wrap(short))
            && w.totals == Totals(0, 0, 0, 0, 0, 0, if k == 0 then 0 else (k - 1) * short, if k == 0 then 0 else k - 1)
  {
  }

  lemma ArrivesAlone(w: World)
    ensures UnderWay(w.(calls := w.calls + [AtBalance])) == UnderWay(w)
  {
    SumAppend(w.calls, AtBalance, CallWrap);
  }

  lemma DuplicateCost(k: nat, short: nat)
    requires short > 0
    ensures Min(k * short, short) == (if k == 0 then 0 else short) && (k * short > 0 <==> k > 0)
    ensures (if k == 0 then 0 else (k - 1) * short) + (if k == 0 then 0 else short) == k * short
  {
  }

  /** After that, `j` of the pending wraps are mined. */
  lemma {:induction false} MinedLate(c: Chain, o: Order, k: nat, j: nat) returns (w: World)
    requires j <= k && Reachable(Stuck(c, o, k), c, o) && k * Shortfall(c, o.amountIn) <= c.eth
    ensures Reachable(w, c, o) && |w.pool| == k - j
    ensures forall i :: 0 <= i < |w.pool| ==> w.pool[i] == Wrap(Shortfall(c, o.amountIn))
    ensures w.totals == Stuck(c, o, k).totals.(wrapped := j * Shortfall(c, o.amountIn))
    ensures w.chain.eth == c.eth - j * Shortfall(c, o.amountIn)
  {
    hide Reachable;
    var short := Shortfall(c, o.amountIn);
    if j == 0 {
      w := Stuck(c, o, k);
    } else {
      var before := MinedLate(c, o, k, j - 1);
      Then(before, PoolMines(0, 0), c, o);
      w := Next(before, PoolMines(0, 0), o);
      OneMoreSwap(j - 1, short);
      Monotone(j, k, short);
    }
  }

  lemma Monotone(a: nat, b: nat, x: nat)
    requires a <= b
    ensures a * x <= b * x
  {
    assert b * x == a * x + (b - a) * x;
  }

  /**
   * The bound is reached: wherever the wallet is short of WETH and has the ETH, `n + 1` calls that
   * time out one after the other and whose wraps are mined afterwards wrap the shortfall `n + 1`
   * times, with no swap at all.
   */
  lemma {:induction false} LateWrapsPileUp(c: Chain, o: Order, n: nat)
    requires c.balIn < o.amountIn && (n + 1) * Shortfall(c, o.amountIn) <= c.eth
    ensures exists es :: var t := Run(c, es, o).totals;
                         t.wrapped == (n + 1) * Shortfall(c, o.amountIn) && t.swaps == 0 && t.overlaps == n
  {
    assert Run(c, [], o) == Stuck(c, o, 0);
    for k := 0 to n + 1
      invariant Reachable(Stuck(c, o, k), c, o)
    {
      OneMoreStuck(c, o, k);
    }
    var w := MinedLate(c, o, n + 1, n + 1);
  }
}
