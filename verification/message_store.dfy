/**
 * The in-process FIFO store (message_store.go): a list of strings with a
 * closed flag. Push appends at the tail, pop removes the head, and once the
 * store is closed every push and every pop fails with the closed error.
 *
 * Blocking is concurrency and is not modelled: a pop on an empty, open store
 * answers `WouldBlock`. A blocked pop that is woken re-checks the closed flag
 * before it looks at the list (message_store.go:59-68), which is the same
 * order as a fresh `BLPop`, so resuming a blocked pop is another `BLPop`.
 */
module MessageStore {

  import opened Wrappers

  /** `MessageStoreClosedError`, whose text is "message store is closed". */
  datatype StoreError = StoreClosed

  datatype PopResult = Popped(value: string) | WouldBlock | PopClosed

  /** The abstract state of a store: its elements, head first, and the closed flag. */
  datatype StoreState = StoreState(items: seq<string>, closed: bool)

  const EmptyStore := StoreState([], false)

  /** One `RPush`: the error it returns and the next state. */
  function PushStep(st: StoreState, value: string): (Option<StoreError>, StoreState)
  {
    if st.closed then (Some(StoreClosed), st)
    else (None, st.(items := st.items + [value]))
  }

  /** One `BLPop`: what it answers and the next state. */
  function PopStep(st: StoreState): (PopResult, StoreState)
  {
    if st.closed then (PopClosed, st)
    else if st.items == [] then (WouldBlock, st)
    else (Popped(st.items[0]), st.(items := st.items[1..]))
  }

  /** `Close`: sets the flag; the elements stay where they are. */
  function CloseStep(st: StoreState): StoreState
  {
    st.(closed := true)
  }

  class MessageStore {
    var items: seq<string>
    var closed: bool

    function State(): StoreState
      reads this
    {
      StoreState(items, closed)
    }

    /** `NewMessageStore`: an open, empty store. */
    constructor ()
      ensures State() == EmptyStore
    {
      items := [];
      closed := false;
    }

    method RPush(value: string) returns (err: Option<StoreError>)
      modifies this
      ensures (err, State()) == PushStep(old(State()), value)
      ensures old(closed) ==> err == Some(StoreClosed) && items == old(items)
      ensures !old(closed) ==> err == None && items == old(items) + [value] && |items| == old(|items|) + 1
      ensures closed == old(closed)
    {
      if closed {
        return Some(StoreClosed);
      }
      items := items + [value];
      err := None;
    }

    method BLPop() returns (r: PopResult)
      modifies this
      ensures (r, State()) == PopStep(old(State()))
      ensures old(closed) ==> r == PopClosed && items == old(items)
      ensures !old(closed) && old(items) != [] ==> r == Popped(old(items)[0]) && items == old(items)[1..]
      ensures !old(closed) && old(items) == [] ==> r == WouldBlock && items == []
      ensures closed == old(closed)
    {
      if closed {
        return PopClosed;
      }
      if items == [] {
        return WouldBlock;
      }
      r := Popped(items[0]);
      items := items[1..];
    }

    method Close() returns (err: Option<StoreError>)
      modifies this
      ensures State() == CloseStep(old(State()))
      ensures err == None && closed && items == old(items)
    {
      closed := true;
      err := None;
    }

    method Size() returns (n: int)
      ensures n == |items|
    {
      n := |items|;
    }
  }

  /** A client's call on the store, for reasoning about sequences of calls. */
  datatype Op = Push(value: string) | Pop | Shut

  /** The state after one call. */
  function Apply(st: StoreState, op: Op): StoreState
  {
    match op
    case Push(v) => PushStep(st, v).1
    case Pop => PopStep(st).1
    case Shut => CloseStep(st)
  }

  /** What one call answers, if it is a pop. */
  function Answer(st: StoreState, op: Op): seq<PopResult>
  {
    if op.Pop? then [PopStep(st).0] else []
  }

  /** The state after running `ops` in order from `st`. */
  function Final(st: StoreState, ops: seq<Op>): StoreState
    decreases |ops|
  {
    if ops == [] then st else Final(Apply(st, ops[0]), ops[1..])
  }

  /** What the pops among `ops` answer, in order. */
  function PopResults(st: StoreState, ops: seq<Op>): seq<PopResult>
    decreases |ops|
  {
    if ops == [] then [] else Answer(st, ops[0]) + PopResults(Apply(st, ops[0]), ops[1..])
  }

  /** The value a call offers, if it is a push. */
  function Offered(op: Op): seq<string>
  {
    if op.Push? then [op.value] else []
  }

  /** The values the pushes among `ops` offer, in order. */
  function Pushed(ops: seq<Op>): seq<string>
  {
    if ops == [] then [] else Offered(ops[0]) + Pushed(ops[1..])
  }

  /** The values actually delivered by the pops in `rs`, in order. */
  function Delivered(rs: seq<PopResult>): seq<string>
  {
    if rs == [] then []
    else (if rs[0].Popped? then [rs[0].value] else []) + Delivered(rs[1..])
  }

  predicate NoClose(ops: seq<Op>)
  {
    forall i :: 0 <= i < |ops| ==> !ops[i].Shut?
  }

  lemma {:induction false} DeliveredAppend(a: seq<PopResult>, b: seq<PopResult>)
    ensures Delivered(a + b) == Delivered(a) + Delivered(b)
    decreases |a|
  {
    if a == [] {
      assert a + b == b;
    } else {
      assert (a + b)[1..] == a[1..] + b;
      DeliveredAppend(a[1..], b);
    }
  }

  /** One call on an open store moves values from "offered" to "delivered or stored" without loss. */
  lemma OneCallConserves(st: StoreState, op: Op)
    requires !st.closed && !op.Shut?
    ensures Delivered(Answer(st, op)) + Apply(st, op).items == st.items + Offered(op)
    ensures !Apply(st, op).closed
  {
    if op.Pop? && st.items != [] {
      assert Delivered(Answer(st, op)) == [st.items[0]];
      assert st.items == [st.items[0]] + st.items[1..];
    }
  }

  /**
   * FIFO: on an open store, whatever interleaving of pushes and pops is run,
   * the values the pops deliver followed by what is left in the store are
   * exactly the values that were in the store followed by the pushed values,
   * in the same order. Nothing is lost, duplicated or reordered.
   */
  lemma {:induction false} FifoOrder(st: StoreState, ops: seq<Op>)
    requires !st.closed && NoClose(ops)
    ensures Delivered(PopResults(st, ops)) + Final(st, ops).items == st.items + Pushed(ops)
    ensures !Final(st, ops).closed
    decreases |ops|
  {
    if ops != [] {
      var op, rest := ops[0], ops[1..];
      NoCloseTail(ops);
      var next := Apply(st, op);
      OneCallConserves(st, op);
      FifoOrder(next, rest);
      DeliveredAppend(Answer(st, op), PopResults(next, rest));
      assert PopResults(st, ops) == Answer(st, op) + PopResults(next, rest);
      assert Final(st, ops) == Final(next, rest);
      assert Pushed(ops) == Offered(op) + Pushed(rest);
      Regroup(Delivered(Answer(st, op)), Delivered(PopResults(next, rest)), Final(next, rest).items,
              next.items, Pushed(rest), st.items, Offered(op));
    }
  }

  lemma NoCloseTail(ops: seq<Op>)
    requires ops != [] && NoClose(ops)
    ensures NoClose(ops[1..]) && !ops[0].Shut?
  {
    assert !ops[0].Shut? by { assert 0 < |ops|; }
    forall i | 0 <= i < |ops[1..]| ensures !ops[1..][i].Shut? {
      assert ops[1..][i] == ops[i + 1];
    }
  }

  /** Sequence bookkeeping for one step of the FIFO induction. */
  lemma Regroup<T>(d1: seq<T>, d2: seq<T>, f: seq<T>, n: seq<T>, p: seq<T>, items: seq<T>, off: seq<T>)
    requires d2 + f == n + p
    requires d1 + n == items + off
    ensures (d1 + d2) + f == items + (off + p)
  {
    calc {
      (d1 + d2) + f;
      d1 + (d2 + f);
      d1 + (n + p);
      (d1 + n) + p;
      (items + off) + p;
    }
  }

  /** `n` pushes followed by `n` pops, for the values `vs` in order. */
  function PushAllThenPopAll(vs: seq<string>): (ops: seq<Op>)
  {
    seq(|vs|, i requires 0 <= i < |vs| => Push(vs[i])) + seq(|vs|, _ => Pop)
  }

  /**
   * Pushing v1..vn on a fresh store and then popping n times yields v1..vn in
   * that order, and leaves the store empty.
   */
  lemma PushThenPopInOrder(vs: seq<string>)
    ensures PopResults(EmptyStore, PushAllThenPopAll(vs)) == seq(|vs|, i requires 0 <= i < |vs| => Popped(vs[i]))
    ensures Final(EmptyStore, PushAllThenPopAll(vs)).items == []
  {
    var pushes := seq(|vs|, i requires 0 <= i < |vs| => Push(vs[i]));
    var pops: seq<Op> := seq(|vs|, _ => Pop);
    assert PushAllThenPopAll(vs) == pushes + pops;
    PushesAppend(EmptyStore, vs);
    assert EmptyStore.items + vs == vs;
    assert Final(EmptyStore, pushes) == StoreState(vs, false);
    PopsDrain(StoreState(vs, false), |vs|);
    RunConcat(EmptyStore, pushes, pops);
  }

  lemma {:induction false} PushesAppend(st: StoreState, vs: seq<string>)
    requires !st.closed
    ensures Final(st, seq(|vs|, i requires 0 <= i < |vs| => Push(vs[i]))) == st.(items := st.items + vs)
    ensures PopResults(st, seq(|vs|, i requires 0 <= i < |vs| => Push(vs[i]))) == []
    decreases |vs|
  {
    var ops := seq(|vs|, i requires 0 <= i < |vs| => Push(vs[i]));
    if vs != [] {
      var next := st.(items := st.items + [vs[0]]);
      PushesAppend(next, vs[1..]);
      assert ops[1..] == seq(|vs[1..]|, i requires 0 <= i < |vs[1..]| => Push(vs[1..][i]));
      assert next.items + vs[1..] == st.items + vs;
    }
  }

  lemma {:induction false} PopsDrain(st: StoreState, n: nat)
    requires !st.closed && n == |st.items|
    ensures Final(st, seq(n, _ => Pop)) == st.(items := [])
    ensures PopResults(st, seq(n, _ => Pop)) == seq(n, i requires 0 <= i < n => Popped(st.items[i]))
    decreases n
  {
    var ops: seq<Op> := seq(n, _ => Pop);
    if n > 0 {
      var next := st.(items := st.items[1..]);
      PopsDrain(next, n - 1);
      assert ops[1..] == seq(n - 1, _ => Pop);
      var tail := seq(n - 1, i requires 0 <= i < n - 1 => Popped(next.items[i]));
      assert [Popped(st.items[0])] + tail == seq(n, i requires 0 <= i < n => Popped(st.items[i]));
    }
  }

  lemma {:induction false} RunConcat(st: StoreState, a: seq<Op>, b: seq<Op>)
    ensures Final(st, a + b) == Final(Final(st, a), b)
    ensures PopResults(st, a + b) == PopResults(st, a) + PopResults(Final(st, a), b)
    decreases |a|
  {
    if a != [] {
      assert (a + b)[1..] == a[1..] + b;
      RunConcat(Apply(st, a[0]), a[1..], b);
    } else {
      assert a + b == b;
    }
  }

  /**
   * Closing is final: after `Close`, every later pop answers the closed error
   * (even when elements remain, and in particular a pop that was waiting on an
   * empty store), every later push is refused, and the elements never change.
   */
  lemma {:induction false} ClosedIsTerminal(st: StoreState, ops: seq<Op>)
    requires st.closed
    ensures Final(st, ops) == st
    ensures forall i :: 0 <= i < |PopResults(st, ops)| ==> PopResults(st, ops)[i] == PopClosed
    decreases |ops|
  {
    if ops != [] {
      ClosedIsTerminal(st, ops[1..]);
    }
  }

  /** A pop that would block on an empty open store answers the closed error once the store is closed. */
  lemma WaitingPopSeesClose(st: StoreState)
    requires PopStep(st).0 == WouldBlock
    ensures PopStep(CloseStep(PopStep(st).1)).0 == PopClosed
    ensures !st.closed && st.items == []
  {
  }
}
