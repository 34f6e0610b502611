/** The order life cycle of src/simtrade/strat-MA/strategy.cpp. The strategy keeps orders in a main
    contract, and answers every fill of one with an order the other way in a hedge contract.
    Prices and average costs are left out: they decide when an order is modified, and that is a
    parameter here. */
module StrategyMA {
  datatype Side = Buy | Sell

  datatype Action = NewOrder | ModOrder | CancelOrder

  datatype Status =
    SubmitNew | New | Rejected | Modifying | Cancelling | Cancelled | CancelRejected | Pfilled | Filled

  datatype Order = Order(
    contract: string, size: int, traded: int, side: Side, ref: int, action: Action, status: Status)

  function Other(s: Side): Side { if s == Buy then Sell else Buy }

  function Signed(s: Side, n: int): int { if s == Buy then n else -n }

  predicate Valid(o: Order) { o.status == SubmitNew || o.status == New }

  type Orders = map<int, Order>

  datatype Config = Config(main: string, hedge: string, maxPos: int)

  /** `sent` holds every order message to the order process, in no order. */
  datatype State = State(
    main: Orders, hedge: Orders, pos: map<string, int>, next: int, ready: bool, sent: multiset<Order>)

  function Pos(s: State, c: string): int { if c in s.pos then s.pos[c] else 0 }

  function AddPos(s: State, c: string, n: int): State { s.(pos := s.pos[c := Pos(s, c) + n]) }

  // ----- Submitting, modifying, cancelling -----

  function Fresh(c: string, side: Side, size: int, ref: int): Order {
    Order(c, size, 0, side, ref, NewOrder, SubmitNew)
  }

  function Submit(g: Config, s: State, c: string, side: Side, size: int): State {
    if size == 0 then s
    else
      var o := Fresh(c, side, size, s.next);
      var t := s.(next := s.next + 1, sent := s.sent + multiset{o});
      if c == g.main then t.(main := t.main[o.ref := o])
      else if c == g.hedge then t.(hedge := t.hedge[o.ref := o])
      else t
  }

  function Modified(o: Order): Order { o.(status := Modifying, action := ModOrder) }

  /** Cancelling marks a live order, and also one whose modification is under way. */
  function Marked(o: Order): Order {
    if Valid(o) || o.status == Modifying then o.(action := CancelOrder, status := Cancelling) else o
  }

  /** Orders changed in place: the map keeps its keys. */
  function Each(m: Orders, f: Order -> Order): (r: Orders)
    ensures r.Keys == m.Keys && forall ref :: ref in m ==> r[ref] == f(m[ref])
  {
    map ref | ref in m :: f(m[ref])
  }

  function Erase(m: Orders, ref: int): (r: Orders)
    ensures ref !in r && forall k :: k in r <==> k in m && k != ref
    ensures forall k :: k in r ==> r[k] == m[k]
  {
    map k | k in m && k != ref :: m[k]
  }

  function Delete(s: State, ref: int): State {
    if ref in s.main then s.(main := Erase(s.main, ref)) else s.(hedge := Erase(s.hedge, ref))
  }

  // ----- What the exposure counts -----

  /** The signed sizes of the orders with a reference below n. */
  function Live(m: Orders, n: int): int {
    if n <= 0 then 0 else Live(m, n - 1) + if n - 1 in m then Signed(m[n - 1].side, m[n - 1].size) else 0
  }

  /** Both positions, and what the live hedge orders will make of them. */
  function Exposure(g: Config, s: State): int { Pos(s, g.main) + Pos(s, g.hedge) + Live(s.hedge, s.next) }

  lemma {:induction false} LiveSame(m: Orders, m': Orders, n: int)
    requires forall k :: 0 <= k < n ==> (k in m <==> k in m')
    requires forall k :: 0 <= k < n && k in m ==> m[k].side == m'[k].side && m[k].size == m'[k].size
    ensures Live(m, n) == Live(m', n)
  {
    if n > 0 {
      LiveSame(m, m', n - 1);
    }
  }

  lemma {:induction false} LiveErased(m: Orders, n: int, ref: int)
    requires ref in m
    ensures Live(Erase(m, ref), n) == Live(m, n) - if 0 <= ref < n then Signed(m[ref].side, m[ref].size) else 0
  {
    if n > 0 {
      LiveErased(m, n - 1, ref);
    }
  }

  lemma LiveAdded(m: Orders, n: int, o: Order)
    requires n >= 0 && n !in m
    ensures Live(m[n := o], n + 1) == Live(m, n) + Signed(o.side, o.size)
  {
    LiveSame(m, m[n := o], n);
  }

  // ----- Events -----

  datatype Kind = Acc | Rej | Cancel | CancelRej | Fill | PartFill | Position

  datatype Info = Info(kind: Kind, contract: string, ref: int, size: int, price: real)

  /** AddCloseOrderSize is not part of the strategy's file: any change of the main orders that keeps
      their references, contracts and sides, together with the messages it sends. */
  type Grow = (Orders, Side) -> (Orders, multiset<Order>)

  ghost predicate GrowOk(grow: Grow) {
    forall m: Orders, side: Side :: var (m', msgs) := grow(m, side);
      && m'.Keys == m.Keys
      && (forall ref :: ref in m ==>
            m'[ref].ref == m[ref].ref && m'[ref].contract == m[ref].contract && m'[ref].side == m[ref].side)
      && forall o :: o in msgs ==> o.action != NewOrder
  }

  function Grown(s: State, side: Side, grow: Grow): State {
    s.(main := grow(s.main, side).0, sent := s.sent + grow(s.main, side).1)
  }

  /** The messages for some of the orders, after they were changed. */
  function Messages(m: Orders, refs: set<int>, f: Order -> Order): multiset<Order> {
    multiset(set ref | ref in refs && ref in m :: f(m[ref]))
  }

  function LiveRefs(m: Orders): set<int> { set ref | ref in m && Valid(m[ref]) }

  function Cancels(m: Orders): multiset<Order> { Messages(m, LiveRefs(m), Marked) }

  function CancelMain(s: State): State { s.(main := Each(s.main, Marked), sent := s.sent + Cancels(s.main)) }

  function CancelHedge(s: State): State { s.(hedge := Each(s.hedge, Marked), sent := s.sent + Cancels(s.hedge)) }

  function Abs(n: int): int { if n < 0 then -n else n }

  /** The booking of a fill: the position moves by the whole size of the order; `isClose` is what TradeClose says. */
  function Booked(g: Config, s: State, o: Order, isClose: bool, grow: Grow): State {
    var before, lots := Pos(s, o.contract), Signed(o.side, o.size);
    var t := AddPos(s, o.contract, lots);
    var now := Pos(t, o.contract);
    var side := if lots > 0 then Buy else Sell;
    if o.contract != g.main then t
    else if !isClose then
      if now * lots == 1 then Submit(g, Submit(g, CancelMain(t), g.main, Other(side), 1), g.main, side, 1)
      else if Abs(now) < g.maxPos then Submit(g, Grown(t, Other(side), grow), g.main, side, 1)
      else if Abs(now) == g.maxPos then Grown(t, Other(side), grow)
      else t
    else
      var u := if Abs(before) == g.maxPos then Submit(g, t, g.main, Other(side), 1) else t;
      if now == 0 then Submit(g, u, g.main, side, 1) else u
  }

  function Replace(g: Config, s: State, o: Order): State {
    if o.action == ModOrder then Submit(g, s, o.contract, o.side, o.size) else s
  }

  function Put(s: State, ref: int, o: Order): State {
    if ref in s.main then s.(main := s.main[ref := o]) else s.(hedge := s.hedge[ref := o])
  }

  predicate Known(s: State, ref: int) { ref in s.main || ref in s.hedge }

  function Find(s: State, ref: int): Order
    requires Known(s, ref)
  {
    if ref in s.main then s.main[ref] else s.hedge[ref]
  }

  const POSITION_END := "positionend"

  /** A startup position, before the last one is in; tiny prices and empty positions are skipped. */
  predicate Taken(g: Config, s: State, i: Info) {
    && i.kind == Position && !s.ready && (i.contract == g.main || i.contract == g.hedge)
    && ((i.price >= 0.00001 && i.size != 0) || i.contract == POSITION_END)
  }

  function OnPosition(g: Config, s: State, i: Info): State {
    if Taken(g, s, i) then AddPos(s, i.contract, i.size)
    else if !s.ready && i.contract == POSITION_END then s.(ready := true)
    else s
  }

  /** A completed order goes; any other stays, as partly filled. */
  function Traded(s: State, i: Info, o: Order): State {
    if o.size == o.traded + i.size then Delete(s, i.ref)
    else Put(s, i.ref, o.(traded := o.traded + i.size, status := Pfilled))
  }

  function Hedged(g: Config, s: State, i: Info, o: Order): State {
    if o.contract == g.main then Submit(g, s, g.hedge, Other(o.side), i.size) else s
  }

  function OnFill(g: Config, s: State, i: Info, o: Order, isClose: bool, grow: Grow): State {
    Booked(g, Hedged(g, Traded(s, i, o), i, o), o, isClose, grow)
  }

  /** UpdateExchangeInfo. */
  function Handle(g: Config, s: State, i: Info, isClose: bool, grow: Grow): State {
    if i.kind == Position then OnPosition(g, s, i)
    else if !Known(s, i.ref) then s
    else
      var o := Find(s, i.ref);
      match i.kind
      case Acc => if o.status == SubmitNew then Put(s, i.ref, o.(status := New)) else s
      case Rej => Delete(s, i.ref)
      case Cancel => Replace(g, Delete(s, i.ref), o)
      case CancelRej => if o.status == Filled then s else Put(s, i.ref, o.(status := CancelRejected))
      case Fill => OnFill(g, s, i, o, isClose, grow)
      case _ => s
  }

  function Moderate(m: Orders, moved: int -> bool): (r: Orders)
    ensures r.Keys == m.Keys
    ensures forall ref :: ref in m ==> r[ref] == if Valid(m[ref]) && moved(ref) then Modified(m[ref]) else m[ref]
  {
    map ref | ref in m :: if Valid(m[ref]) && moved(ref) then Modified(m[ref]) else m[ref]
  }

  function MovedRefs(m: Orders, moved: int -> bool): set<int> { set ref | ref in m && Valid(m[ref]) && moved(ref) }

  function Moves(m: Orders, moved: int -> bool): multiset<Order> { Messages(m, MovedRefs(m, moved), Modified) }

  function Started(g: Config, s: State): State {
    var pos := Pos(s, g.main);
    if pos > 0 then
      var t := Submit(g, s, g.main, Sell, pos);
      if pos < g.maxPos then Submit(g, t, g.main, Buy, 1) else t
    else if pos < 0 then
      var t := Submit(g, s, g.main, Buy, -pos);
      if -pos < g.maxPos then Submit(g, t, g.main, Sell, 1) else t
    else Submit(g, Submit(g, s, g.main, Buy, 1), g.main, Sell, 1)
  }

  datatype Event =
    | Exchange(info: Info, isClose: bool, grow: Grow)
    | Begin | StopMain | StopHedge
    | MoveMain(moved: int -> bool) | MoveHedge(moved: int -> bool)

  function Do(g: Config, s: State, e: Event): State {
    match e
    case Exchange(i, isClose, grow) => Handle(g, s, i, isClose, grow)
    case Begin => Started(g, s)
    case StopMain => CancelMain(s)
    case StopHedge => CancelHedge(s)
    case MoveMain(moved) => s.(main := Moderate(s.main, moved), sent := s.sent + Moves(s.main, moved))
    case MoveHedge(moved) => s.(hedge := Moderate(s.hedge, moved), sent := s.sent + Moves(s.hedge, moved))
  }

  // ----- The invariant -----

  ghost predicate Kept(c: string, m: Orders, next: int) {
    forall ref :: ref in m ==> 0 <= ref < next && m[ref].ref == ref && m[ref].contract == c
  }

  /** Every order is filed under its own reference and contract, no reference is used twice, no live
      hedge order is empty, and each reference was submitted once. */
  ghost predicate Inv(g: Config, s: State) { g.main != g.hedge && s.next >= 0 && Filed(g, s) && SentOnce(s) }

  ghost predicate Filed(g: Config, s: State) {
    && Kept(g.main, s.main, s.next) && Kept(g.hedge, s.hedge, s.next)
    && (forall ref :: ref in s.main ==> ref !in s.hedge)
    && forall ref :: ref in s.hedge ==> s.hedge[ref].size != 0
  }

  ghost predicate SentOnce(s: State) {
    && (forall o :: o in s.sent && o.action == NewOrder ==> 0 <= o.ref < s.next && s.sent[o] == 1)
    && forall o, p :: o in s.sent && p in s.sent && o.action == p.action == NewOrder && o.ref == p.ref ==> o == p
  }

  // ----- Each piece keeps it, and what it does to the exposure -----

  lemma SentOnceMore(s: State, o: Order, s': State)
    requires SentOnce(s) && o.ref == s.next && s'.sent == s.sent + multiset{o} && s'.next == s.next + 1 && s.next >= 0
    ensures SentOnce(s')
  {
  }

  lemma SubmitFiled(g: Config, s: State, c: string, o: Order, s': State)
    requires g.main != g.hedge && s.next >= 0 && Filed(g, s) && o == Fresh(c, o.side, o.size, s.next) && o.size != 0
    requires s' == Submit(g, s, c, o.side, o.size)
    ensures Filed(g, s')
    ensures Live(s'.hedge, s'.next) == Live(s.hedge, s.next) + if c == g.hedge then Signed(o.side, o.size) else 0
  {
    if c == g.hedge {
      LiveAdded(s.hedge, s.next, o);
    }
  }

  lemma SubmitKeeps(g: Config, s: State, c: string, side: Side, size: int, s': State)
    requires Inv(g, s) && s' == Submit(g, s, c, side, size)
    ensures Inv(g, s') && s'.pos == s.pos && (c != g.hedge ==> s'.hedge == s.hedge)
    ensures Exposure(g, s') == Exposure(g, s) + if c == g.hedge then Signed(side, size) else 0
  {
    if size != 0 {
      var o := Fresh(c, side, size, s.next);
      SentOnceMore(s, o, s');
      SubmitFiled(g, s, c, o, s');
    }
  }

  /** Messages other than new orders leave the references submitted as they are. */
  lemma OtherMessages(s: State, msgs: multiset<Order>, s': State)
    requires SentOnce(s) && s'.next == s.next && s'.sent == s.sent + msgs
    requires forall o :: o in msgs ==> o.action != NewOrder
    ensures SentOnce(s')
  {
  }

  lemma DeleteKeeps(g: Config, s: State, ref: int, s': State)
    requires Inv(g, s) && Known(s, ref) && s' == Delete(s, ref)
    ensures Inv(g, s') && s'.pos == s.pos
    ensures Exposure(g, s')
         == Exposure(g, s) - if ref in s.main then 0 else Signed(s.hedge[ref].side, s.hedge[ref].size)
  {
    if ref !in s.main {
      LiveErased(s.hedge, s.next, ref);
    }
  }

  /** Changing main orders in place, with other messages sent. */
  lemma MainChanged(g: Config, s: State, msgs: multiset<Order>, s': State)
    requires Inv(g, s) && s' == s.(main := s'.main, sent := s.sent + msgs)
    requires s'.main.Keys == s.main.Keys
    requires forall ref :: ref in s.main ==> s'.main[ref].ref == s.main[ref].ref && s'.main[ref].contract == s.main[ref].contract
    requires forall o :: o in msgs ==> o.action != NewOrder
    ensures Inv(g, s') && Exposure(g, s') == Exposure(g, s)
  {
    OtherMessages(s, msgs, s');
    assert forall ref :: ref in s'.main ==> ref in s.main.Keys;
  }

  lemma HedgeChanged(g: Config, s: State, msgs: multiset<Order>, s': State)
    requires Inv(g, s) && s' == s.(hedge := s'.hedge, sent := s.sent + msgs)
    requires s'.hedge.Keys == s.hedge.Keys
    requires forall ref :: ref in s.hedge ==>
      var o, o' := s.hedge[ref], s'.hedge[ref];
      o'.ref == o.ref && o'.contract == o.contract && o'.side == o.side && o'.size == o.size
    requires forall o :: o in msgs ==> o.action != NewOrder
    ensures Inv(g, s') && Exposure(g, s') == Exposure(g, s)
  {
    OtherMessages(s, msgs, s');
    assert forall ref :: ref in s'.hedge <==> ref in s.hedge.Keys;
    LiveSame(s.hedge, s'.hedge, s.next);
  }

  lemma PutMainKeeps(g: Config, s: State, ref: int, o: Order, s': State)
    requires Inv(g, s) && ref in s.main && s' == s.(main := s.main[ref := o])
    requires o.contract == s.main[ref].contract && o.ref == s.main[ref].ref
    ensures Inv(g, s') && Exposure(g, s') == Exposure(g, s)
  {
    assert s.sent + multiset{} == s.sent && s'.main.Keys == s.main.Keys;
    MainChanged(g, s, multiset{}, s');
  }

  lemma PutHedgeKeeps(g: Config, s: State, ref: int, o: Order, s': State)
    requires Inv(g, s) && ref in s.hedge && s' == s.(hedge := s.hedge[ref := o])
    requires o.contract == s.hedge[ref].contract && o.ref == s.hedge[ref].ref
    requires o.side == s.hedge[ref].side && o.size == s.hedge[ref].size
    ensures Inv(g, s') && Exposure(g, s') == Exposure(g, s)
  {
    assert s.sent + multiset{} == s.sent && s'.hedge.Keys == s.hedge.Keys;
    HedgeChanged(g, s, multiset{}, s');
  }

  lemma PutKeeps(g: Config, s: State, ref: int, o: Order, s': State)
    requires Inv(g, s) && Known(s, ref) && s' == Put(s, ref, o)
    requires var was := Find(s, ref);
      o.contract == was.contract && o.ref == was.ref && o.side == was.side && o.size == was.size
    ensures Inv(g, s') && Exposure(g, s') == Exposure(g, s)
  {
    if ref in s.main {
      PutMainKeeps(g, s, ref, o, s');
    } else {
      PutHedgeKeeps(g, s, ref, o, s');
    }
  }

  lemma MessagesAreNoNewOrders(m: Orders, moved: int -> bool)
    ensures forall o :: o in Cancels(m) ==> o.action == CancelOrder
    ensures forall o :: o in Moves(m, moved) ==> o.action == ModOrder
  {
  }

  lemma CancelMainKeeps(g: Config, s: State, s': State)
    requires Inv(g, s) && s' == CancelMain(s)
    ensures Inv(g, s') && Exposure(g, s') == Exposure(g, s)
  {
    MessagesAreNoNewOrders(s.main, _ => false);
    MainChanged(g, s, Cancels(s.main), s');
  }

  lemma CancelHedgeKeeps(g: Config, s: State, s': State)
    requires Inv(g, s) && s' == CancelHedge(s)
    ensures Inv(g, s') && Exposure(g, s') == Exposure(g, s)
  {
    MessagesAreNoNewOrders(s.hedge, _ => false);
    HedgeChanged(g, s, Cancels(s.hedge), s');
  }

  lemma MoveMainKeeps(g: Config, s: State, moved: int -> bool, s': State)
    requires Inv(g, s) && s' == s.(main := Moderate(s.main, moved), sent := s.sent + Moves(s.main, moved))
    ensures Inv(g, s') && Exposure(g, s') == Exposure(g, s)
  {
    MessagesAreNoNewOrders(s.main, moved);
    MainChanged(g, s, Moves(s.main, moved), s');
  }

  lemma MoveHedgeKeeps(g: Config, s: State, moved: int -> bool, s': State)
    requires Inv(g, s) && s' == s.(hedge := Moderate(s.hedge, moved), sent := s.sent + Moves(s.hedge, moved))
    ensures Inv(g, s') && Exposure(g, s') == Exposure(g, s)
  {
    MessagesAreNoNewOrders(s.hedge, moved);
    HedgeChanged(g, s, Moves(s.hedge, moved), s');
  }

  lemma GrownKeeps(g: Config, s: State, side: Side, grow: Grow, s': State)
    requires Inv(g, s) && GrowOk(grow) && s' == Grown(s, side, grow)
    ensures Inv(g, s') && Exposure(g, s') == Exposure(g, s)
  {
    MainChanged(g, s, grow(s.main, side).1, s');
  }

  lemma PositionMoves(g: Config, s: State, c: string, n: int, s': State)
    requires Inv(g, s) && s' == AddPos(s, c, n) && (c == g.main || c == g.hedge)
    ensures Inv(g, s') && Exposure(g, s') == Exposure(g, s) + n
  {
  }

  lemma BookedKeeps(g: Config, s: State, o: Order, isClose: bool, grow: Grow, s': State)
    requires Inv(g, s) && GrowOk(grow) && (o.contract == g.main || o.contract == g.hedge)
    requires s' == Booked(g, s, o, isClose, grow)
    ensures Inv(g, s') && Exposure(g, s') == Exposure(g, s) + Signed(o.side, o.size)
  {
    var lots := Signed(o.side, o.size);
    var t := AddPos(s, o.contract, lots);
    PositionMoves(g, s, o.contract, lots, t);
    if o.contract == g.main {
      var side := if lots > 0 then Buy else Sell;
      if !isClose {
        OpenedKeeps(g, t, side, Pos(t, g.main) * lots == 1, grow, s');
      } else {
        ClosedKeeps(g, t, side, Abs(Pos(s, g.main)) == g.maxPos, s');
      }
    }
  }

  lemma OpenedKeeps(g: Config, t: State, side: Side, first: bool, grow: Grow, s': State)
    requires Inv(g, t) && GrowOk(grow)
    requires
      var now := Abs(Pos(t, g.main));
      s' == if first then Submit(g, Submit(g, CancelMain(t), g.main, Other(side), 1), g.main, side, 1)
            else if now < g.maxPos then Submit(g, Grown(t, Other(side), grow), g.main, side, 1)
            else if now == g.maxPos then Grown(t, Other(side), grow) else t
    ensures Inv(g, s') && Exposure(g, s') == Exposure(g, t)
  {
    if first {
      CancelMainKeeps(g, t, CancelMain(t));
      var u := Submit(g, CancelMain(t), g.main, Other(side), 1);
      SubmitKeeps(g, CancelMain(t), g.main, Other(side), 1, u);
      SubmitKeeps(g, u, g.main, side, 1, s');
    } else if Abs(Pos(t, g.main)) <= g.maxPos {
      var u := Grown(t, Other(side), grow);
      GrownKeeps(g, t, Other(side), grow, u);
      if Abs(Pos(t, g.main)) < g.maxPos {
        SubmitKeeps(g, u, g.main, side, 1, s');
      }
    }
  }

  lemma ClosedKeeps(g: Config, t: State, side: Side, full: bool, s': State)
    requires Inv(g, t)
    requires
      var u := if full then Submit(g, t, g.main, Other(side), 1) else t;
      s' == if Pos(t, g.main) == 0 then Submit(g, u, g.main, side, 1) else u
    ensures Inv(g, s') && Exposure(g, s') == Exposure(g, t)
  {
    var u := if full then Submit(g, t, g.main, Other(side), 1) else t;
    if full {
      SubmitKeeps(g, t, g.main, Other(side), 1, u);
    }
    if Pos(t, g.main) == 0 {
      SubmitKeeps(g, u, g.main, side, 1, s');
    }
  }

  // ----- Every event -----

  /** What an event adds to the exposure: startup positions are taken up; the fill of a main order
      adds its whole size but only the reported size is hedged; the fill of a hedge order counts its
      whole size while the order stays live unless this completes it; and a hedge order that is
      rejected, or cancelled other than to be replaced, is gone. */
  function Drift(g: Config, s: State, e: Event): int {
    if !e.Exchange? then 0
    else
      var i := e.info;
      if i.kind == Position then if Taken(g, s, i) then i.size else 0
      else if i.ref in s.main then
        var o := s.main[i.ref];
        if i.kind == Fill then Signed(o.side, o.size - i.size) else 0
      else if i.ref in s.hedge then
        var o := s.hedge[i.ref];
        if i.kind == Rej || (i.kind == Cancel && o.action != ModOrder) then -Signed(o.side, o.size)
        else if i.kind == Fill && o.traded + i.size != o.size then Signed(o.side, o.size)
        else 0
      else 0
  }

  ghost predicate GrowsOk(e: Event) { e.Exchange? ==> GrowOk(e.grow) }

  lemma TradedKeeps(g: Config, s: State, i: Info, o: Order, t: State)
    requires Inv(g, s) && Known(s, i.ref) && o == Find(s, i.ref) && t == Traded(s, i, o)
    ensures Inv(g, t)
    ensures Exposure(g, t) == Exposure(g, s)
      - if i.ref !in s.main && o.size == o.traded + i.size then Signed(o.side, o.size) else 0
  {
    if o.size == o.traded + i.size {
      DeleteKeeps(g, s, i.ref, t);
    } else {
      PutKeeps(g, s, i.ref, o.(traded := o.traded + i.size, status := Pfilled), t);
    }
  }

  lemma HedgedKeeps(g: Config, s: State, i: Info, o: Order, t: State)
    requires Inv(g, s) && t == Hedged(g, s, i, o)
    ensures Inv(g, t)
    ensures Exposure(g, t) == Exposure(g, s) - if o.contract == g.main then Signed(o.side, i.size) else 0
  {
    if o.contract == g.main {
      SubmitKeeps(g, s, g.hedge, Other(o.side), i.size, t);
    }
  }

  /** The drift of a fill is the sum of what its three parts do. */
  lemma FillDrift(g: Config, s: State, i: Info, o: Order, isClose: bool, grow: Grow)
    requires g.main != g.hedge && Filed(g, s) && i.kind == Fill && Known(s, i.ref) && o == Find(s, i.ref)
    ensures Drift(g, s, Exchange(i, isClose, grow)) ==
      (if i.ref !in s.main && o.size == o.traded + i.size then -Signed(o.side, o.size) else 0)
      - (if o.contract == g.main then Signed(o.side, i.size) else 0)
      + Signed(o.side, o.size)
  {
    assert i.ref in s.main <==> o.contract == g.main;
  }

  lemma FillKeeps(g: Config, s: State, i: Info, o: Order, isClose: bool, grow: Grow, s': State)
    requires Inv(g, s) && GrowOk(grow) && i.kind == Fill && Known(s, i.ref) && o == Find(s, i.ref)
    requires s' == OnFill(g, s, i, o, isClose, grow)
    ensures Inv(g, s') && Exposure(g, s') == Exposure(g, s) + Drift(g, s, Exchange(i, isClose, grow))
  {
    var t := Traded(s, i, o);
    TradedKeeps(g, s, i, o, t);
    var u := Hedged(g, t, i, o);
    HedgedKeeps(g, t, i, o, u);
    BookedKeeps(g, u, o, isClose, grow, s');
    FillDrift(g, s, i, o, isClose, grow);
  }

  lemma CancelledKeeps(g: Config, s: State, i: Info, isClose: bool, grow: Grow, s': State)
    requires Inv(g, s) && i.kind == Cancel && Known(s, i.ref)
    requires s' == Replace(g, Delete(s, i.ref), Find(s, i.ref))
    ensures Inv(g, s') && Exposure(g, s') == Exposure(g, s) + Drift(g, s, Exchange(i, isClose, grow))
  {
    var o, t := Find(s, i.ref), Delete(s, i.ref);
    DeleteKeeps(g, s, i.ref, t);
    if o.action == ModOrder {
      SubmitKeeps(g, t, o.contract, o.side, o.size, s');
    }
  }

  lemma PositionKeeps(g: Config, s: State, i: Info, s': State)
    requires Inv(g, s) && i.kind == Position && s' == OnPosition(g, s, i)
    ensures Inv(g, s') && Exposure(g, s') == Exposure(g, s) + if Taken(g, s, i) then i.size else 0
  {
    if Taken(g, s, i) {
      PositionMoves(g, s, i.contract, i.size, s');
    }
  }

  lemma PairKeeps(g: Config, s: State, side: Side, size: int, both: bool, s': State)
    requires Inv(g, s)
    requires var t := Submit(g, s, g.main, side, size);
      s' == if both then Submit(g, t, g.main, Other(side), 1) else t
    ensures Inv(g, s') && Exposure(g, s') == Exposure(g, s)
  {
    var t := Submit(g, s, g.main, side, size);
    SubmitKeeps(g, s, g.main, side, size, t);
    if both {
      SubmitKeeps(g, t, g.main, Other(side), 1, s');
    }
  }

  lemma StartKeeps(g: Config, s: State, s': State)
    requires Inv(g, s) && s' == Started(g, s)
    ensures Inv(g, s') && Exposure(g, s') == Exposure(g, s)
  {
    var pos := Pos(s, g.main);
    if pos > 0 {
      PairKeeps(g, s, Sell, pos, pos < g.maxPos, s');
    } else if pos < 0 {
      PairKeeps(g, s, Buy, -pos, -pos < g.maxPos, s');
    } else {
      PairKeeps(g, s, Buy, 1, true, s');
    }
  }

  lemma StatusKeeps(g: Config, s: State, i: Info, isClose: bool, grow: Grow, s': State)
    requires Inv(g, s) && s' == Handle(g, s, i, isClose, grow) && Known(s, i.ref) && (i.kind == Acc || i.kind == CancelRej)
    ensures Inv(g, s') && Exposure(g, s') == Exposure(g, s) + Drift(g, s, Exchange(i, isClose, grow))
  {
    var o := Find(s, i.ref);
    if i.kind == Acc && o.status == SubmitNew {
      PutKeeps(g, s, i.ref, o.(status := New), s');
    } else if i.kind == CancelRej && o.status != Filled {
      PutKeeps(g, s, i.ref, o.(status := CancelRejected), s');
    }
  }

  lemma RejectedKeeps(g: Config, s: State, i: Info, isClose: bool, grow: Grow, s': State)
    requires Inv(g, s) && s' == Handle(g, s, i, isClose, grow) && Known(s, i.ref) && i.kind == Rej
    ensures Inv(g, s') && Exposure(g, s') == Exposure(g, s) + Drift(g, s, Exchange(i, isClose, grow))
  {
    DeleteKeeps(g, s, i.ref, s');
  }

  lemma ExchangeKeeps(g: Config, s: State, i: Info, isClose: bool, grow: Grow, s': State)
    requires Inv(g, s) && GrowOk(grow) && s' == Handle(g, s, i, isClose, grow)
    ensures Inv(g, s') && Exposure(g, s') == Exposure(g, s) + Drift(g, s, Exchange(i, isClose, grow))
  {
    if i.kind == Position {
      PositionKeeps(g, s, i, s');
    } else if Known(s, i.ref) {
      match i.kind
      case Acc => StatusKeeps(g, s, i, isClose, grow, s');
      case CancelRej => StatusKeeps(g, s, i, isClose, grow, s');
      case Rej => RejectedKeeps(g, s, i, isClose, grow, s');
      case Cancel => CancelledKeeps(g, s, i, isClose, grow, s');
      case Fill => FillKeeps(g, s, i, Find(s, i.ref), isClose, grow, s');
      case _ =>
    }
  }

  /** Every event keeps the invariant and moves the exposure by exactly its drift. */
  lemma StepDrifts(g: Config, s: State, e: Event, s': State)
    requires Inv(g, s) && GrowsOk(e) && s' == Do(g, s, e)
    ensures Inv(g, s') && Exposure(g, s') == Exposure(g, s) + Drift(g, s, e)
  {
    match e
    case Exchange(i, isClose, grow) => ExchangeKeeps(g, s, i, isClose, grow, s');
    case Begin => StartKeeps(g, s, s');
    case StopMain => CancelMainKeeps(g, s, s');
    case StopHedge => CancelHedgeKeeps(g, s, s');
    case MoveMain(moved) => MoveMainKeeps(g, s, moved, s');
    case MoveHedge(moved) => MoveHedgeKeeps(g, s, moved, s');
  }

  /** The drift vanishes exactly here: no startup position is taken up, the fill of a main order
      reports its whole size, the fill of a hedge order completes it, and no hedge order is rejected,
      or cancelled other than to be replaced. */
  predicate Benign(g: Config, s: State, e: Event) {
    e.Exchange? ==>
      var i := e.info;
      if i.kind == Position then Taken(g, s, i) ==> i.size == 0
      else
        && (i.kind == Fill && i.ref in s.main ==> i.size == s.main[i.ref].size)
        && (i.ref !in s.main && i.ref in s.hedge ==>
              var o := s.hedge[i.ref];
              && i.kind != Rej && (i.kind == Cancel ==> o.action == ModOrder)
              && (i.kind == Fill ==> o.traded + i.size == o.size))
  }

  /** A step leaves the exposure as it was if and only if it is benign. */
  lemma ExposureKeptIff(g: Config, s: State, e: Event, s': State)
    requires Inv(g, s) && GrowsOk(e) && s' == Do(g, s, e)
    ensures Exposure(g, s') == Exposure(g, s) <==> Benign(g, s, e)
  {
    StepDrifts(g, s, e, s');
  }

  function DoAll(g: Config, s: State, es: seq<Event>): State
    decreases |es|
  {
    if es == [] then s else DoAll(g, Do(g, s, es[0]), es[1..])
  }

  predicate AllBenign(g: Config, s: State, es: seq<Event>)
    decreases |es|
  {
    es == [] || (Benign(g, s, es[0]) && AllBenign(g, Do(g, s, es[0]), es[1..]))
  }

  function TotalDrift(g: Config, s: State, es: seq<Event>): int
    decreases |es|
  {
    if es == [] then 0 else Drift(g, s, es[0]) + TotalDrift(g, Do(g, s, es[0]), es[1..])
  }

  /** What the constructor leaves. */
  const OPENED := State(map[], map[], map[], 0, false, multiset{})

  /** In every run: the invariant holds, and the exposure has moved by the drifts of the events. */
  lemma {:induction false} RunDrifts(g: Config, s: State, es: seq<Event>)
    requires Inv(g, s) && forall e :: e in es ==> GrowsOk(e)
    ensures Inv(g, DoAll(g, s, es)) && Exposure(g, DoAll(g, s, es)) == Exposure(g, s) + TotalDrift(g, s, es)
    decreases |es|
  {
    if es != [] {
      StepDrifts(g, s, es[0], Do(g, s, es[0]));
      RunDrifts(g, Do(g, s, es[0]), es[1..]);
    }
  }

  /** Main position, hedge position and live hedge orders together stay constant through any number
      of submitted, modified, cancelled, replaced and filled orders, while every event is benign. */
  lemma {:induction false} ExposureConstant(g: Config, s: State, es: seq<Event>)
    requires Inv(g, s) && (forall e :: e in es ==> GrowsOk(e)) && AllBenign(g, s, es)
    ensures Exposure(g, DoAll(g, s, es)) == Exposure(g, s)
    decreases |es|
  {
    if es != [] {
      StepDrifts(g, s, es[0], Do(g, s, es[0]));
      ExposureKeptIff(g, s, es[0], Do(g, s, es[0]));
      ExposureConstant(g, Do(g, s, es[0]), es[1..]);
    }
  }

  /** From the constructor on: references are unique, and every order is filed where it belongs. */
  lemma RunsKeepOrder(g: Config, es: seq<Event>)
    requires g.main != g.hedge && forall e :: e in es ==> GrowsOk(e)
    ensures Inv(g, DoAll(g, OPENED, es))
  {
    assert Inv(g, OPENED);
    RunDrifts(g, OPENED, es);
  }

  // ----- What each event does to the orders -----
  //
  // The exposure counts hedge orders only. These laws say what happens to the order a report is about,
  // which orders are new and what is sent, for main and hedge orders alike.

  /** The same orders, but for those references. */
  ghost predicate SameBut(m: Orders, m': Orders, refs: set<int>) {
    forall k :: k !in refs ==> (k in m' <==> k in m) && (k in m ==> m'[k] == m[k])
  }

  /** One position has moved by n. */
  ghost predicate PosMoved(s: State, c: string, n: int, s': State) {
    forall d :: Pos(s', d) == if d == c then Pos(s, d) + n else Pos(s, d)
  }

  /** The reference is gone, and nothing else has changed. */
  ghost predicate JustGone(s: State, ref: int, s': State) {
    && ref !in s'.main && ref !in s'.hedge && SameBut(s.main, s'.main, {ref}) && SameBut(s.hedge, s'.hedge, {ref})
    && s'.pos == s.pos && s'.next == s.next && s'.ready == s.ready && s'.sent == s.sent
  }

  /** The order under the reference is now o, and nothing else has changed. */
  ghost predicate JustNow(s: State, ref: int, o: Order, s': State) {
    && SameBut(s.main, s'.main, {ref}) && SameBut(s.hedge, s'.hedge, {ref})
    && (ref in s'.main <==> ref in s.main) && (ref in s'.hedge <==> ref in s.hedge)
    && (ref in s.main ==> s'.main[ref] == o) && (ref !in s.main ==> ref in s.hedge && s'.hedge[ref] == o)
    && s'.pos == s.pos && s'.next == s.next && s'.ready == s.ready && s'.sent == s.sent
  }

  /** One new order under the next reference, filed by contract and sent; nothing else is. */
  ghost predicate JustPlaced(g: Config, s: State, o: Order, s': State) {
    && SameBut(s.main, s'.main, {s.next}) && SameBut(s.hedge, s'.hedge, {s.next})
    && (s.next in s'.main <==> o.contract == g.main) && (s.next in s'.main ==> s'.main[s.next] == o)
    && (s.next in s'.hedge <==> o.contract == g.hedge) && (s.next in s'.hedge ==> s'.hedge[s.next] == o)
    && s'.pos == s.pos && s'.next == s.next + 1 && s'.ready == s.ready && s'.sent == s.sent + multiset{o}
  }

  lemma SubmitPlaces(g: Config, s: State, c: string, side: Side, size: int, s': State)
    requires Inv(g, s) && s' == Submit(g, s, c, side, size)
    ensures if size == 0 then s' == s else JustPlaced(g, s, Order(c, size, 0, side, s.next, NewOrder, SubmitNew), s')
  {
  }

  /** A cancelled order goes. If it was being modified, an order like it takes its place under the next
      reference and is the one message sent; otherwise nothing is. */
  lemma CancelReport(g: Config, s: State, i: Info, isClose: bool, grow: Grow, s': State) returns (t: State)
    requires Inv(g, s) && i.kind == Cancel && Known(s, i.ref) && s' == Handle(g, s, i, isClose, grow)
    ensures JustGone(s, i.ref, t)
    ensures var o := if i.ref in s.main then s.main[i.ref] else s.hedge[i.ref];
      if o.action == ModOrder && o.size != 0 then
        JustPlaced(g, t, Order(o.contract, o.size, 0, o.side, s.next, NewOrder, SubmitNew), s')
      else s' == t
    ensures i.ref !in s'.main && i.ref !in s'.hedge
  {
    t := Delete(s, i.ref);
    DeleteKeeps(g, s, i.ref, t);
    var o := Find(s, i.ref);
    SubmitPlaces(g, t, o.contract, o.side, o.size, Submit(g, t, o.contract, o.side, o.size));
  }

  /** A rejected order goes, and nothing is sent. */
  lemma RejectReport(g: Config, s: State, i: Info, isClose: bool, grow: Grow, s': State)
    requires Inv(g, s) && i.kind == Rej && Known(s, i.ref) && s' == Handle(g, s, i, isClose, grow)
    ensures JustGone(s, i.ref, s')
  {
  }

  /** An accepted order becomes a live one, unless it is past that; a refused cancel shows in the status. */
  lemma StatusReport(g: Config, s: State, i: Info, isClose: bool, grow: Grow, s': State)
    requires Inv(g, s) && (i.kind == Acc || i.kind == CancelRej) && Known(s, i.ref)
    requires s' == Handle(g, s, i, isClose, grow)
    ensures var o := if i.ref in s.main then s.main[i.ref] else s.hedge[i.ref];
      if i.kind == Acc && o.status == SubmitNew then JustNow(s, i.ref, o.(status := New), s')
      else if i.kind == CancelRej && o.status != Filled then JustNow(s, i.ref, o.(status := CancelRejected), s')
      else s' == s
  {
  }

  /** Reports of partial fills, and those for references the strategy does not have, change nothing. */
  lemma IgnoredReport(g: Config, s: State, i: Info, isClose: bool, grow: Grow, s': State)
    requires i.kind == PartFill || (i.kind != Position && i.ref !in s.main && i.ref !in s.hedge)
    requires s' == Handle(g, s, i, isClose, grow)
    ensures s' == s
  {
  }

  /** Before the last startup position is in, those of the two contracts add up; afterwards all are ignored. */
  lemma PositionReport(g: Config, s: State, i: Info, isClose: bool, grow: Grow, s': State)
    requires i.kind == Position && s' == Handle(g, s, i, isClose, grow)
    ensures s'.main == s.main && s'.hedge == s.hedge && s'.next == s.next && s'.sent == s.sent
    ensures s.ready ==> s' == s
    ensures "positionend" != g.main && "positionend" != g.hedge && !s.ready ==> (s'.ready <==> i.contract == "positionend")
    ensures var c := i.contract;
      PosMoved(s, c,
        if !s.ready && (c == g.main || c == g.hedge) && (i.price >= 0.00001 || c == "positionend") then i.size else 0, s')
  {
  }

  /** The main orders have grown by these: side and size of each, under the references that follow. */
  ghost predicate Placing(g: Config, s: State, more: seq<(Side, int)>, s': State) {
    && s'.next == s.next + |more|
    && (forall k :: k in s'.main <==> k in s.main || s.next <= k < s'.next)
    && forall j :: 0 <= j < |more| ==>
         var o := Order(g.main, more[j].1, 0, more[j].0, s.next + j, NewOrder, SubmitNew);
         s'.main[s.next + j] == o && o in s'.sent
  }

  lemma PlacingNone(g: Config, s: State, s': State)
    requires s'.main.Keys == s.main.Keys && s'.next == s.next
    ensures Placing(g, s, [], s')
  {
    assert forall k :: k in s'.main <==> k in s.main.Keys;
  }

  lemma PlacingMore(g: Config, s: State, more: seq<(Side, int)>, t: State, side: Side, size: int, s': State)
    requires Placing(g, s, more, t) && size != 0 && s' == Submit(g, t, g.main, side, size)
    ensures Placing(g, s, more + [(side, size)], s') && s'.hedge == t.hedge && s'.pos == t.pos && t.sent <= s'.sent
  {
    var all := more + [(side, size)];
    forall j | 0 <= j < |all|
      ensures var o := Order(g.main, all[j].1, 0, all[j].0, s.next + j, NewOrder, SubmitNew);
        s'.main[s.next + j] == o && o in s'.sent
    {
      if j < |more| {
        assert all[j] == more[j] && t.main[s.next + j] in t.sent;
      }
    }
  }

  /** One lot against and one along with a side. */
  function Around(against: bool, along: bool, side: Side): seq<(Side, int)> {
    (if against then [(Other(side), 1)] else []) + if along then [(side, 1)] else []
  }

  /** Which main orders the fill of a main order places, each of one lot: one against the trade when it
      opened the first lot, or closed a lot of a full position; and one along with it when it opened a lot
      and there is room for more, or closed the last one. */
  function Renewals(g: Config, before: int, lots: int, isClose: bool): seq<(Side, int)> {
    var now := before + lots;
    Around(
      if isClose then Abs(before) == g.maxPos else now * lots == 1,
      if isClose then now == 0 else now * lots == 1 || Abs(now) < g.maxPos,
      if lots > 0 then Buy else Sell)
  }

  lemma BookedMoves(g: Config, s: State, o: Order, isClose: bool, grow: Grow, s': State)
    requires s' == Booked(g, s, o, isClose, grow)
    ensures PosMoved(s, o.contract, Signed(o.side, o.size), s')
    ensures s'.pos == AddPos(s, o.contract, Signed(o.side, o.size)).pos
  {
    assert s'.pos == AddPos(s, o.contract, Signed(o.side, o.size)).pos;
  }

  lemma BookedRenews(
      g: Config, s: State, o: Order, isClose: bool, grow: Grow, more: seq<(Side, int)>, s': State)
    requires GrowOk(grow) && o.contract == g.main && s' == Booked(g, s, o, isClose, grow)
    requires more == Renewals(g, Pos(s, g.main), Signed(o.side, o.size), isClose)
    ensures Placing(g, s, more, s')
    ensures s'.hedge == s.hedge && s.sent <= s'.sent
  {
    var lots := Signed(o.side, o.size);
    var side := if lots > 0 then Buy else Sell;
    var t := AddPos(s, g.main, lots);
    if isClose {
      ClosedRenews(g, s, t, side, Abs(Pos(s, g.main)) == g.maxPos, more, s');
    } else {
      OpenedRenews(g, s, t, side, Pos(t, g.main) * lots == 1, grow, more, s');
    }
  }

  lemma ClosedRenews(
      g: Config, s: State, t: State, side: Side, full: bool, more: seq<(Side, int)>, s': State)
    requires more == Around(full, Pos(t, g.main) == 0, side)
    requires t.main.Keys == s.main.Keys && t.next == s.next
    requires
      var u := if full then Submit(g, t, g.main, Other(side), 1) else t;
      s' == if Pos(t, g.main) == 0 then Submit(g, u, g.main, side, 1) else u
    ensures Placing(g, s, more, s') && s'.hedge == t.hedge && t.sent <= s'.sent
  {
    var u := if full then Submit(g, t, g.main, Other(side), 1) else t;
    PlacesPair(g, s, t, full, Pos(t, g.main) == 0, side, u, more, s');
  }

  lemma OpenedRenews(
      g: Config, s: State, t: State, side: Side, first: bool, grow: Grow, more: seq<(Side, int)>, s': State)
    requires more == Around(first, first || Abs(Pos(t, g.main)) < g.maxPos, side)
    requires GrowOk(grow) && t.main.Keys == s.main.Keys && t.next == s.next
    requires
      var now := Abs(Pos(t, g.main));
      s' == if first then Submit(g, Submit(g, CancelMain(t), g.main, Other(side), 1), g.main, side, 1)
            else if now < g.maxPos then Submit(g, Grown(t, Other(side), grow), g.main, side, 1)
            else if now == g.maxPos then Grown(t, Other(side), grow) else t
    ensures Placing(g, s, more, s')
    ensures s'.hedge == t.hedge && t.sent <= s'.sent
  {
    if first {
      var u := CancelMain(t);
      PlacesPair(g, s, u, true, true, side, Submit(g, u, g.main, Other(side), 1), more, s');
    } else {
      var now := Abs(Pos(t, g.main));
      var u := if now <= g.maxPos then Grown(t, Other(side), grow) else t;
      PlacesPair(g, s, u, false, now < g.maxPos, side, u, more, s');
    }
  }

  lemma PlacesPair(
      g: Config, s: State, t: State, against: bool, along: bool, side: Side, u: State,
      more: seq<(Side, int)>, s': State)
    requires more == Around(against, along, side)
    requires t.main.Keys == s.main.Keys && t.next == s.next
    requires u == if against then Submit(g, t, g.main, Other(side), 1) else t
    requires s' == if along then Submit(g, u, g.main, side, 1) else u
    ensures Placing(g, s, more, s')
    ensures s'.hedge == t.hedge && s'.pos == t.pos && t.sent <= s'.sent
  {
    PlacingNone(g, s, t);
    if against {
      PlacingMore(g, s, [], t, Other(side), 1, u);
    }
    AroundIs(against, along, side);
    if along {
      PlacingMore(g, s, Around(against, false, side), u, side, 1, s');
    }
  }

  lemma AroundIs(against: bool, along: bool, side: Side)
    ensures Around(against, false, side) == if against then [] + [(Other(side), 1)] else []
    ensures along ==> Around(against, along, side) == Around(against, false, side) + [(side, 1)]
  {
  }

  /** The fill of a hedge order: it goes when complete and else stays as partly filled; the hedge position
      moves by its whole size; nothing is sent. */
  lemma HedgeFillReport(g: Config, s: State, i: Info, isClose: bool, grow: Grow, s': State)
    requires Inv(g, s) && i.kind == Fill && i.ref in s.hedge && s' == Handle(g, s, i, isClose, grow)
    ensures var o, t := s.hedge[i.ref], s'.(pos := s.pos);
      if o.traded + i.size == o.size then JustGone(s, i.ref, t)
      else JustNow(s, i.ref, o.(traded := o.traded + i.size, status := Pfilled), t)
    ensures PosMoved(s, g.hedge, if s.hedge[i.ref].side == Buy then s.hedge[i.ref].size else -s.hedge[i.ref].size, s')
  {
  }

  /** The other way in the hedge contract goes what was reported. */
  ghost predicate HedgePlaced(g: Config, r: State, side: Side, size: int, t: State) {
    && t.pos == r.pos && t.main == r.main
    && if size == 0 then t == r
       else
         var h := Order(g.hedge, size, 0, side, r.next, NewOrder, SubmitNew);
         t.hedge == r.hedge[r.next := h] && t.sent == r.sent + multiset{h} && t.next == r.next + 1
  }

  /** The fill of a main order: it goes exactly when complete; the other way in the hedge contract goes
      the size reported; the main position moves by the whole size; and main orders are renewed. */
  lemma MainFillReport(g: Config, s: State, i: Info, isClose: bool, grow: Grow, s': State) returns (r: State, t: State)
    requires Inv(g, s) && GrowOk(grow) && i.kind == Fill && i.ref in s.main && s' == Handle(g, s, i, isClose, grow)
    ensures var o := s.main[i.ref];
      && (if o.traded + i.size == o.size then JustGone(s, i.ref, r)
          else JustNow(s, i.ref, o.(traded := o.traded + i.size, status := Pfilled), r))
      && HedgePlaced(g, r, if o.side == Buy then Sell else Buy, i.size, t)
      && Placing(g, t, Renewals(g, Pos(s, g.main), Signed(o.side, o.size), isClose), s')
      && s'.hedge == t.hedge && t.sent <= s'.sent
      && PosMoved(s, g.main, if o.side == Buy then o.size else -o.size, s')
  {
    var o := s.main[i.ref];
    r := Traded(s, i, o);
    MainTraded(g, s, i, r);
    t := Hedged(g, r, i, o);
    MainHedged(g, r, i, o, t);
    BookedRenews(g, t, o, isClose, grow, Renewals(g, Pos(t, g.main), Signed(o.side, o.size), isClose), s');
    BookedMoves(g, t, o, isClose, grow, s');
  }

  lemma MainTraded(g: Config, s: State, i: Info, r: State)
    requires Inv(g, s) && i.ref in s.main && r == Traded(s, i, s.main[i.ref])
    ensures var o := s.main[i.ref];
      if o.traded + i.size == o.size then JustGone(s, i.ref, r)
      else JustNow(s, i.ref, o.(traded := o.traded + i.size, status := Pfilled), r)
  {
  }

  lemma MainHedged(g: Config, r: State, i: Info, o: Order, t: State)
    requires g.main != g.hedge && o.contract == g.main && t == Hedged(g, r, i, o)
    ensures HedgePlaced(g, r, if o.side == Buy then Sell else Buy, i.size, t)
  {
  }

  /** At the start: against a position one order for all of it and, if there is room, one lot along with
      it; without a position one lot each way. */
  function Openings(g: Config, pos: int): seq<(Side, int)> {
    var along := if pos > 0 then Buy else Sell;
    if pos == 0 then [(Buy, 1), (Sell, 1)]
    else if Abs(pos) < g.maxPos then [(Other(along), Abs(pos)), (along, 1)]
    else [(Other(along), Abs(pos))]
  }

  function Both(side: Side, size: int, both: bool): seq<(Side, int)> {
    if both then [(side, size)] + [(Other(side), 1)] else [] + [(side, size)]
  }

  lemma OpeningsAre(g: Config, pos: int)
    ensures pos > 0 ==> Openings(g, pos) == Both(Sell, pos, pos < g.maxPos)
    ensures pos < 0 ==> Openings(g, pos) == Both(Buy, -pos, -pos < g.maxPos)
    ensures pos == 0 ==> Openings(g, pos) == Both(Buy, 1, true)
  {
  }

  lemma StartPlaces(g: Config, s: State, s': State)
    requires s' == Started(g, s)
    ensures Placing(g, s, Openings(g, Pos(s, g.main)), s')
    ensures s'.hedge == s.hedge && s'.pos == s.pos && s.sent <= s'.sent
  {
    var pos, more := Pos(s, g.main), Openings(g, Pos(s, g.main));
    OpeningsAre(g, pos);
    if pos > 0 {
      PlacesTwo(g, s, Sell, pos, pos < g.maxPos, more, s');
    } else if pos < 0 {
      PlacesTwo(g, s, Buy, -pos, -pos < g.maxPos, more, s');
    } else {
      PlacesTwo(g, s, Buy, 1, true, more, s');
    }
  }

  lemma PlacesTwo(
      g: Config, s: State, side: Side, size: int, both: bool, more: seq<(Side, int)>, s': State)
    requires size != 0 && more == Both(side, size, both)
    requires var t := Submit(g, s, g.main, side, size);
      s' == if both then Submit(g, t, g.main, Other(side), 1) else t
    ensures Placing(g, s, more, s')
    ensures s'.hedge == s.hedge && s'.pos == s.pos && s.sent <= s'.sent
  {
    var t := Submit(g, s, g.main, side, size);
    PlacingNone(g, s, s);
    PlacingMore(g, s, [], s, side, size, t);
    assert [] + [(side, size)] == [(side, size)];
    if both {
      PlacingMore(g, s, [(side, size)], t, Other(side), 1, s');
    }
  }

  /** After the sweep of cancels nothing is live or being modified, and each order that was live has one
      message, which asks for its cancel. */
  lemma SweepCancels(m: Orders, m': Orders, msgs: multiset<Order>)
    requires Numbered(m) && m' == Each(m, Marked) && msgs == Cancels(m)
    ensures forall k :: k in m' <==> k in m
    ensures forall k :: k in m' ==> m'[k].status !in {SubmitNew, New, Modifying}
    ensures forall k :: k in m && m[k].status !in {SubmitNew, New, Modifying} ==> m'[k] == m[k]
    ensures forall k :: k in m && m[k].status in {SubmitNew, New} ==>
      m'[k] == m[k].(action := CancelOrder, status := Cancelling) && msgs[m'[k]] == 1
    ensures forall o :: o in msgs ==> o.ref in m && m[o.ref].status in {SubmitNew, New} && o == m'[o.ref]
  {
    assert m'.Keys == m.Keys;
    forall k | k in m && m[k].status in {SubmitNew, New}
      ensures m'[k] == m[k].(action := CancelOrder, status := Cancelling) && msgs[m'[k]] == 1
    {
      assert k in LiveRefs(m);
    }
  }

  /** After a price sweep the live orders that moved are being modified, each with one message. */
  lemma SweepModifies(m: Orders, moved: int -> bool, m': Orders, msgs: multiset<Order>)
    requires Numbered(m) && m' == Moderate(m, moved) && msgs == Moves(m, moved)
    ensures forall k :: k in m' <==> k in m
    ensures forall k :: k in m && !(m[k].status in {SubmitNew, New} && moved(k)) ==> m'[k] == m[k]
    ensures forall k :: k in m && m[k].status in {SubmitNew, New} && moved(k) ==>
      m'[k] == m[k].(action := ModOrder, status := Modifying) && msgs[m'[k]] == 1
    ensures forall o :: o in msgs ==> o.ref in m && m[o.ref].status in {SubmitNew, New} && moved(o.ref) && o == m'[o.ref]
  {
    assert m'.Keys == m.Keys;
    forall k | k in m && m[k].status in {SubmitNew, New} && moved(k)
      ensures m'[k] == m[k].(action := ModOrder, status := Modifying) && msgs[m'[k]] == 1
    {
      assert k in MovedRefs(m, moved);
    }
  }

  // ----- The class -----

  lemma MessagesGrow(m: Orders, refs: set<int>, f: Order -> Order, ref: int)
    requires ref in m && ref !in refs
    requires forall k :: k in m ==> f(m[k]).ref == k
    ensures Messages(m, refs + {ref}, f) == Messages(m, refs, f) + multiset{f(m[ref])}
  {
    var before := set k | k in refs && k in m :: f(m[k]);
    var after := set k | k in refs + {ref} && k in m :: f(m[k]);
    assert after == before + {f(m[ref])};
    assert f(m[ref]) !in before;
  }

  /** A sweep over the orders, with `todo` still to come. */
  ghost predicate Swept(m: Orders, now: Orders, todo: set<int>, f: (int, Order) -> Order) {
    && now.Keys == m.Keys && todo <= m.Keys
    && forall ref :: ref in m ==> now[ref] == if ref in todo then m[ref] else f(ref, m[ref])
  }

  lemma SweptStep(m: Orders, now: Orders, todo: set<int>, f: (int, Order) -> Order, ref: int, now': Orders, todo': set<int>)
    requires Swept(m, now, todo, f) && ref in todo && todo' == todo - {ref}
    requires now' == now[ref := f(ref, m[ref])]
    ensures Swept(m, now', todo', f)
  {
    assert now'.Keys == m.Keys;
  }

  ghost predicate Numbered(m: Orders) { forall k :: k in m ==> m[k].ref == k }

  lemma SweptDone(m: Orders, now: Orders, f: (int, Order) -> Order, r: Orders)
    requires Swept(m, now, {}, f) && r.Keys == m.Keys && forall ref :: ref in m ==> r[ref] == f(ref, m[ref])
    ensures now == r
  {
    assert now.Keys == r.Keys;
    forall ref | ref in now
      ensures now[ref] == r[ref]
    {
      assert ref in m;
    }
  }

  function Mover(moved: int -> bool): (int, Order) -> Order {
    (ref: int, o: Order) => if Valid(o) && moved(ref) then Modified(o) else o
  }

  lemma MoverMoves(moved: int -> bool, ref: int, o: Order)
    ensures Mover(moved)(ref, o) == if Valid(o) && moved(ref) then Modified(o) else o
  {
  }

  lemma ModerateDone(m: Orders, now: Orders, moved: int -> bool)
    requires Swept(m, now, {}, Mover(moved))
    ensures now == Moderate(m, moved)
  {
    SweptDone(m, now, Mover(moved), Moderate(m, moved));
  }

  /** The messages of a sweep so far. */
  ghost predicate Told(m: Orders, refs: set<int>, f: Order -> Order, todo: set<int>, msgs: multiset<Order>) {
    msgs == Messages(m, refs - todo, f)
  }

  lemma ToldStep(
      m: Orders, refs: set<int>, f: Order -> Order, todo: set<int>, msgs: multiset<Order>,
      ref: int, todo': set<int>, msgs': multiset<Order>)
    requires Told(m, refs, f, todo, msgs) && refs <= m.Keys && Numbered(m) && forall k :: k in m ==> f(m[k]).ref == m[k].ref
    requires ref in m && ref in todo && todo' == todo - {ref}
    requires msgs' == msgs + if ref in refs then multiset{f(m[ref])} else multiset{}
    ensures Told(m, refs, f, todo', msgs')
  {
    if ref in refs {
      assert refs - todo' == (refs - todo) + {ref};
      MessagesGrow(m, refs - todo, f, ref);
    } else {
      assert refs - todo' == refs - todo;
    }
  }

  /** Orders and messages of a sweep, with `todo` still to come. */
  ghost predicate Sweep(
      m: Orders, refs: set<int>, f: (int, Order) -> Order, h: Order -> Order,
      now: Orders, todo: set<int>, msgs: multiset<Order>)
  {
    && Numbered(m) && refs <= m.Keys && (forall k :: k in m ==> h(m[k]).ref == m[k].ref)
    && Swept(m, now, todo, f) && Told(m, refs, h, todo, msgs)
  }

  lemma SweepStep(
      m: Orders, refs: set<int>, f: (int, Order) -> Order, h: Order -> Order,
      now: Orders, todo: set<int>, msgs: multiset<Order>,
      ref: int, now': Orders, todo': set<int>, msgs': multiset<Order>)
    requires Sweep(m, refs, f, h, now, todo, msgs) && ref in todo && todo' == todo - {ref}
    requires now' == now[ref := f(ref, m[ref])]
    requires msgs' == msgs + if ref in refs then multiset{h(m[ref])} else multiset{}
    ensures Sweep(m, refs, f, h, now', todo', msgs')
  {
    SweptStep(m, now, todo, f, ref, now', todo');
    ToldStep(m, refs, h, todo, msgs, ref, todo', msgs');
  }

  class Strategy {
    const config: Config
    var mainOrders: Orders
    var hedgeOrders: Orders
    var positions: map<string, int>
    var orderRef: int
    var ready: bool
    var sent: multiset<Order>

    function View(): State
      reads this
    {
      State(mainOrders, hedgeOrders, positions, orderRef, ready, sent)
    }

    constructor (config: Config)
      ensures this.config == config && View() == OPENED
      ensures config.main != config.hedge ==> Inv(config, View())
    {
      this.config := config;
      mainOrders, hedgeOrders, positions, orderRef, ready, sent := map[], map[], map[], 0, false, multiset{};
    }

    method Send(o: Order)
      modifies this`sent
      ensures sent == old(sent) + multiset{o}
    {
      sent := sent + multiset{o};
    }

    method New(contract: string, side: Side, size: int)
      modifies this
      ensures View() == Submit(config, old(View()), contract, side, size)
    {
      if size == 0 {
        return;
      }
      var order := Order(contract, size, 0, side, orderRef, NewOrder, SubmitNew);
      orderRef := orderRef + 1;
      Send(order);
      if contract == config.main {
        mainOrders := mainOrders[order.ref := order];
      } else if contract == config.hedge {
        hedgeOrders := hedgeOrders[order.ref := order];
      }
    }

    method DelOrder(ref: int)
      modifies this
      ensures View() == Delete(old(View()), ref)
    {
      if ref in mainOrders {
        mainOrders := Erase(mainOrders, ref);
      } else if ref in hedgeOrders {
        hedgeOrders := Erase(hedgeOrders, ref);
      } else {
        assert Erase(hedgeOrders, ref) == hedgeOrders;
      }
    }

    /** One order in a sweep of cancels: the message goes out only for a live order. */
    method CancelOne(ref: int, o: Order) returns (marked: Order)
      requires o.ref == ref
      modifies this`sent
      ensures marked == Marked(o)
      ensures sent == old(sent) + if Valid(o) then multiset{Marked(o)} else multiset{}
    {
      marked := o;
      if Valid(o) {
        marked := o.(action := CancelOrder, status := Cancelling, ref := ref);
        Send(marked);
      } else if o.status == Modifying {
        marked := o.(action := CancelOrder, status := Cancelling);
      }
    }

    /** The loop of both cancel sweeps: marks and cancels every live order; a modification under way is
        turned into a cancel. */
    method CancelAll(orders: Orders) returns (left: Orders)
      requires Numbered(orders)
      modifies this`sent
      ensures left == Each(orders, Marked) && sent == old(sent) + Cancels(orders)
    {
      ghost var refs, f := LiveRefs(orders), (ref: int, o: Order) => Marked(o);
      ghost var msgs: multiset<Order> := multiset{};
      left := orders;
      var todo: set<int> := orders.Keys;
      while todo != {}
        invariant Sweep(orders, refs, f, Marked, left, todo, msgs)
        invariant sent == old(sent) + msgs
      {
        assert (forall r :: r !in todo) ==> todo == {};
        var ref: int :| ref in todo;
        ghost var now, before := left, todo;
        ghost var more := if ref in refs then multiset{Marked(orders[ref])} else multiset{};
        var marked := CancelOne(ref, left[ref]);
        left := left[ref := marked];
        todo := todo - {ref};
        SweepStep(orders, refs, f, Marked, now, before, msgs, ref, left, todo, msgs + more);
        msgs := msgs + more;
      }
      assert refs - todo == refs;
      SweptDone(orders, left, f, Each(orders, Marked));
    }

    method CancelAllMain()
      requires Numbered(mainOrders)
      modifies this`mainOrders, this`sent
      ensures View() == CancelMain(old(View()))
    {
      mainOrders := CancelAll(mainOrders);
    }

    method CancelAllHedge()
      requires Numbered(hedgeOrders)
      modifies this`hedgeOrders, this`sent
      ensures View() == CancelHedge(old(View()))
    {
      hedgeOrders := CancelAll(hedgeOrders);
    }

    method Modify(o: Order) returns (modified: Order)
      modifies this`sent
      ensures modified == Modified(o) && sent == old(sent) + multiset{modified}
    {
      modified := o.(status := Modifying, action := ModOrder);
      Send(modified);
    }

    /** The loop of both price sweeps: modifies the live orders whose price should move. */
    method ModerateAll(orders: Orders, moved: int -> bool) returns (left: Orders)
      requires Numbered(orders)
      modifies this`sent
      ensures left == Moderate(orders, moved) && sent == old(sent) + Moves(orders, moved)
    {
      ghost var refs, f := MovedRefs(orders, moved), Mover(moved);
      ghost var msgs: multiset<Order> := multiset{};
      left := orders;
      var todo: set<int> := orders.Keys;
      while todo != {}
        invariant Sweep(orders, refs, f, Modified, left, todo, msgs)
        invariant sent == old(sent) + msgs
      {
        assert (forall r :: r !in todo) ==> todo == {};
        var ref: int :| ref in todo;
        ghost var now, before := left, todo;
        ghost var more := if ref in refs then multiset{Modified(orders[ref])} else multiset{};
        MoverMoves(moved, ref, orders[ref]);
        if Valid(left[ref]) && moved(ref) {
          var modified := Modify(left[ref]);
          left := left[ref := modified];
        }
        todo := todo - {ref};
        SweepStep(orders, refs, f, Modified, now, before, msgs, ref, left, todo, msgs + more);
        msgs := msgs + more;
      }
      assert refs - todo == refs;
      ModerateDone(orders, left, moved);
    }

    method ModerateMainOrders(moved: int -> bool)
      requires Numbered(mainOrders)
      modifies this`mainOrders, this`sent
      ensures mainOrders == Moderate(old(mainOrders), moved) && sent == old(sent) + Moves(old(mainOrders), moved)
    {
      mainOrders := ModerateAll(mainOrders, moved);
    }

    method ModerateHedgeOrders(moved: int -> bool)
      requires Numbered(hedgeOrders)
      modifies this`hedgeOrders, this`sent
      ensures hedgeOrders == Moderate(old(hedgeOrders), moved) && sent == old(sent) + Moves(old(hedgeOrders), moved)
    {
      hedgeOrders := ModerateAll(hedgeOrders, moved);
    }

    method ClearValidOrder()
      requires Inv(config, View())
      modifies this
      ensures View() == CancelHedge(CancelMain(old(View())))
      ensures Inv(config, View()) && Exposure(config, View()) == old(Exposure(config, View()))
    {
      ghost var s := View();
      CancelMainKeeps(config, s, CancelMain(s));
      CancelAllMain();
      CancelHedgeKeeps(config, View(), CancelHedge(View()));
      CancelAllHedge();
    }

    method Start()
      modifies this
      ensures View() == Started(config, old(View()))
      ensures old(Inv(config, View())) ==>
        Inv(config, View()) && Exposure(config, View()) == old(Exposure(config, View()))
    {
      ghost var s := View();
      var pos := if config.main in positions then positions[config.main] else 0;
      if pos > 0 {
        New(config.main, Sell, pos);
        if pos < config.maxPos {
          New(config.main, Buy, 1);
        }
      } else if pos < 0 {
        New(config.main, Buy, -pos);
        if -pos < config.maxPos {
          New(config.main, Sell, 1);
        }
      } else {
        New(config.main, Buy, 1);
        New(config.main, Sell, 1);
      }
      ghost var s' := View();
      assert s' == Started(config, s);
      if Inv(config, s) {
        StartKeeps(config, s, s');
      }
    }

    /** Whatever AddCloseOrderSize does to the main orders. */
    method AddCloseOrderSize(side: Side, grow: Grow)
      modifies this
      ensures View() == Grown(old(View()), side, grow)
    {
      var (orders, msgs) := grow(mainOrders, side);
      mainOrders := orders;
      sent := sent + msgs;
    }

    method OpenTraded(side: Side, tradeSize: int, grow: Grow)
      requires Numbered(mainOrders)
      modifies this
      ensures
        var s, now := old(View()), Pos(old(View()), config.main);
        View() ==
          if now * tradeSize == 1 then
            Submit(config, Submit(config, CancelMain(s), config.main, Other(side), 1), config.main, side, 1)
          else if Abs(now) < config.maxPos then Submit(config, Grown(s, Other(side), grow), config.main, side, 1)
          else if Abs(now) == config.maxPos then Grown(s, Other(side), grow)
          else s
    {
      var pos := if config.main in positions then positions[config.main] else 0;
      if pos * tradeSize == 1 {
        CancelAllMain();
        New(config.main, Other(side), 1);
        New(config.main, side, 1);
      } else if Abs(pos) < config.maxPos {
        AddCloseOrderSize(Other(side), grow);
        New(config.main, side, 1);
      } else if Abs(pos) == config.maxPos {
        AddCloseOrderSize(Other(side), grow);
      }
    }

    method CloseTraded(side: Side, previous: int)
      modifies this
      ensures
        var s := old(View());
        var u := if Abs(previous) == config.maxPos then Submit(config, s, config.main, Other(side), 1) else s;
        View() == if Pos(s, config.main) == 0 then Submit(config, u, config.main, side, 1) else u
    {
      var pos := if config.main in positions then positions[config.main] else 0;
      if Abs(previous) == config.maxPos {
        New(config.main, Other(side), 1);
      }
      if pos == 0 {
        New(config.main, side, 1);
      }
    }

    /** `isClose`: what TradeClose answers. */
    method UpdatePos(o: Order, isClose: bool, grow: Grow)
      requires Numbered(mainOrders)
      modifies this
      ensures View() == Booked(config, old(View()), o, isClose, grow)
    {
      var previous := if o.contract in positions then positions[o.contract] else 0;
      var tradeSize := if o.side == Buy then o.size else -o.size;
      positions := positions[o.contract := previous + tradeSize];
      assert View() == AddPos(old(View()), o.contract, tradeSize);
      var side := if tradeSize > 0 then Buy else Sell;
      if o.contract == config.main {
        if !isClose {
          OpenTraded(side, tradeSize, grow);
        } else {
          CloseTraded(side, previous);
        }
      }
    }

    /** The exposure moves by the drift of the report, and by nothing else. */
    method UpdateExchangeInfo(i: Info, isClose: bool, grow: Grow)
      requires Inv(config, View())
      modifies this
      ensures View() == Handle(config, old(View()), i, isClose, grow)
      ensures GrowOk(grow) ==>
        && Inv(config, View())
        && Exposure(config, View())
           == old(Exposure(config, View())) + Drift(config, old(View()), Exchange(i, isClose, grow))
    {
      ghost var s := View();
      if i.kind == Position {
        UpdatePosition(i);
      } else if i.ref in mainOrders {
        Dispatch(i, mainOrders[i.ref], isClose, grow);
      } else if i.ref in hedgeOrders {
        Dispatch(i, hedgeOrders[i.ref], isClose, grow);
      }
      if GrowOk(grow) {
        ExchangeKeeps(config, s, i, isClose, grow, View());
      }
    }

    /** The branches on the kind of report, for an order that is known. */
    method Dispatch(i: Info, order: Order, isClose: bool, grow: Grow)
      requires Inv(config, View()) && i.kind != Position && Known(View(), i.ref) && order == Find(View(), i.ref)
      modifies this
      ensures View() == Handle(config, old(View()), i, isClose, grow)
    {
      match i.kind {
        case Acc =>
          if order.status == SubmitNew {
            SetOrder(i.ref, order.(status := Status.New));
          }
        case Rej => DelOrder(i.ref);
        case Cancel =>
          DelOrder(i.ref);
          if order.action == ModOrder {
            New(order.contract, order.side, order.size);
          }
        case CancelRej =>
          if order.status != Filled {
            SetOrder(i.ref, order.(status := CancelRejected));
          }
        case Fill => FillOrder(i, order, isClose, grow);
        case PartFill =>
      }
    }

    method SetOrder(ref: int, o: Order)
      requires ref in mainOrders || ref in hedgeOrders
      modifies this`mainOrders, this`hedgeOrders
      ensures View() == Put(old(View()), ref, o)
    {
      if ref in mainOrders {
        mainOrders := mainOrders[ref := o];
      } else {
        hedgeOrders := hedgeOrders[ref := o];
      }
    }

    method FillOrder(i: Info, order: Order, isClose: bool, grow: Grow)
      requires Inv(config, View()) && Known(View(), i.ref) && order == Find(View(), i.ref)
      modifies this
      ensures View() == OnFill(config, old(View()), i, order, isClose, grow)
    {
      ghost var s := View();
      var traded := order.traded + i.size;
      if order.size == traded {
        DelOrder(i.ref);
      } else {
        SetOrder(i.ref, order.(traded := traded, status := Pfilled));
      }
      ghost var t := View();
      TradedKeeps(config, s, i, order, t);
      if order.contract == config.main {
        New(config.hedge, Other(order.side), i.size);
      }
      HedgedKeeps(config, t, i, order, View());
      UpdatePos(order, isClose, grow);
    }

    method UpdatePosition(i: Info)
      requires i.kind == Position
      modifies this
      ensures View() == OnPosition(config, old(View()), i)
    {
      if ready {
        return;
      }
      if (i.price < 0.00001 || i.size == 0) && i.contract != POSITION_END {
        return;
      }
      if i.contract == config.main || i.contract == config.hedge {
        var pos := if i.contract in positions then positions[i.contract] else 0;
        positions := positions[i.contract := pos + i.size];
      } else if i.contract == POSITION_END {
        ready := true;
      }
    }
  }
}
