/** The classes of src/simtrade/ctporder that drive the close-token ledger: TokenManager, whose
    methods are proved against the functions of TokenLedger, the order path of MessageSender and the
    callbacks of Listener. The trading API is a log of requests and a parameter for its answers. */
module CtpOrder {
  import opened TokenLedger

  // ----- TokenManager -----

  class TokenManager {
    var buyToken: map<string, int>
    var sellToken: map<string, int>
    var orderIdMap: map<int, int>
    var orderMap: map<int, Order>
    var isClose: map<int, bool>
    var ctpId: int

    function View(): Tm
      reads this
    {
      Tm(buyToken, sellToken, orderIdMap, orderMap, isClose, ctpId)
    }

    constructor ()
      ensures View() == NEW_TM
    {
      buyToken, sellToken, orderIdMap, orderMap, isClose, ctpId := map[], map[], map[], map[], map[], 0;
    }

    method RegisterToken(contract: string, num: int, side: Side)
      modifies this
      ensures View() == Give(old(View()), Other(side), contract, num)
    {
      if side == Buy {
        sellToken := sellToken[contract := Get(sellToken, contract) + num];
      } else {
        buyToken := buyToken[contract := Get(buyToken, contract) + num];
      }
    }

    /** The order gets the next id, and its reference leads to it. Another reference keeps its id, or
        loses it when this is a first order with reference 0; the orders so far keep theirs. */
    method RegisterOrderRef(o: Order)
      modifies this
      ensures View() == Register(old(View()), o)
      ensures CtpId(View(), o.ref) == old(ctpId) && old(ctpId) in orderMap && orderMap[old(ctpId)] == o
      ensures forall ref :: ref != o.ref ==> CtpId(View(), ref) == if o.ref == 0 then -1 else CtpId(old(View()), ref)
      ensures forall id :: id != old(ctpId) && id in old(orderMap) ==> id in orderMap && orderMap[id] == old(orderMap[id])
      ensures IdsOk(old(View())) && old(ctpId) >= 0 ==> IdsOk(View()) && ctpId > old(ctpId) && old(ctpId) !in old(orderMap)
      ensures forall side, c :: Token(View(), side, c) == Token(old(View()), side, c)
      ensures isClose == old(isClose)
    {
      if o.ref == 0 {
        orderIdMap := map[];
      }
      orderMap := orderMap[ctpId := o];
      orderIdMap := orderIdMap[o.ref := ctpId];
      ctpId := ctpId + 1;
    }

    method GetCtpId(o: Order) returns (id: int)
      ensures o.ref in orderIdMap ==> id == orderIdMap[o.ref]
      ensures o.ref !in orderIdMap ==> id == -1
    {
      if o.ref !in orderIdMap {
        return -1;
      }
      id := orderIdMap[o.ref];
    }

    /** Searches the whole map, in no particular order. */
    method GetOrderRef(id: int) returns (ref: int)
      ensures if IsMapped(View(), id) then ref in orderIdMap && orderIdMap[ref] == id else ref == -1
    {
      var todo: set<int> := orderIdMap.Keys;
      while todo != {}
        invariant todo <= orderIdMap.Keys
        invariant forall r :: r in orderIdMap && orderIdMap[r] == id ==> r in todo
      {
        assert (forall r :: r !in todo) ==> todo == {};
        var r: int :| r in todo;
        if orderIdMap[r] == id {
          return r;
        }
        todo := todo - {r};
      }
      ref := -1;
    }

    /** The source reads past the end of the map for an id that was never issued. */
    method GetOrder(id: int) returns (o: Order)
      requires id in orderMap
      ensures o == orderMap[id]
    {
      o := orderMap[id];
    }

    /** A close exactly when tokens cover the whole order, and it takes just those: no other side or
        contract loses any, and no count becomes negative. Only a close is marked. */
    method CheckOffset(o: Order) returns (offset: Offset)
      modifies this
      ensures (View(), offset) == Check(old(View()), o)
      ensures offset == CloseToday <==> o.side != Uninited && Token(old(View()), o.side, o.contract) >= o.size
      ensures offset == Exit <==> o.side == Uninited
      ensures forall side, c :: side != Uninited ==>
        Token(View(), side, c)
          == Token(old(View()), side, c) - if offset == CloseToday && side == o.side && c == o.contract then o.size else 0
      ensures (forall side, c :: side != Uninited ==> Token(old(View()), side, c) >= 0) ==>
        forall side, c :: side != Uninited ==> Token(View(), side, c) >= 0
      ensures forall id :: Closes(isClose, id) <==>
        Closes(old(isClose), id) || (offset == CloseToday && id == CtpId(View(), o.ref))
      ensures orderIdMap == old(orderIdMap) && orderMap == old(orderMap) && ctpId == old(ctpId)
    {
      var id := GetCtpId(o);
      var pos;
      if o.side == Buy {
        pos := Get(buyToken, o.contract);
      } else if o.side == Sell {
        pos := Get(sellToken, o.contract);
      } else {
        return Exit;
      }
      if pos < o.size {
        return Open;
      }
      if o.side == Buy {
        buyToken := buyToken[o.contract := Get(buyToken, o.contract) - o.size];
      } else {
        sellToken := sellToken[o.contract := Get(sellToken, o.contract) - o.size];
      }
      isClose := isClose[id := true];
      offset := CloseToday;
    }

    method HandleFilled(o: Order)
      modifies this
      ensures View() == Filled(old(View()), o)
    {
      var id := GetCtpId(o);
      if o.side == Buy && !Closes(isClose, id) {
        sellToken := sellToken[o.contract := Get(sellToken, o.contract) + o.size];
      } else if o.side == Sell && !Closes(isClose, id) {
        buyToken := buyToken[o.contract := Get(buyToken, o.contract) + o.size];
      }
    }

    method HandleCancelled(o: Order)
      modifies this
      ensures View() == Cancelled(old(View()), o)
    {
      var id := GetCtpId(o);
      if o.side == Buy && Closes(isClose, id) {
        buyToken := buyToken[o.contract := Get(buyToken, o.contract) + o.size];
      } else if o.side == Sell && Closes(isClose, id) {
        sellToken := sellToken[o.contract := Get(sellToken, o.contract) + o.size];
      }
    }
  }

  /** Cancelling an order gives back exactly what its CheckOffset took, for every side and contract,
      as long as a fresh order carries no close mark from before. */
  lemma CancelUndoesCheck(tm: Tm, o: Order, side: Side, c: string)
    requires o.side != Uninited && !Closes(tm.isClose, CtpId(tm, o.ref))
    ensures Token(Cancelled(Check(tm, o).0, o), side, c) == Token(tm, side, c)
  {
  }

  // ----- MessageSender -----

  datatype Action = NewOrder | ModOrder | CancelOrder | QueryPos | OtherAction

  datatype Request =
    | Insert(id: int, order: Order, offset: Offset)
    | Delete(id: int, contract: string)
    | QueryPositions

  class MessageSender {
    const tokens: TokenManager
    var requestId: int
    /** What went to the trading API, with the request id of each. */
    var sent: seq<(Request, int)>

    constructor (tokens: TokenManager)
      ensures this.tokens == tokens && requestId == 0 && sent == []
    {
      this.tokens := tokens;
      requestId, sent := 0, [];
    }

    method Submit(r: Request)
      modifies this
      ensures requestId == old(requestId) + 1 && sent == old(sent) + [(r, requestId)]
    {
      requestId := requestId + 1;
      sent := sent + [(r, requestId)];
    }

    /** `accepted`: ReqOrderInsert answers 0. An order is registered in any case; it is sent, with
        the offset the tokens allow, when it has a side; a refused insert keeps the tokens it took. */
    method New(o: Order, accepted: bool) returns (ok: bool)
      modifies this, tokens
      ensures var tm := Register(old(tokens.View()), o);
        if o.side == Uninited then !ok && tokens.View() == tm && sent == old(sent)
        else
          && ok == accepted && tokens.View() == Check(tm, o).0
          && sent == old(sent) + [(Insert(tm.next - 1, o, Check(tm, o).1), old(requestId) + 1)]
    {
      tokens.RegisterOrderRef(o);
      var id := tokens.GetCtpId(o);
      if o.side != Buy && o.side != Sell {
        return false;
      }
      var offset := tokens.CheckOffset(o);
      Submit(Insert(id, o, offset));
      ok := accepted;
    }

    /** The reference must be one that was registered: the source reads past the end otherwise. */
    method Cancel(o: Order)
      requires CtpId(tokens.View(), o.ref) in tokens.orderMap
      modifies this
      ensures var id := CtpId(tokens.View(), o.ref);
        sent == old(sent) + [(Delete(id, tokens.orderMap[id].contract), old(requestId) + 1)]
    {
      var id := tokens.GetCtpId(o);
      var original := tokens.GetOrder(id);
      Submit(Delete(id, original.contract));
    }

    /** Up to a hundred tries; the process ends when none is accepted (`ok` is false). */
    method SendQueryInvestorPosition(accepted: int -> bool) returns (ok: bool)
      modifies this
      ensures ok <==> exists k :: 0 <= k < 100 && accepted(k)
      ensures var tries := requestId - old(requestId);
        && 1 <= tries <= 100 && (forall k :: 0 <= k < tries - 1 ==> !accepted(k)) && ok == accepted(tries - 1)
        && |sent| == |old(sent)| + tries && sent[..|old(sent)|] == old(sent)
        && forall k :: |old(sent)| <= k < |sent| ==> sent[k].0 == QueryPositions
    {
      var retry := 0;
      while retry < 100
        invariant 0 <= retry <= 100 && requestId == old(requestId) + retry
        invariant forall k :: 0 <= k < retry ==> !accepted(k)
        invariant |sent| == |old(sent)| + retry && sent[..|old(sent)|] == old(sent)
        invariant forall k :: |old(sent)| <= k < |sent| ==> sent[k].0 == QueryPositions
      {
        Submit(QueryPositions);
        if accepted(retry) {
          return true;
        }
        retry := retry + 1;
      }
      ok := false;
    }

    /** Only a new order touches the tokens: a modification is sent as a cancel. */
    method Handle(o: Order, action: Action, accepted: int -> bool) returns (ok: bool)
      requires action == ModOrder || action == CancelOrder ==> CtpId(tokens.View(), o.ref) in tokens.orderMap
      modifies this, tokens
      ensures action != NewOrder ==> tokens.View() == old(tokens.View())
      ensures action == NewOrder && o.side != Uninited ==>
        var (tm, offset) := Check(Register(old(tokens.View()), o), o);
        ok == accepted(0) && tokens.View() == tm
        && sent == old(sent) + [(Insert(old(tokens.ctpId), o, offset), old(requestId) + 1)]
      ensures action == NewOrder && o.side == Uninited ==>
        !ok && tokens.View() == Register(old(tokens.View()), o) && sent == old(sent)
      ensures action == QueryPos ==>
        && |sent| > |old(sent)| && sent[..|old(sent)|] == old(sent)
        && forall k :: |old(sent)| <= k < |sent| ==> sent[k].0 == QueryPositions
      ensures action == ModOrder || action == CancelOrder ==>
        var id := CtpId(tokens.View(), o.ref);
        ok && sent == old(sent) + [(Delete(id, tokens.orderMap[id].contract), old(requestId) + 1)]
      ensures action == OtherAction ==> !ok && sent == old(sent)
    {
      match action
      case NewOrder => ok := New(o, accepted(0));
      case ModOrder => Cancel(o); ok := true;
      case CancelOrder => Cancel(o); ok := true;
      case QueryPos => ok := SendQueryInvestorPosition(accepted);
      case OtherAction => ok := false;
    }
  }

  // ----- Listener -----

  datatype Submission =
    InsertSubmitted | CancelSubmitted | Accepted | InsertRejected | CancelRejected | OtherSubmission

  datatype Status = AllTraded | PartTradedQueueing | Canceled | OtherStatus

  datatype OrderReport = OrderReport(front: int, session: int, id: int, submission: Submission, status: Status)

  datatype TradeReport = TradeReport(id: int, direction: Side, volume: int)

  /** A held position as reported; `Uninited` stands for any direction but long and short. */
  datatype Position = Position(contract: string, held: Side, num: int)

  datatype Option<T> = None | Some(value: T)

  datatype Kind = Acc | Rej | Cancel

  datatype Info = OrderInfo(kind: Kind, ref: int) | FillInfo(ref: int, volume: int) | PositionInfo(contract: string, size: int)

  /** The report ends the order. */
  predicate Dead(r: OrderReport) { r.submission == InsertRejected || r.status == Canceled }

  /** The listener acts on the report: not on those that only log an insert, nor on answers to a cancel. */
  predicate ActedOn(r: OrderReport) {
    || r.submission == Accepted || r.submission == InsertRejected
    || (r.submission == InsertSubmitted && r.status in {AllTraded, PartTradedQueueing, Canceled})
  }

  /** What the strategy hears of a report for this session: one message under the reference of the id,
      if the listener acts on it and the id is known. The end of the order is told as such, and only
      that; a rejection is told as one, but for the misses that CZCE reports in that way. */
  ghost predicate Tells(tm: Tm, r: OrderReport, czce: bool, sent: seq<Info>, sent': seq<Info>) {
    if !IsMapped(tm, r.id) || !ActedOn(r) then sent' == sent
    else
      && |sent'| == |sent| + 1 && sent'[..|sent|] == sent
      && var m := sent'[|sent|];
      && m.OrderInfo? && m.ref in tm.idMap && tm.idMap[m.ref] == r.id
      && (m.kind == Acc <==> !Dead(r))
      && (m.kind == Rej <==> r.submission == InsertRejected && !(r.status == Canceled && czce))
  }

  /** Whether the tokens of a dead order come back. */
  predicate Credits(r: Submission, status: Status) { (r == Accepted && status == Canceled) || r == InsertRejected }

  class Listener {
    const tokens: TokenManager
    var front: int
    var session: int
    var initialized: bool
    var sent: seq<Info>

    constructor (tokens: TokenManager)
      ensures this.tokens == tokens && !initialized && sent == []
    {
      this.tokens := tokens;
      initialized, sent := false, [];
    }

    method OnRspUserLogin(isLast: bool, front: int, session: int)
      modifies this
      ensures isLast ==> this.front == front && this.session == session
      ensures !isLast ==> this.front == old(this.front) && this.session == old(this.session)
      ensures initialized == old(initialized) && sent == old(sent)
    {
      if isLast {
        this.front, this.session := front, session;
      }
    }

    /** Reports of other sessions are ignored. A report of this session must be for an issued id:
        the source reads past the end of the map otherwise; and -1, the answer for a reference not
        found, must not be a reference. `czce`: the exchange is CZCE. */
    method OnRtnOrder(r: OrderReport, czce: bool)
      requires r.front == front && r.session == session ==> r.id in tokens.orderMap
      requires -1 !in tokens.orderIdMap
      modifies this, tokens
      ensures front == old(front) && session == old(session) && initialized == old(initialized)
      ensures r.front != front || r.session != session || !IsMapped(old(tokens.View()), r.id) ==>
        tokens.View() == old(tokens.View()) && sent == old(sent)
      ensures r.front == front && r.session == session && IsMapped(old(tokens.View()), r.id) ==>
        tokens.View() == if Credits(r.submission, r.status)
                         then Cancelled(old(tokens.View()), old(tokens.orderMap[r.id])) else old(tokens.View())
      ensures r.front == front && r.session == session ==> Tells(old(tokens.View()), r, czce, old(sent), sent)
      // every report that the exchange has decided on is told
      ensures r.front == front && r.session == session && IsMapped(old(tokens.View()), r.id)
              && (r.submission == Accepted || r.submission == InsertRejected) ==>
        && |sent| == |old(sent)| + 1 && sent[|old(sent)|].OrderInfo?
        && (sent[|old(sent)|].kind == Acc <==> r.submission == Accepted && r.status != Canceled)
      // a close that is rejected, or cancelled after it was accepted, has its size back, and nothing else moves
      ensures r.front == front && r.session == session && IsMapped(old(tokens.View()), r.id) ==>
        var o := old(tokens.orderMap[r.id]);
        forall side, c :: side != Uninited ==>
          Token(tokens.View(), side, c) == Token(old(tokens.View()), side, c) +
            if side == o.side && c == o.contract && Closes(old(tokens.isClose), CtpId(old(tokens.View()), o.ref))
               && (r.submission == InsertRejected || (r.submission == Accepted && r.status == Canceled))
            then o.size else 0
    {
      if front != r.front || session != r.session {
        return;
      }
      var o := tokens.GetOrder(r.id);
      var ref := tokens.GetOrderRef(r.id);
      if ref == -1 {
        return;
      }
      var kind;
      match r.submission {
        case InsertSubmitted =>
          if r.status == AllTraded || r.status == PartTradedQueueing {
            kind := Acc;
          } else if r.status == Canceled {
            kind := Cancel;
          } else {
            return;
          }
        case CancelSubmitted => return;
        case Accepted =>
          if r.status == Canceled {
            kind := Cancel;
            tokens.HandleCancelled(o);
          } else {
            kind := Acc;
          }
        case InsertRejected =>
          if r.status == Canceled && czce {
            kind := Cancel;
            tokens.HandleCancelled(o);
          } else {
            kind := Rej;
            tokens.HandleCancelled(o);
          }
        case CancelRejected => return;
        case OtherSubmission => return;
      }
      sent := sent + [OrderInfo(kind, ref)];
    }

    method OnRtnTrade(trade: TradeReport)
      requires trade.direction != Uninited ==> trade.id in tokens.orderMap
      requires -1 !in tokens.orderIdMap
      modifies this, tokens
      ensures front == old(front) && session == old(session) && initialized == old(initialized)
      ensures trade.direction == Uninited || !IsMapped(old(tokens.View()), trade.id) ==>
        tokens.View() == old(tokens.View()) && sent == old(sent)
      ensures trade.direction != Uninited && IsMapped(old(tokens.View()), trade.id) ==>
        && tokens.View() == Filled(old(tokens.View()), old(tokens.orderMap[trade.id]))
        && |sent| == |old(sent)| + 1 && sent[..|old(sent)|] == old(sent)
        && sent[|old(sent)|].FillInfo? && sent[|old(sent)|].volume == trade.volume
        && sent[|old(sent)|].ref in tokens.orderIdMap && tokens.orderIdMap[sent[|old(sent)|].ref] == trade.id
    {
      if trade.direction != Buy && trade.direction != Sell {
        return;
      }
      var ref := tokens.GetOrderRef(trade.id);
      var o := tokens.GetOrder(trade.id);
      if ref == -1 {
        return;
      }
      tokens.HandleFilled(o);
      sent := sent + [FillInfo(ref, trade.volume)];
    }

    /** Startup positions count until the last one is in; a later query changes nothing. */
    method OnRspQryInvestorPosition(position: Option<Position>, isError: bool, isLast: bool)
      modifies this, tokens
      ensures front == old(front) && session == old(session)
      ensures initialized == (old(initialized) || (!isError && isLast))
      ensures tokens.View() ==
        if !isError && !old(initialized) && position.Some? && position.value.held != Uninited
        then Give(old(tokens.View()), Other(position.value.held), position.value.contract, position.value.num)
        else old(tokens.View())
      ensures sent == old(sent) +
        if isError || old(initialized) then []
        else
          (if position.Some? && position.value.held != Uninited then
             var p := position.value;
             [PositionInfo(p.contract, if p.held == Buy then p.num else -p.num)]
           else [])
          + if isLast then [PositionInfo("positionend", 0)] else []
    {
      if isError || initialized {
        return;
      }
      if position.Some? {
        var p := position.value;
        if p.held == Buy || p.held == Sell {
          tokens.RegisterToken(p.contract, p.num, p.held);
          sent := sent + [PositionInfo(p.contract, if p.held == Buy then p.num else -p.num)];
        }
      }
      if isLast {
        initialized := true;
        sent := sent + [PositionInfo("positionend", 0)];
      }
    }
  }

  // ----- The classes together -----

  /** A call from outside: an order from the strategy, or a callback of the trading API. */
  datatype Call =
    | Ordered(o: Order, action: Action, accepted: int -> bool)
    | Reported(r: OrderReport, czce: bool)
    | Traded(trade: TradeReport)
    | Positioned(position: Option<Position>, isError: bool, isLast: bool)

  datatype Login = Login(front: int, session: int)

  predicate Mine(me: Login, r: OrderReport) { r.front == me.front && r.session == me.session }

  /** What the calls keep to: sizes are positive, -1 is no reference, a modification or cancel is for a
      registered reference, reports are for issued ids, an order is filled once and whole or dies once. */
  predicate Fair(s: Sys, me: Login, c: Call) {
    match c
    case Ordered(o, action, _) =>
      if action == NewOrder then o.size > 0 && o.ref != -1
      else action == ModOrder || action == CancelOrder ==> o.ref in s.tm.idMap
    case Reported(r, _) => Mine(me, r) ==> 0 <= r.id < |s.book| && (Dead(r) ==> s.book[r.id].fate == Live)
    case Traded(trade) =>
      0 <= trade.id < |s.book| && s.book[trade.id].fate == Live && trade.volume == s.book[trade.id].o.size
    case Positioned(position, _, _) => position.Some? ==> position.value.num >= 0
  }

  function Submitted(s: Sys, o: Order, accepted: bool): Sys {
    var (tm, offset) := Check(Register(s.tm, o), o);
    var fate := if o.side == Uninited then Unsent else if accepted then Live else Refused;
    s.(tm := tm, book := s.book + [Entry(o, offset == CloseToday, fate)])
  }

  function Killed(s: Sys, id: nat, credited: bool): Sys
    requires id < |s.book|
  {
    var e := s.book[id];
    var heard := credited && IsMapped(s.tm, id);
    WithFate(s, id, KillSeen(heard || !e.taken)).(tm := if heard then Cancelled(s.tm, e.o) else s.tm)
  }

  function Whole(s: Sys, id: nat): Sys
    requires id < |s.book|
  {
    var e := s.book[id];
    var heard := IsMapped(s.tm, id);
    WithFate(s, id, FillSeen(heard || e.taken)).(tm := if heard then Filled(s.tm, e.o) else s.tm)
  }

  /** What one call comes to, as one step of the history. */
  function After(s: Sys, me: Login, c: Call): Sys
    requires Fair(s, me, c)
  {
    match c
    case Ordered(o, action, accepted) => if action == NewOrder then Submitted(s, o, accepted(0)) else s
    case Reported(r, _) => if Mine(me, r) && Dead(r) then Killed(s, r.id, Credits(r.submission, r.status)) else s
    case Traded(trade) => if trade.direction == Uninited then WithFate(s, trade.id, FillDue) else Whole(s, trade.id)
    case Positioned(position, isError, isLast) =>
      if isError || s.initialized then s
      else
        var s' := if position.Some? && position.value.held != Uninited
                  then WithPosition(s, position.value.contract, position.value.num, position.value.held) else s;
        s'.(initialized := isLast)
  }

  predicate FairAll(s: Sys, me: Login, calls: seq<Call>)
    decreases |calls|
  {
    calls == [] || (Fair(s, me, calls[0]) && FairAll(After(s, me, calls[0]), me, calls[1..]))
  }

  function AfterAll(s: Sys, me: Login, calls: seq<Call>): Sys
    requires FairAll(s, me, calls)
    decreases |calls|
  {
    if calls == [] then s else AfterAll(After(s, me, calls[0]), me, calls[1..])
  }

  /** Reached by a run without an unsafe restart, with no call under way. */
  ghost predicate AtRest(es: seq<Event>, s: Sys) { SafelyReaches(es, s) && s.pc == Idle && s.cb == CbIdle }

  lemma RestIsSound(es: seq<Event>, s: Sys)
    requires AtRest(es, s)
    ensures Sound(s)
  {
    NewSysIsSound();
    RunKeepsSound(NEW_SYS, es);
  }

  lemma SubmittedIsRun(es: seq<Event>, s: Sys, o: Order, accepted: bool) returns (es': seq<Event>)
    requires AtRest(es, s) && o.size > 0 && o.ref != -1
    ensures es <= es' && AtRest(es', Submitted(s, o, accepted))
  {
    var s1 := Do(s, Begin(o));
    Extend(es, s, Begin(o), s1);
    var s';
    if Enough(s1.tm, o) {
      es', s' := CloseSent(es + [Begin(o)], s1, o, accepted);
    } else {
      es', s' := OpenSent(es + [Begin(o)], s1, o, accepted);
    }
    assert s'.book == Submitted(s, o, accepted).book;
  }

  /** From the lookup on, when the mark found is the one of the order. */
  lemma HandledIsRun(es: seq<Event>, s: Sys) returns (es': seq<Event>, s': Sys)
    requires SafelyReaches(es, s) && s.cb.Found? && s.cb.id < |s.book| && MarkFound(s) == s.book[s.cb.id].taken
    requires var e := s.book[s.cb.id];
      e.o.side != Uninited && e.fate == if s.cb.filled then FillDue else KillDue(true)
    ensures es <= es' && SafelyReaches(es', s')
    ensures var e := s.book[s.cb.id];
      s' == WithFate(s, s.cb.id, Credited(e)).(
              tm := if s.cb.filled then Filled(s.tm, e.o) else Cancelled(s.tm, e.o), cb := CbIdle)
  {
    s' := Do(s, Decide);
    es' := es + [Decide];
    Extend(es, s, Decide, s');
    if s'.cb.Crediting? {
      var s1 := s';
      s' := Do(s1, Credit);
      Extend(es', s1, Credit, s');
      es' := es' + [Credit];
    }
  }

  /** The callback for an order that is filled or killed, to its end. */
  lemma CallbackIsRun(es: seq<Event>, s: Sys, id: nat) returns (es': seq<Event>)
    requires AtRest(es, s) && id < |s.book| && (s.book[id].fate == FillDue || s.book[id].fate.KillDue?)
    ensures es <= es'
    ensures s.book[id].fate == FillDue ==> AtRest(es', Whole(s, id))
    ensures s.book[id].fate.KillDue? ==> AtRest(es', Killed(s, id, s.book[id].fate.credited))
  {
    RestIsSound(es, s);
    assert EntryOk(s, id);
    var s1 := Do(s, Notice(id));
    Extend(es, s, Notice(id), s1);
    es' := es + [Notice(id)];
    if s1.cb.Found? {
      var ref :| ref in s.tm.idMap && s.tm.idMap[ref] == id;
      assert s.book[id].o.ref == ref;
      var s2;
      es', s2 := HandledIsRun(es', s1);
    }
  }

  lemma CallIsRun(es: seq<Event>, s: Sys, me: Login, c: Call) returns (es': seq<Event>)
    requires AtRest(es, s) && Fair(s, me, c)
    ensures es <= es' && AtRest(es', After(s, me, c))
  {
    es' := es;
    match c
    case Ordered(o, action, accepted) =>
      if action == NewOrder {
        es' := SubmittedIsRun(es, s, o, accepted(0));
      }
    case Reported(r, _) =>
      if Mine(me, r) && Dead(r) {
        es' := KilledIsRun(es, s, r.id, Credits(r.submission, r.status));
      }
    case Traded(trade) => es' := TradedIsRun(es, s, trade);
    case Positioned(position, isError, isLast) =>
      if !isError && !s.initialized {
        es' := PositionedIsRun(es, s, position, isLast);
      }
  }

  lemma KilledIsRun(es: seq<Event>, s: Sys, id: nat, credited: bool) returns (es': seq<Event>)
    requires AtRest(es, s) && id < |s.book| && s.book[id].fate == Live
    ensures es <= es' && AtRest(es', Killed(s, id, credited))
  {
    var s1 := Do(s, Kill(id, credited));
    Extend(es, s, Kill(id, credited), s1);
    es' := CallbackIsRun(es + [Kill(id, credited)], s1, id);
    assert Killed(s1, id, credited) == Killed(s, id, credited);
  }

  lemma TradedIsRun(es: seq<Event>, s: Sys, trade: TradeReport) returns (es': seq<Event>)
    requires AtRest(es, s) && 0 <= trade.id < |s.book| && s.book[trade.id].fate == Live
    ensures es <= es'
    ensures AtRest(es', if trade.direction == Uninited then WithFate(s, trade.id, FillDue) else Whole(s, trade.id))
  {
    var s1 := Do(s, Trade(trade.id));
    Extend(es, s, Trade(trade.id), s1);
    es' := es + [Trade(trade.id)];
    if trade.direction != Uninited {
      es' := CallbackIsRun(es', s1, trade.id);
      assert Whole(s1, trade.id) == Whole(s, trade.id);
    }
  }

  lemma PositionedIsRun(es: seq<Event>, s: Sys, position: Option<Position>, isLast: bool) returns (es': seq<Event>)
    requires AtRest(es, s) && !s.initialized && (position.Some? ==> position.value.num >= 0)
    ensures es <= es' && AtRest(es', After(s, Login(0, 0), Positioned(position, false, isLast)))
  {
    es' := es;
    var s' := s;
    if position.Some? && position.value.held != Uninited {
      var e := Event.Position(position.value.contract, position.value.num, position.value.held);
      s' := Do(s, e);
      Extend(es, s, e, s');
      es' := es + [e];
    }
    if isLast {
      Extend(es', s', PositionEnd, Do(s', PositionEnd));
      es' := es' + [PositionEnd];
    }
  }

  /** What an order leaves behind, whatever came before it: nothing when it dies with its credit; when
      it fills, a close has used up its size and an opening has given its size to the other side. */
  lemma OrderLeaves(es: seq<Event>, s: Sys, o: Order, side: Side, c: string)
    requires AtRest(es, s) && o.side != Uninited && side != Uninited
    ensures var s1 := Submitted(s, o, true); var id := |s.book|; var here := c == o.contract;
      && Token(Killed(s1, id, true).tm, side, c) == Token(s.tm, side, c)
      && Token(Whole(s1, id).tm, side, c)
           == Token(s.tm, side, c)
              + if Enough(s.tm, o) then (if here && side == o.side then -o.size else 0)
                else if here && side == Other(o.side) then o.size else 0
  {
    RestIsSound(es, s);
    var s1 := Submitted(s, o, true);
    assert s1.tm.idMap[o.ref] == |s.book|;
    assert IsMapped(s1.tm, |s.book|);
    assert s1.book[|s.book|].o == o;
    assert !Closes(s.tm.isClose, |s.book|);
    assert Closes(s1.tm.isClose, |s.book|) <==> Enough(s.tm, o);
  }

  lemma {:induction false} CallsAreRun(es: seq<Event>, s: Sys, me: Login, calls: seq<Call>) returns (es': seq<Event>)
    requires AtRest(es, s) && FairAll(s, me, calls)
    ensures es <= es' && AtRest(es', AfterAll(s, me, calls))
    decreases |calls|
  {
    es' := es;
    if calls != [] {
      es' := CallIsRun(es, s, me, calls[0]);
      es' := CallsAreRun(es', After(s, me, calls[0]), me, calls[1..]);
    }
  }

  /** Whatever calls come one after another, restarts of the strategy included: no token count is
      negative, and the close orders out are covered by the position held. */
  lemma CallsNeverOverdraw(me: Login, calls: seq<Call>, side: Side, c: string)
    requires FairAll(NEW_SYS, me, calls) && side != Uninited
    ensures var s := AfterAll(NEW_SYS, me, calls);
      && 0 <= Token(s.tm, side, c)
      && Token(s.tm, side, c) + CloseOrders(s, side, c) + TokensWithheld(s, side, c) == PositionHeld(s, side, c)
      && 0 <= CloseOrders(s, side, c) <= PositionHeld(s, side, c)
  {
    assert AtRest([], NEW_SYS);
    var es := CallsAreRun([], NEW_SYS, me, calls);
    SafeRestarts(es, side, c);
  }

  // What the strategy is told, against the ledger.

  /** The message ends the order. */
  predicate Final(m: Info) { m.FillInfo? || (m.OrderInfo? && m.kind != Acc) }

  /** The message is about the order with this id, and true: one that is rejected or cancelled is killed,
      and one that is filled is filled by its size. */
  predicate TellsTruth(m: Info, id: int, book: seq<Entry>) {
    m.PositionInfo? ||
    (&& 0 <= id < |book| && book[id].o.ref == m.ref
     && (m.OrderInfo? && m.kind != Acc ==> book[id].fate.KillSeen?)
     && (m.FillInfo? ==> book[id].fate.FillSeen? && m.volume == book[id].o.size))
  }

  /** Every message is true, and the end of an order is told once. */
  ghost predicate Truthful(sent: seq<Info>, about: seq<int>, book: seq<Entry>) {
    && |about| == |sent| && (forall k :: 0 <= k < |sent| ==> TellsTruth(sent[k], about[k], book))
    && forall j, k :: 0 <= j < k < |sent| && Final(sent[j]) && Final(sent[k]) ==> about[j] != about[k]
  }

  /** Entries stay, and those of ended orders do not change. */
  ghost predicate Settles(book: seq<Entry>, book': seq<Entry>) {
    |book| <= |book'| && forall id :: 0 <= id < |book| ==>
      book'[id].o == book[id].o && (book[id].fate.KillSeen? || book[id].fate.FillSeen? ==> book'[id] == book[id])
  }

  lemma AfterSettles(s: Sys, me: Login, c: Call)
    requires Fair(s, me, c)
    ensures Settles(s.book, After(s, me, c).book)
  {
  }

  lemma StaysTruthful(sent: seq<Info>, about: seq<int>, book: seq<Entry>, book': seq<Entry>)
    requires Truthful(sent, about, book) && Settles(book, book')
    ensures Truthful(sent, about, book')
  {
    forall k | 0 <= k < |sent|
      ensures TellsTruth(sent[k], about[k], book')
    {
      assert TellsTruth(sent[k], about[k], book);
    }
  }

  lemma StaysTruthfulAfter(s: Sys, me: Login, c: Call, sent: seq<Info>, about: seq<int>)
    requires Fair(s, me, c) && Truthful(sent, about, s.book)
    ensures Truthful(sent, about, After(s, me, c).book)
  {
    AfterSettles(s, me, c);
    StaysTruthful(sent, about, s.book, After(s, me, c).book);
  }

  /** One more message, about an order that had not ended if the message ends it. */
  lemma OneMoreTruth(
      sent: seq<Info>, about: seq<int>, book: seq<Entry>, id: int, book': seq<Entry>, sent': seq<Info>)
    requires Truthful(sent, about, book) && Settles(book, book')
    requires |sent'| == |sent| + 1 && sent'[..|sent|] == sent && TellsTruth(sent'[|sent|], id, book')
    requires Final(sent'[|sent|]) ==> 0 <= id < |book| && book[id].fate == Live
    ensures Truthful(sent', about + [id], book')
  {
    StaysTruthful(sent, about, book, book');
    var all := about + [id];
    assert forall k :: 0 <= k < |sent| ==> sent'[k] == sent[k] && all[k] == about[k];
    forall j, k | 0 <= j < k < |sent'| && Final(sent'[j]) && Final(sent'[k])
      ensures all[j] != all[k]
    {
      assert TellsTruth(sent[j], about[j], book);
    }
  }

  /** The orders whose end by rejection or cancel the strategy was told. */
  function Ends(sent: seq<Info>, about: seq<int>): set<int>
    requires |about| == |sent|
  {
    set k | 0 <= k < |sent| && sent[k].OrderInfo? && sent[k].kind != Acc :: about[k]
  }

  /** The call reports the end of an order by a submission that the listener acts on, and its id is known. */
  ghost predicate HeardEnd(s: Sys, me: Login, c: Call) {
    && c.Reported? && Mine(me, c.r) && IsMapped(s.tm, c.r.id)
    && (c.r.submission == InsertRejected
        || (c.r.status == Canceled && (c.r.submission == Accepted || c.r.submission == InsertSubmitted)))
  }

  /** The orders that a sequence of calls ends in that way. */
  ghost function HeardEnds(s: Sys, me: Login, calls: seq<Call>): set<int>
    requires FairAll(s, me, calls)
    decreases |calls|
  {
    if calls == [] then {}
    else (if HeardEnd(s, me, calls[0]) then {calls[0].r.id} else {}) + HeardEnds(After(s, me, calls[0]), me, calls[1..])
  }

  lemma EndsGrow(sent: seq<Info>, about: seq<int>, m: Info, id: int)
    requires |about| == |sent|
    ensures Ends(sent + [m], about + [id]) == Ends(sent, about) + if m.OrderInfo? && m.kind != Acc then {id} else {}
  {
    var sent', about' := sent + [m], about + [id];
    forall x | x in Ends(sent, about)
      ensures x in Ends(sent', about')
    {
      var k :| 0 <= k < |sent| && sent[k].OrderInfo? && sent[k].kind != Acc && about[k] == x;
      assert sent'[k] == sent[k] && about'[k] == x;
    }
    if m.OrderInfo? && m.kind != Acc {
      assert sent'[|sent|] == m && about'[|sent|] == id;
    }
  }

  lemma ReportTruth(
      s: Sys, me: Login, c: Call, sent: seq<Info>, about: seq<int>, sent': seq<Info>) returns (about': seq<int>)
    requires Sound(s) && s.cb == CbIdle && s.pc == Idle && Fair(s, me, c) && c.Reported?
    requires Truthful(sent, about, s.book)
    requires if Mine(me, c.r) then Tells(s.tm, c.r, c.czce, sent, sent') else sent' == sent
    ensures Truthful(sent', about', After(s, me, c).book)
    ensures Ends(sent', about') == Ends(sent, about) + if HeardEnd(s, me, c) then {c.r.id} else {}
  {
    AfterSettles(s, me, c);
    if sent' == sent {
      about' := about;
      StaysTruthful(sent, about, s.book, After(s, me, c).book);
    } else {
      var id, m := c.r.id, sent'[|sent|];
      assert EntryOk(s, id);
      about' := about + [id];
      OneMoreTruth(sent, about, s.book, id, After(s, me, c).book, sent');
      EndsGrow(sent, about, m, id);
      assert sent' == sent + [m];
    }
  }

  /** What the tokens must be after a trade, for an order that the maps know. */
  lemma TradeCounts(s: Sys, me: Login, trade: TradeReport)
    requires Sound(s) && Fair(s, me, Traded(trade))
    ensures trade.id in s.tm.orders && -1 !in s.tm.idMap
    ensures After(s, me, Traded(trade)).initialized == s.initialized
    ensures After(s, me, Traded(trade)).tm ==
      if trade.direction != Uninited && IsMapped(s.tm, trade.id) then Filled(s.tm, s.tm.orders[trade.id]) else s.tm
  {
    assert EntryOk(s, trade.id);
  }

  lemma TradeTruth(
      s: Sys, me: Login, c: Call, sent: seq<Info>, about: seq<int>, sent': seq<Info>) returns (about': seq<int>)
    requires Sound(s) && s.cb == CbIdle && s.pc == Idle && Fair(s, me, c) && c.Traded?
    requires Truthful(sent, about, s.book)
    requires
      if c.trade.direction == Uninited || !IsMapped(s.tm, c.trade.id) then sent' == sent
      else
        && |sent'| == |sent| + 1 && sent'[..|sent|] == sent
        && var m := sent'[|sent|];
        && m.FillInfo? && m.volume == c.trade.volume && m.ref in s.tm.idMap && s.tm.idMap[m.ref] == c.trade.id
    ensures Truthful(sent', about', After(s, me, c).book) && Ends(sent', about') == Ends(sent, about)
  {
    AfterSettles(s, me, c);
    if sent' == sent {
      about' := about;
      StaysTruthful(sent, about, s.book, After(s, me, c).book);
    } else {
      var id, m := c.trade.id, sent'[|sent|];
      assert EntryOk(s, id);
      about' := about + [id];
      OneMoreTruth(sent, about, s.book, id, After(s, me, c).book, sent');
      EndsGrow(sent, about, m, id);
      assert sent' == sent + [m];
    }
  }

  lemma {:induction false} PositionTruth(
      sent: seq<Info>, about: seq<int>, more: seq<Info>, book: seq<Entry>) returns (about': seq<int>)
    requires Truthful(sent, about, book) && forall m :: m in more ==> m.PositionInfo?
    ensures Truthful(sent + more, about', book) && Ends(sent + more, about') == Ends(sent, about)
    decreases |more|
  {
    if more == [] {
      about' := about;
      assert sent + more == sent;
    } else {
      OneMoreTruth(sent, about, book, -1, book, sent + [more[0]]);
      EndsGrow(sent, about, more[0], -1);
      about' := PositionTruth(sent + [more[0]], about + [-1], more[1..], book);
      assert sent + [more[0]] + more[1..] == sent + more;
    }
  }

  /** The three objects on the same tokens, with the history of the orders and a run that led to it. */
  class Desk {
    const tokens: TokenManager
    const sender: MessageSender
    const listener: Listener
    ghost var run: seq<Event>
    ghost var sys: Sys
    /** The order that each message of the listener is about. */
    ghost var about: seq<int>

    /** The tokens are those of the history, and a request goes out as a close just when tokens were taken.
        What the strategy was told is true. */
    ghost predicate Valid()
      reads this, tokens, sender, listener
    {
      && sender.tokens == tokens && listener.tokens == tokens
      && AtRest(run, sys) && tokens.View() == sys.tm && listener.initialized == sys.initialized
      && (forall k :: 0 <= k < |sender.sent| ==> InHistory(sender.sent[k].0, sys.book))
      && Truthful(listener.sent, about, sys.book)
    }

    /** The orders whose end by rejection or cancel the strategy was told. */
    ghost function Told(): set<int>
      requires |about| == |listener.sent|
      reads this, listener
    {
      Ends(listener.sent, about)
    }

    function Me(): Login
      reads listener
    {
      Login(listener.front, listener.session)
    }

    constructor (front: int, session: int)
      ensures Valid() && fresh(tokens) && fresh(sender) && fresh(listener)
      ensures sys == NEW_SYS && Me() == Login(front, session) && Told() == {}
    {
      var t := new TokenManager();
      tokens := t;
      sender := new MessageSender(t);
      listener := new Listener(t);
      run, sys, about := [], NEW_SYS, [];
      new;
      listener.OnRspUserLogin(true, front, session);
    }

    method Order(o: Order, action: Action, accepted: int -> bool) returns (ok: bool)
      requires Valid() && Fair(sys, Me(), Ordered(o, action, accepted))
      modifies this, tokens, sender
      ensures Valid() && sys == After(old(sys), old(Me()), Ordered(o, action, accepted)) && Told() == old(Told())
    {
      RestIsSound(run, sys);
      assert o.ref in sys.tm.idMap ==> EntryOk(sys, sys.tm.idMap[o.ref]);
      ghost var run' := CallIsRun(run, sys, Me(), Ordered(o, action, accepted));
      StaysTruthfulAfter(sys, Me(), Ordered(o, action, accepted), listener.sent, about);
      ok := sender.Handle(o, action, accepted);
      run, sys := run', After(sys, Me(), Ordered(o, action, accepted));
    }

    /** The callback, as far as tokens and messages go. */
    method Hear(r: OrderReport, czce: bool)
      requires listener.tokens == tokens && (Mine(Me(), r) ==> r.id in tokens.orderMap) && -1 !in tokens.orderIdMap
      modifies tokens, listener
      ensures Me() == old(Me()) && listener.initialized == old(listener.initialized)
      ensures tokens.View() ==
        if Mine(Me(), r) && IsMapped(old(tokens.View()), r.id) && Credits(r.submission, r.status)
        then Cancelled(old(tokens.View()), old(tokens.orderMap[r.id])) else old(tokens.View())
      ensures if Mine(Me(), r) then Tells(old(tokens.View()), r, czce, old(listener.sent), listener.sent)
              else listener.sent == old(listener.sent)
    {
      listener.OnRtnOrder(r, czce);
    }

    method Report(r: OrderReport, czce: bool)
      requires Valid() && Fair(sys, Me(), Reported(r, czce))
      modifies this, tokens, listener
      ensures Valid() && Me() == old(Me()) && sys == After(old(sys), old(Me()), Reported(r, czce))
      ensures Told() == old(Told()) + if HeardEnd(old(sys), old(Me()), Reported(r, czce)) then {r.id} else {}
    {
      RestIsSound(run, sys);
      assert Mine(Me(), r) ==> EntryOk(sys, r.id);
      ghost var run' := CallIsRun(run, sys, Me(), Reported(r, czce));
      ghost var sent := listener.sent;
      Hear(r, czce);
      about := ReportTruth(sys, Me(), Reported(r, czce), sent, about, listener.sent);
      run, sys := run', After(sys, Me(), Reported(r, czce));
    }

    method Trade(trade: TradeReport)
      requires Valid() && Fair(sys, Me(), Traded(trade))
      modifies this, tokens, listener
      ensures Valid() && Me() == old(Me()) && sys == After(old(sys), old(Me()), Traded(trade)) && Told() == old(Told())
    {
      RestIsSound(run, sys);
      TradeCounts(sys, Me(), trade);
      ghost var run' := CallIsRun(run, sys, Me(), Traded(trade));
      ghost var sent := listener.sent;
      listener.OnRtnTrade(trade);
      about := TradeTruth(sys, Me(), Traded(trade), sent, about, listener.sent);
      run, sys := run', After(sys, Me(), Traded(trade));
    }

    method HoldPosition(position: Option<Position>, isError: bool, isLast: bool)
      requires Valid() && Fair(sys, Me(), Positioned(position, isError, isLast))
      modifies this, tokens, listener
      ensures Valid() && Me() == old(Me()) && sys == After(old(sys), old(Me()), Positioned(position, isError, isLast))
      ensures Told() == old(Told())
    {
      ghost var run' := CallIsRun(run, sys, Me(), Positioned(position, isError, isLast));
      ghost var sent := listener.sent;
      listener.OnRspQryInvestorPosition(position, isError, isLast);
      assert listener.sent == sent + listener.sent[|sent|..];
      about := PositionTruth(sent, about, listener.sent[|sent|..], sys.book);
      run, sys := run', After(sys, Me(), Positioned(position, isError, isLast));
    }

    method Take(c: Call)
      requires Valid() && Fair(sys, Me(), c)
      modifies this, tokens, sender, listener
      ensures Valid() && Me() == old(Me()) && sys == After(old(sys), old(Me()), c)
      ensures Told() == old(Told()) + if HeardEnd(old(sys), old(Me()), c) then {c.r.id} else {}
    {
      match c
      case Ordered(o, action, accepted) => var _ := Order(o, action, accepted);
      case Reported(r, czce) => Report(r, czce);
      case Traded(trade) => Trade(trade);
      case Positioned(position, isError, isLast) => HoldPosition(position, isError, isLast);
    }

    /** Any sequence of calls on the objects is a run of the ledger; and the strategy is told that an order was
        rejected or cancelled for exactly those that the calls end where the listener hears and acts on it. */
    method Replay(calls: seq<Call>)
      requires Valid() && FairAll(sys, Me(), calls)
      modifies this, tokens, sender, listener
      ensures Valid() && sys == AfterAll(old(sys), old(Me()), calls)
      ensures Told() == old(Told()) + HeardEnds(old(sys), old(Me()), calls)
    {
      for i := 0 to |calls|
        invariant Valid() && Me() == old(Me()) && FairAll(sys, Me(), calls[i..])
        invariant Told() + HeardEnds(sys, Me(), calls[i..]) == old(Told()) + HeardEnds(old(sys), old(Me()), calls)
        invariant AfterAll(sys, Me(), calls[i..]) == AfterAll(old(sys), old(Me()), calls)
      {
        assert calls[i..][0] == calls[i] && calls[i..][1..] == calls[i + 1..];
        Take(calls[i]);
      }
    }

    /** The orders that the strategy was told are rejected or cancelled are dead in the ledger, and a message
        of a fill is about one that was filled. */
    lemma ToldAreOver(k: nat)
      requires Valid() && k < |listener.sent| && Final(listener.sent[k])
      ensures 0 <= about[k] < |sys.book| && sys.book[about[k]].o.ref == listener.sent[k].ref
      ensures if listener.sent[k].FillInfo? then sys.book[about[k]].fate.FillSeen? else sys.book[about[k]].fate.KillSeen?
    {
      assert TellsTruth(listener.sent[k], about[k], sys.book);
    }

    /** What the objects hold never overdraws the position. */
    lemma Covers(side: Side, c: string)
      requires Valid() && side != Uninited
      ensures 0 <= Token(tokens.View(), side, c)
      ensures Token(tokens.View(), side, c) + CloseOrders(sys, side, c) + TokensWithheld(sys, side, c)
           == PositionHeld(sys, side, c)
      ensures 0 <= CloseOrders(sys, side, c) <= PositionHeld(sys, side, c)
    {
      SafeRestarts(run, side, c);
    }
  }

  predicate InHistory(r: Request, book: seq<Entry>) {
    r.Insert? ==> 0 <= r.id < |book| && book[r.id].o == r.order && (r.offset == CloseToday <==> book[r.id].taken)
  }
}
