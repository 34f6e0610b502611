/** The close-token ledger of src/simtrade/ctporder: TokenManager, driven by MessageSender on the
    order thread and by the Listener callbacks on another thread. A close token is the right to
    close one lot of a held position; an order is sent as a close only when tokens cover it. */
module TokenLedger {
  datatype Side = Uninited | Buy | Sell

  datatype Order = Order(contract: string, size: int, side: Side, ref: int)

  function Other(s: Side): Side { if s == Buy then Sell else Buy }

  // ----- TokenManager as a value -----

  /** `buy` covers closing buys, `sell` closing sells. */
  datatype Tm = Tm(
    buy: map<string, int>, sell: map<string, int>,
    idMap: map<int, int>, orders: map<int, Order>, isClose: map<int, bool>, next: int)

  function Get(m: map<string, int>, c: string): int { if c in m then m[c] else 0 }

  predicate Closes(m: map<int, bool>, id: int) { id in m && m[id] }

  function Token(tm: Tm, s: Side, c: string): int { if s == Buy then Get(tm.buy, c) else Get(tm.sell, c) }

  function Give(tm: Tm, s: Side, c: string, n: int): Tm {
    if s == Buy then tm.(buy := tm.buy[c := Get(tm.buy, c) + n]) else tm.(sell := tm.sell[c := Get(tm.sell, c) + n])
  }

  const NEW_TM := Tm(map[], map[], map[], map[], map[], 0)

  function Register(tm: Tm, o: Order): Tm {
    var ids := if o.ref == 0 then map[] else tm.idMap;
    tm.(orders := tm.orders[tm.next := o], idMap := ids[o.ref := tm.next], next := tm.next + 1)
  }

  function CtpId(tm: Tm, ref: int): int { if ref in tm.idMap then tm.idMap[ref] else -1 }

  predicate IsMapped(tm: Tm, id: int) { exists ref :: ref in tm.idMap && tm.idMap[ref] == id }

  /** What CheckOffset answers; `Exit` is the end of the process on an order without a side. */
  datatype Offset = Open | CloseToday | Exit

  /** CheckOffset without interference: the new state and the answer. */
  function Check(tm: Tm, o: Order): (Tm, Offset) {
    if o.side == Uninited then (tm, Exit)
    else if Token(tm, o.side, o.contract) < o.size then (tm, Open)
    else (Mark(Give(tm, o.side, o.contract, -o.size), CtpId(tm, o.ref)), CloseToday)
  }

  function Mark(tm: Tm, id: int): Tm { tm.(isClose := tm.isClose[id := true]) }

  /** A filled open order gives tokens to close it with the other side. */
  function Filled(tm: Tm, o: Order): Tm {
    if o.side != Uninited && !Closes(tm.isClose, CtpId(tm, o.ref)) then Give(tm, Other(o.side), o.contract, o.size) else tm
  }

  /** A cancelled close order gives back what it took. */
  function Cancelled(tm: Tm, o: Order): Tm {
    if o.side != Uninited && Closes(tm.isClose, CtpId(tm, o.ref)) then Give(tm, o.side, o.contract, o.size) else tm
  }

  /** The id map names issued ids, under the reference of the order issued with them. */
  ghost predicate IdsOk(tm: Tm) {
    && (forall id :: id in tm.orders <==> 0 <= id < tm.next)
    && forall ref :: ref in tm.idMap ==> 0 <= tm.idMap[ref] < tm.next && tm.orders[tm.idMap[ref]].ref == ref
  }

  /** Registration keeps the maps consistent, also when a reference is used again or starts over. */
  lemma RegisterKeepsIds(tm: Tm, o: Order)
    requires IdsOk(tm) && tm.next >= 0
    ensures IdsOk(Register(tm, o)) && CtpId(Register(tm, o), o.ref) == tm.next
  {
  }

  /** Looking an order up by its reference and back by its id comes to the same order. */
  lemma IdsRoundTrip(tm: Tm, ref: int)
    requires IdsOk(tm) && ref in tm.idMap
    ensures tm.orders[CtpId(tm, ref)].ref == ref
    ensures forall r :: r in tm.idMap && tm.idMap[r] == CtpId(tm, ref) ==> r == ref
  {
  }

  // ----- The system: order thread, exchange and callback thread -----

  /** What became of an order: not sent, its insert refused, live, filled or killed with the callback
      still to come, or with the callback done. A kill is credited unless it is reported while the insert
      is still only submitted. `settled`: no tokens are owed for the order any more. */
  datatype Fate =
    Unsent | Refused | Live | FillDue | KillDue(credited: bool) | FillSeen(settled: bool) | KillSeen(settled: bool)

  /** One entry for each issued id. `taken`: CheckOffset took tokens for it. */
  datatype Entry = Entry(o: Order, taken: bool, fate: Fate)

  /** Where the order thread is in NewOrder, for the order with the latest id. */
  datatype Pc = Idle | Registered | Tested | Reserved | Ready

  /** Where the callback thread is in OnRtnTrade or OnRtnOrder. */
  datatype Cb = CbIdle | Found(id: nat, filled: bool) | Crediting(id: nat, filled: bool)

  datatype Sys = Sys(
    tm: Tm, book: seq<Entry>, pc: Pc, cb: Cb,
    startBuy: map<string, int>, startSell: map<string, int>, initialized: bool)

  function Start(s: Sys, side: Side, c: string): int {
    if side == Buy then Get(s.startBuy, c) else Get(s.startSell, c)
  }

  const NEW_SYS := Sys(NEW_TM, [], Idle, CbIdle, map[], map[], false)

  datatype Event =
    | Begin(o: Order) | Test | Reserve | SetClose | Send(ok: bool) | Elsewhere
    | Trade(id: nat) | Kill(id: nat, credited: bool)
    | Notice(id: nat) | Decide | Credit
    | Position(contract: string, num: int, held: Side) | PositionEnd

  predicate OrderThread(e: Event) {
    e.Begin? || e.Test? || e.Reserve? || e.SetClose? || e.Send? || e.Elsewhere?
  }

  predicate Can(s: Sys, e: Event) {
    var n := |s.book| - 1;
    match e
    case Begin(o) => s.pc == Idle && o.size > 0 && o.ref != -1
    case Test => s.pc == Registered && n >= 0
    case Reserve => s.pc == Tested && n >= 0
    case SetClose => s.pc == Reserved && n >= 0
    case Send(_) => s.pc == Ready && n >= 0
    case Elsewhere => s.pc == Idle
    case Trade(id) => id <= n && s.book[id].fate == Live
    case Kill(id, _) => id <= n && s.book[id].fate == Live
    case Notice(id) => id <= n && s.cb == CbIdle && (s.book[id].fate == FillDue || s.book[id].fate.KillDue?)
    case Decide => s.cb.Found? && s.cb.id <= n
    case Credit => s.cb.Crediting? && s.cb.id <= n
    case Position(_, num, held) => !s.initialized && s.cb == CbIdle && num >= 0 && held != Uninited
    case PositionEnd => s.cb == CbIdle
  }

  function WithFate(s: Sys, id: nat, f: Fate): Sys
    requires id < |s.book|
  {
    s.(book := s.book[id := s.book[id].(fate := f)])
  }

  /** After a callback that credits nothing: an opening fill and a killed close are still owed theirs. */
  function Passed(e: Entry): Fate { if e.fate == FillDue then FillSeen(e.taken) else KillSeen(!e.taken) }

  function Credited(e: Entry): Fate { if e.fate == FillDue then FillSeen(true) else KillSeen(true) }

  /** The close mark that the callback finds for the order it has in hand. */
  predicate MarkFound(s: Sys)
    requires s.cb != CbIdle && s.cb.id < |s.book|
  {
    Closes(s.tm.isClose, CtpId(s.tm, s.book[s.cb.id].o.ref))
  }

  function CreditSide(s: Sys): Side
    requires s.cb != CbIdle && s.cb.id < |s.book|
  {
    if s.cb.filled then Other(s.book[s.cb.id].o.side) else s.book[s.cb.id].o.side
  }

  /** A position held at startup can be closed by the other side. */
  function WithPosition(s: Sys, c: string, num: int, held: Side): Sys {
    var s' := s.(tm := Give(s.tm, Other(held), c, num));
    if held == Sell then s'.(startBuy := s.startBuy[c := Get(s.startBuy, c) + num])
    else s'.(startSell := s.startSell[c := Get(s.startSell, c) + num])
  }

  function Do(s: Sys, e: Event): Sys
    requires Can(s, e)
  {
    var n := |s.book| - 1;
    match e
    case Begin(o) => s.(tm := Register(s.tm, o), book := s.book + [Entry(o, false, Unsent)], pc := Registered)
    case Test =>
      // the test reads the tokens outside the lock
      var o := s.book[n].o;
      if o.side == Uninited then s.(pc := Idle)
      else s.(pc := if Token(s.tm, o.side, o.contract) < o.size then Ready else Tested)
    case Reserve =>
      var o := s.book[n].o;
      s.(tm := Give(s.tm, o.side, o.contract, -o.size), book := s.book[n := s.book[n].(taken := true)], pc := Reserved)
    case SetClose => s.(tm := Mark(s.tm, CtpId(s.tm, s.book[n].o.ref)), pc := Ready)
    case Send(ok) => WithFate(s, n, if ok then Live else Refused).(pc := Idle)
    case Elsewhere => s
    case Trade(id) => WithFate(s, id, FillDue)
    case Kill(id, credited) => WithFate(s, id, KillDue(credited))
    case Notice(id) =>
      if !IsMapped(s.tm, id) || s.book[id].fate == KillDue(false) then WithFate(s, id, Passed(s.book[id]))
      else s.(cb := Found(id, s.book[id].fate == FillDue))
    case Decide =>
      if s.cb.filled != MarkFound(s) then s.(cb := Crediting(s.cb.id, s.cb.filled))
      else WithFate(s, s.cb.id, Passed(s.book[s.cb.id])).(cb := CbIdle)
    case Credit =>
      var o := s.book[s.cb.id].o;
      WithFate(s.(tm := Give(s.tm, CreditSide(s), o.contract, o.size)), s.cb.id, Credited(s.book[s.cb.id])).(cb := CbIdle)
    case Position(c, num, held) => WithPosition(s, c, num, held)
    case PositionEnd => s.(initialized := true)
  }

  /** Every event of the list is possible when it comes. */
  predicate CanAll(s: Sys, es: seq<Event>)
    decreases |es|
  {
    es == [] || (Can(s, es[0]) && CanAll(Do(s, es[0]), es[1..]))
  }

  function DoAll(s: Sys, es: seq<Event>): Sys
    requires CanAll(s, es)
    decreases |es|
  {
    if es == [] then s else DoAll(Do(s, es[0]), es[1..])
  }

  predicate Each(s: Sys, es: seq<Event>, p: (Sys, Event) -> bool)
    requires CanAll(s, es)
    decreases |es|
  {
    es == [] || (p(s, es[0]) && Each(Do(s, es[0]), es[1..], p))
  }

  /** The credit is owed: not for a filled close, nor for a killed opening order. */
  predicate Right(s: Sys, e: Event) {
    e == Credit && s.cb.Crediting? && s.cb.id < |s.book| ==> s.cb.filled != s.book[s.cb.id].taken
  }

  /** No registration cuts off the order that the callback has found and is about to look up. */
  predicate Safe(s: Sys, e: Event) {
    e.Begin? && s.cb.Found? && s.cb.id < |s.book| ==> e.o.ref != 0 && e.o.ref != s.book[s.cb.id].o.ref
  }

  /** No strategy restart: a reference is new, and reference 0 comes first. */
  predicate Fresh(s: Sys, e: Event) {
    e.Begin? ==> e.o.ref !in s.tm.idMap && (e.o.ref == 0 ==> s.book == [])
  }

  // ----- What the tokens count -----

  /** What an order has added to the tokens for closing with the given side. */
  function Share(e: Entry, side: Side, c: string): int {
    if e.o.contract != c then 0
    else if e.o.side == Other(side) && !e.taken && e.fate == FillSeen(true) then e.o.size
    else if e.o.side == side && e.taken && e.fate != KillSeen(true) then -e.o.size
    else 0
  }

  /** What an order has added to the position that closes with the given side: lots opened by
      the other side, minus lots closed. Fills count when they happen, not when they are seen. */
  function Held(e: Entry, side: Side, c: string): int {
    if e.o.contract != c || (e.fate != FillDue && !e.fate.FillSeen?) then 0
    else if e.o.side == Other(side) && !e.taken then e.o.size
    else if e.o.side == side && e.taken then -e.o.size
    else 0
  }

  /** The size of a close order that may still be filled: live, or in the hands of the order thread. */
  function Pending(e: Entry, side: Side, c: string): int {
    if e.o.contract == c && e.o.side == side && e.taken && (e.fate == Unsent || e.fate == Live) then e.o.size else 0
  }

  /** Lots that could be closed but have no token: an opening fill or a killed close whose credit is
      still to come or never comes, or a close whose insert was refused. */
  function Withheld(e: Entry, side: Side, c: string): int {
    if e.o.contract != c then 0
    else if e.o.side == Other(side) && !e.taken && (e.fate == FillDue || e.fate == FillSeen(false)) then e.o.size
    else if e.o.side == side && e.taken && (e.fate.KillDue? || e.fate == KillSeen(false) || e.fate == Refused) then e.o.size
    else 0
  }

  function Total(book: seq<Entry>, f: Entry -> int): int {
    if book == [] then 0 else Total(book[..|book| - 1], f) + f(book[|book| - 1])
  }

  lemma {:induction false} TotalUpdate(book: seq<Entry>, i: nat, e: Entry, f: Entry -> int)
    requires i < |book|
    ensures Total(book[i := e], f) == Total(book, f) - f(book[i]) + f(e)
  {
    var n := |book| - 1;
    if i == n {
      assert book[i := e][..n] == book[..n];
    } else {
      assert book[i := e][..n] == book[..n][i := e];
      TotalUpdate(book[..n], i, e, f);
    }
  }

  function ShareOf(side: Side, c: string): Entry -> int { (e: Entry) => Share(e, side, c) }

  function HeldOf(side: Side, c: string): Entry -> int { (e: Entry) => Held(e, side, c) }

  function PendingOf(side: Side, c: string): Entry -> int { (e: Entry) => Pending(e, side, c) }

  function WithheldOf(side: Side, c: string): Entry -> int { (e: Entry) => Withheld(e, side, c) }

  function TokensDue(s: Sys, side: Side, c: string): int { Start(s, side, c) + Total(s.book, ShareOf(side, c)) }

  /** The lots that an order of the given side can close: held at startup, opened since, not closed. */
  function PositionHeld(s: Sys, side: Side, c: string): int { Start(s, side, c) + Total(s.book, HeldOf(side, c)) }

  function CloseOrders(s: Sys, side: Side, c: string): int { Total(s.book, PendingOf(side, c)) }

  function TokensWithheld(s: Sys, side: Side, c: string): int { Total(s.book, WithheldOf(side, c)) }

  predicate Sized(book: seq<Entry>) { forall i :: 0 <= i < |book| ==> book[i].o.size > 0 }

  lemma {:induction false} BookBalance(book: seq<Entry>, side: Side, c: string)
    requires side != Uninited && Sized(book)
    ensures Total(book, HeldOf(side, c))
         == Total(book, ShareOf(side, c)) + Total(book, PendingOf(side, c)) + Total(book, WithheldOf(side, c))
    ensures Total(book, PendingOf(side, c)) >= 0 && Total(book, WithheldOf(side, c)) >= 0
  {
    if book != [] {
      var n := |book| - 1;
      BookBalance(book[..n], side, c);
      assert Held(book[n], side, c) == Share(book[n], side, c) + Pending(book[n], side, c) + Withheld(book[n], side, c);
    }
  }

  /** Withheld for good, though no callback was dropped: the close died uncredited or was refused. */
  function Lost(e: Entry, side: Side, c: string): int {
    if e.o.contract == c && e.o.side == side && e.taken && (e.fate == KillSeen(false) || e.fate == Refused) then e.o.size
    else 0
  }

  function LostOf(side: Side, c: string): Entry -> int { (e: Entry) => Lost(e, side, c) }

  function TokensLost(s: Sys, side: Side, c: string): int { Total(s.book, LostOf(side, c)) }

  lemma {:induction false} TotalsAgree(book: seq<Entry>, f: Entry -> int, h: Entry -> int)
    requires forall i :: 0 <= i < |book| ==> f(book[i]) == h(book[i])
    ensures Total(book, f) == Total(book, h)
  {
    if book != [] {
      TotalsAgree(book[..|book| - 1], f, h);
    }
  }

  /** No tokens are owed for the order, nor were any lost with it. */
  predicate Settled(e: Entry) {
    match e.fate
    case Unsent => true
    case Live => true
    case Refused => !e.taken
    case FillSeen(settled) => settled
    case KillSeen(settled) => settled
    case _ => false
  }

  lemma {:induction false} NothingWithheld(book: seq<Entry>, side: Side, c: string)
    requires forall i :: 0 <= i < |book| ==> Settled(book[i])
    ensures Total(book, WithheldOf(side, c)) == 0
  {
    if book != [] {
      NothingWithheld(book[..|book| - 1], side, c);
    }
  }

  /** For closing with the given side, the tokens are what the history of the orders says. */
  ghost predicate Balanced(s: Sys) {
    forall side, c :: side != Uninited ==>
      Token(s.tm, side, c) + CloseOrders(s, side, c) + TokensWithheld(s, side, c) == PositionHeld(s, side, c)
  }

  /** The same, with one number for each order. */
  ghost predicate Due(s: Sys) {
    forall side, c :: side != Uninited ==> Token(s.tm, side, c) == TokensDue(s, side, c)
  }

  lemma BalancedIffDue(s: Sys)
    requires Sized(s.book)
    ensures Balanced(s) <==> Due(s)
  {
    forall side, c | side != Uninited
      ensures Token(s.tm, side, c) + CloseOrders(s, side, c) + TokensWithheld(s, side, c) == PositionHeld(s, side, c)
         <==> Token(s.tm, side, c) == TokensDue(s, side, c)
    {
      BookBalance(s.book, side, c);
    }
  }

  // ----- No token count is ever negative -----

  lemma GiveAdds(tm: Tm, to: Side, contract: string, n: int, side: Side, c: string)
    requires to != Uninited && side != Uninited
    ensures Token(Give(tm, to, contract, n), side, c) == Token(tm, side, c) + if side == to && c == contract then n else 0
  {
  }

  lemma GiveNever(tm: Tm, to: Side, contract: string, n: int, side: Side, c: string)
    requires n >= 0
    ensures Token(Give(tm, to, contract, n), side, c) >= Token(tm, side, c)
  {
  }

  /** Tokens found sufficient by the test stay so until they are taken. */
  ghost predicate Covered(s: Sys) {
    && Sized(s.book)
    && (forall side, c :: side != Uninited ==> Token(s.tm, side, c) >= 0)
    && (s.pc == Tested ==> s.book != [] && Enough(s.tm, s.book[|s.book| - 1].o))
  }

  predicate Enough(tm: Tm, o: Order) { o.side != Uninited && Token(tm, o.side, o.contract) >= o.size }

  /** Off the order thread, tokens are only added. */
  lemma CallbackAdds(s: Sys, e: Event, s': Sys, side: Side, c: string)
    requires Sized(s.book) && Can(s, e) && !OrderThread(e) && s' == Do(s, e)
    ensures Token(s'.tm, side, c) >= Token(s.tm, side, c)
    ensures s'.pc == s.pc && |s'.book| == |s.book| && Sized(s'.book)
    ensures s.book != [] ==> s'.book[|s.book| - 1].o == s.book[|s.book| - 1].o
  {
    match e
    case Credit => GiveNever(s.tm, CreditSide(s), s.book[s.cb.id].o.contract, s.book[s.cb.id].o.size, side, c);
    case Position(contract, num, held) => GiveNever(s.tm, Other(held), contract, num, side, c);
    case _ =>
  }

  lemma CallbackKeepsCovered(s: Sys, e: Event, s': Sys)
    requires Covered(s) && Can(s, e) && !OrderThread(e) && s' == Do(s, e)
    ensures Covered(s')
  {
    CallbackAdds(s, e, s', Buy, "");
    forall side, c
      ensures Token(s'.tm, side, c) >= Token(s.tm, side, c)
    {
      CallbackAdds(s, e, s', side, c);
    }
  }

  lemma ReserveKeepsCovered(s: Sys, s': Sys)
    requires Covered(s) && Can(s, Reserve) && s' == Do(s, Reserve)
    ensures Covered(s')
  {
    var o := s.book[|s.book| - 1].o;
    forall side, c | side != Uninited
      ensures Token(s'.tm, side, c) >= 0
    {
      GiveAdds(s.tm, o.side, o.contract, -o.size, side, c);
    }
  }

  lemma StepKeepsCovered(s: Sys, e: Event, s': Sys)
    requires Covered(s) && Can(s, e) && s' == Do(s, e)
    ensures Covered(s')
  {
    if !OrderThread(e) {
      CallbackKeepsCovered(s, e, s');
    } else if e == Reserve {
      ReserveKeepsCovered(s, s');
    } else {
      assert forall side, c :: Token(s'.tm, side, c) == Token(s.tm, side, c);
    }
  }

  lemma {:induction false} RunKeepsCovered(s: Sys, es: seq<Event>)
    requires Covered(s) && CanAll(s, es)
    ensures Covered(DoAll(s, es))
    decreases |es|
  {
    if es != [] {
      StepKeepsCovered(s, es[0], Do(s, es[0]));
      RunKeepsCovered(Do(s, es[0]), es[1..]);
    }
  }

  /** In every run, with or without a strategy restart. */
  lemma TokensNeverNegative(es: seq<Event>, side: Side, c: string)
    requires CanAll(NEW_SYS, es) && side != Uninited
    ensures Token(DoAll(NEW_SYS, es).tm, side, c) >= 0
  {
    RunKeepsCovered(NEW_SYS, es);
  }

  /** The test is made outside the lock: whatever the callback thread does before the tokens are
      taken, they still suffice then. */
  lemma {:induction false} TestHoldsUntilTaken(s: Sys, es: seq<Event>)
    requires Covered(s) && s.pc == Tested && CanAll(s, es) && forall i :: 0 <= i < |es| ==> !OrderThread(es[i])
    ensures var s' := DoAll(s, es); var o := s.book[|s.book| - 1].o;
      && Can(s', Reserve) && s'.book[|s'.book| - 1].o == o
      && Token(s'.tm, o.side, o.contract) >= o.size
      && Token(Do(s', Reserve).tm, o.side, o.contract) == Token(s'.tm, o.side, o.contract) - o.size
    decreases |es|
  {
    if es == [] {
      var o := s.book[|s.book| - 1].o;
      GiveAdds(s.tm, o.side, o.contract, -o.size, o.side, o.contract);
    } else {
      CallbackAdds(s, es[0], Do(s, es[0]), Buy, "");
      CallbackKeepsCovered(s, es[0], Do(s, es[0]));
      TestHoldsUntilTaken(Do(s, es[0]), es[1..]);
    }
  }

  // ----- What holds in every run -----

  /** The maps agree with the history, and the close mark with what was taken: it lags only
      between the taking and the marking of the order in hand. */
  ghost predicate EntryOk(s: Sys, id: nat)
    requires id < |s.book|
  {
    var e := s.book[id];
    && (e.taken || e.fate != Unsent ==> e.o.side != Uninited)
    && (e.taken && e.fate == Unsent ==> id == |s.book| - 1 && (s.pc == Reserved || s.pc == Ready))
    && id in s.tm.orders && s.tm.orders[id] == e.o
    && (Closes(s.tm.isClose, id) <==> e.taken && !(s.pc == Reserved && id == |s.book| - 1))
  }

  ghost predicate Recorded(s: Sys) {
    && s.tm.next == |s.book|
    && (forall id: nat :: id < |s.book| ==> EntryOk(s, id))
    && (forall id :: id in s.tm.isClose ==> 0 <= id < |s.book|)
    && (forall ref :: ref in s.tm.idMap ==> 0 <= s.tm.idMap[ref] < |s.book| && s.book[s.tm.idMap[ref]].o.ref == ref)
    && -1 !in s.tm.idMap
  }

  /** Where each thread is. The order in hand is not sent, so the callback thread works on another. */
  ghost predicate ThreadsOk(s: Sys) {
    && (s.pc != Idle ==> s.book != [] && OrderThreadOk(s, s.book[|s.book| - 1]))
    && (s.cb != CbIdle ==> s.cb.id < |s.book| && s.book[s.cb.id].fate == if s.cb.filled then FillDue else KillDue(true))
  }

  ghost predicate OrderThreadOk(s: Sys, last: Entry) {
    && last.fate == Unsent
    && CtpId(s.tm, last.o.ref) == |s.book| - 1
    && (s.pc == Registered || s.pc == Tested ==> !last.taken)
    && (s.pc == Reserved ==> last.taken)
    && (s.pc != Registered ==> last.o.side != Uninited)
  }

  ghost predicate Sound(s: Sys) { Covered(s) && Recorded(s) && ThreadsOk(s) }

  lemma QuietRecorded(s: Sys, s': Sys)
    requires Recorded(s) && |s'.book| == |s.book| && (s'.pc == Reserved <==> s.pc == Reserved)
    requires s.pc == Ready && s.book != [] ==> s'.pc == Ready || s'.book[|s.book| - 1].fate != Unsent
    requires s'.tm.orders == s.tm.orders && s'.tm.idMap == s.tm.idMap
    requires s'.tm.isClose == s.tm.isClose && s'.tm.next == s.tm.next
    requires forall i: nat :: i < |s.book| ==>
      && s'.book[i].o == s.book[i].o && s'.book[i].taken == s.book[i].taken
      && (s'.book[i].fate == s.book[i].fate || (s.book[i].o.side != Uninited && s'.book[i].fate != Unsent))
    ensures Recorded(s')
  {
    forall id: nat | id < |s'.book|
      ensures EntryOk(s', id)
    {
      assert EntryOk(s, id);
    }
  }

  lemma BeginRecorded(s: Sys, o: Order, s': Sys)
    requires Recorded(s) && s.pc == Idle && o.ref != -1
    requires s' == s.(tm := Register(s.tm, o), book := s.book + [Entry(o, false, Unsent)], pc := Registered)
    ensures Recorded(s')
  {
    forall id: nat | id < |s'.book|
      ensures EntryOk(s', id)
    {
      assert id < |s.book| ==> EntryOk(s, id);
    }
  }

  lemma TakeRecorded(s: Sys, tm': Tm, s': Sys)
    requires Recorded(s) && s.pc == Tested && s.book != [] && s.book[|s.book| - 1].o.side != Uninited
    requires !s.book[|s.book| - 1].taken
    requires tm'.orders == s.tm.orders && tm'.idMap == s.tm.idMap
    requires tm'.isClose == s.tm.isClose && tm'.next == s.tm.next
    requires var n := |s.book| - 1;
      s' == s.(tm := tm', book := s.book[n := s.book[n].(taken := true)], pc := Reserved)
    ensures Recorded(s')
  {
    forall id: nat | id < |s'.book|
      ensures EntryOk(s', id)
    {
      assert EntryOk(s, id);
    }
  }

  lemma MarkRecorded(s: Sys, s': Sys)
    requires Recorded(s) && s.pc == Reserved && s.book != [] && s.book[|s.book| - 1].taken
    requires s' == s.(tm := Mark(s.tm, |s.book| - 1), pc := Ready)
    ensures Recorded(s')
  {
    forall id: nat | id < |s'.book|
      ensures EntryOk(s', id)
    {
      assert EntryOk(s, id);
    }
  }

  lemma FateRecorded(s: Sys, id: nat, f: Fate, s': Sys)
    requires Recorded(s) && id < |s.book| && s.book[id].o.side != Uninited && f != Unsent
    requires s'.book == s.book[id := s.book[id].(fate := f)] && (s'.pc == Reserved <==> s.pc == Reserved)
    requires s.pc == Ready ==> s'.pc == Ready || id == |s.book| - 1
    requires s'.tm.orders == s.tm.orders && s'.tm.idMap == s.tm.idMap
    requires s'.tm.isClose == s.tm.isClose && s'.tm.next == s.tm.next
    ensures Recorded(s')
  {
    QuietRecorded(s, s');
  }

  lemma OrderThreadRecorded(s: Sys, e: Event, s': Sys)
    requires Recorded(s) && ThreadsOk(s) && Covered(s) && Can(s, e) && OrderThread(e) && s' == Do(s, e)
    ensures Recorded(s')
  {
    match e
    case Begin(o) => BeginRecorded(s, o, s');
    case Reserve => TakeRecorded(s, s'.tm, s');
    case SetClose => MarkRecorded(s, s');
    case Send(ok) => FateRecorded(s, |s.book| - 1, s'.book[|s.book| - 1].fate, s');
    case _ => QuietRecorded(s, s');
  }

  lemma NewsRecorded(s: Sys, e: Event, id: nat, s': Sys)
    requires Recorded(s) && Can(s, e) && s' == Do(s, e)
    requires (e.Trade? && e.id == id) || (e.Kill? && e.id == id) || (e.Notice? && e.id == id)
    ensures Recorded(s')
  {
    assert EntryOk(s, id);
    if s'.cb == s.cb {
      FateRecorded(s, id, s'.book[id].fate, s');
    } else {
      QuietRecorded(s, s');
    }
  }

  lemma HandledRecorded(s: Sys, e: Event, s': Sys)
    requires Recorded(s) && ThreadsOk(s) && Can(s, e) && s' == Do(s, e) && (e == Decide || e == Credit)
    ensures Recorded(s')
  {
    assert EntryOk(s, s.cb.id);
    if s'.cb == CbIdle {
      FateRecorded(s, s.cb.id, s'.book[s.cb.id].fate, s');
    } else {
      QuietRecorded(s, s');
    }
  }

  lemma CallbackRecorded(s: Sys, e: Event, s': Sys)
    requires Recorded(s) && ThreadsOk(s) && Can(s, e) && !OrderThread(e) && s' == Do(s, e)
    ensures Recorded(s')
  {
    match e
    case Trade(id) => NewsRecorded(s, e, id, s');
    case Kill(id, _) => NewsRecorded(s, e, id, s');
    case Notice(id) => NewsRecorded(s, e, id, s');
    case Position(_, _, _) => QuietRecorded(s, s');
    case PositionEnd => QuietRecorded(s, s');
    case _ => HandledRecorded(s, e, s');
  }

  lemma OrderThreadKept(s: Sys, e: Event, s': Sys)
    requires ThreadsOk(s) && Can(s, e) && OrderThread(e) && s' == Do(s, e)
    requires e == Reserve ==> s.book[|s.book| - 1].o.side != Uninited
    requires e.Begin? ==> s.tm.next == |s.book|
    ensures ThreadsOk(s')
  {
    match e
    case Begin(o) => assert s'.book[|s.book|] == Entry(o, false, Unsent);
    case Send(ok) => assert s.cb != CbIdle ==> s.cb.id != |s.book| - 1;
    case _ =>
  }

  lemma NewsKept(s: Sys, e: Event, s': Sys)
    requires ThreadsOk(s) && Can(s, e) && (e.Trade? || e.Kill? || e.Notice?) && s' == Do(s, e)
    ensures ThreadsOk(s')
  {
    assert s'.tm == s.tm && s'.pc == s.pc && s.book[e.id].fate != Unsent;
    assert s.pc != Idle ==> s'.book[|s.book| - 1] == s.book[|s.book| - 1];
  }

  lemma DecideKept(s: Sys, s': Sys)
    requires Sound(s) && Can(s, Decide) && s' == Do(s, Decide)
    ensures ThreadsOk(s')
  {
    assert s'.tm == s.tm && s'.pc == s.pc;
    assert s.pc != Idle ==> s'.book[|s.book| - 1] == s.book[|s.book| - 1];
  }

  lemma CreditKept(s: Sys, s': Sys)
    requires Sound(s) && Can(s, Credit) && s' == Do(s, Credit)
    ensures ThreadsOk(s')
  {
    assert s'.tm.idMap == s.tm.idMap && s'.pc == s.pc;
    assert s.pc != Idle ==> s'.book[|s.book| - 1] == s.book[|s.book| - 1];
  }

  lemma CallbackKept(s: Sys, e: Event, s': Sys)
    requires Sound(s) && Can(s, e) && !OrderThread(e) && s' == Do(s, e)
    ensures ThreadsOk(s')
  {
    match e
    case Position(_, _, _) =>
    case PositionEnd =>
    case Credit => CreditKept(s, s');
    case Decide => DecideKept(s, s');
    case _ => NewsKept(s, e, s');
  }

  lemma StepKeepsSound(s: Sys, e: Event, s': Sys)
    requires Sound(s) && Can(s, e) && s' == Do(s, e)
    ensures Sound(s')
  {
    StepKeepsCovered(s, e, s');
    if OrderThread(e) {
      OrderThreadRecorded(s, e, s');
      OrderThreadKept(s, e, s');
    } else {
      CallbackRecorded(s, e, s');
      CallbackKept(s, e, s');
    }
  }

  lemma {:induction false} RunKeepsSound(s: Sys, es: seq<Event>)
    requires Sound(s) && CanAll(s, es)
    ensures Sound(DoAll(s, es))
    decreases |es|
  {
    if es != [] {
      StepKeepsSound(s, es[0], Do(s, es[0]));
      RunKeepsSound(Do(s, es[0]), es[1..]);
    }
  }

  // ----- When the tokens stay balanced -----

  lemma DueAfter(s: Sys, i: nat, e: Entry, s': Sys, side: Side, c: string)
    requires i < |s.book| && s'.book == s.book[i := e]
    requires s'.startBuy == s.startBuy && s'.startSell == s.startSell
    ensures TokensDue(s', side, c) == TokensDue(s, side, c) - Share(s.book[i], side, c) + Share(e, side, c)
  {
    TotalUpdate(s.book, i, e, ShareOf(side, c));
  }

  lemma SameDue(s: Sys, s': Sys)
    requires Due(s) && s'.book == s.book && s'.startBuy == s.startBuy && s'.startSell == s.startSell
    requires s'.tm.buy == s.tm.buy && s'.tm.sell == s.tm.sell
    ensures Due(s')
  {
    forall side, c | side != Uninited
      ensures Token(s'.tm, side, c) == TokensDue(s', side, c)
    {
      assert Token(s.tm, side, c) == TokensDue(s, side, c);
    }
  }

  /** Nothing is credited and nothing more is due. */
  lemma FateDue(s: Sys, id: nat, f: Fate, s': Sys)
    requires Due(s) && id < |s.book| && s'.tm == s.tm && s'.book == s.book[id := s.book[id].(fate := f)]
    requires s'.startBuy == s.startBuy && s'.startSell == s.startSell
    requires
      var e := s.book[id];
      || (e.taken && e.fate != KillSeen(true) && f != KillSeen(true))
      || (!e.taken && e.fate != FillSeen(true) && f != FillSeen(true))
    ensures Due(s')
  {
    forall side, c | side != Uninited
      ensures Token(s'.tm, side, c) == TokensDue(s', side, c)
    {
      DueAfter(s, id, s'.book[id], s', side, c);
    }
  }

  /** Due: `give` tokens go to the side whose share grows by as much. */
  lemma GivenDue(s: Sys, id: nat, to: Side, give: int, s': Sys)
    requires Due(s) && id < |s.book| && to != Uninited
    requires |s'.book| == |s.book| && s'.book == s.book[id := s'.book[id]]
    requires s'.startBuy == s.startBuy && s'.startSell == s.startSell
    requires s'.tm == Give(s.tm, to, s.book[id].o.contract, give)
    requires forall side, c :: side != Uninited ==>
      Share(s'.book[id], side, c) - Share(s.book[id], side, c) == if side == to && c == s.book[id].o.contract then give else 0
    ensures Due(s')
  {
    forall side, c | side != Uninited
      ensures Token(s'.tm, side, c) == TokensDue(s', side, c)
    {
      DueAfter(s, id, s'.book[id], s', side, c);
      GiveAdds(s.tm, to, s.book[id].o.contract, give, side, c);
    }
  }

  lemma ReserveDue(s: Sys, s': Sys)
    requires Due(s) && Sound(s) && Can(s, Reserve) && s' == Do(s, Reserve)
    ensures Due(s')
  {
    var e := s.book[|s.book| - 1];
    GivenDue(s, |s.book| - 1, e.o.side, -e.o.size, s');
  }

  /** A credit that is owed keeps the balance, and one that is not gives exactly the size of the order
      too much. */
  lemma CreditDueIff(s: Sys, s': Sys)
    requires Due(s) && Sound(s) && Can(s, Credit) && s' == Do(s, Credit)
    ensures Right(s, Credit) ==> Due(s')
    ensures var o := s.book[s.cb.id].o; var side := CreditSide(s);
      !Right(s, Credit) ==> side != Uninited && Token(s'.tm, side, o.contract) == TokensDue(s', side, o.contract) + o.size
  {
    var e := s.book[s.cb.id];
    assert EntryOk(s, s.cb.id);
    var side := CreditSide(s);
    if Right(s, Credit) {
      GivenDue(s, s.cb.id, side, e.o.size, s');
    } else {
      DueAfter(s, s.cb.id, s'.book[s.cb.id], s', side, e.o.contract);
      GiveAdds(s.tm, side, e.o.contract, e.o.size, side, e.o.contract);
    }
  }

  lemma BeginDue(s: Sys, o: Order, s': Sys)
    requires Due(s) && Can(s, Begin(o)) && s' == Do(s, Begin(o))
    ensures Due(s')
  {
    forall side, c | side != Uninited
      ensures Token(s'.tm, side, c) == TokensDue(s', side, c)
    {
      assert s'.book[..|s.book|] == s.book;
      assert Token(s.tm, side, c) == TokensDue(s, side, c);
    }
  }

  /** Startup positions add to the tokens and to the position alike, at any time. */
  lemma PositionDue(s: Sys, contract: string, num: int, held: Side, s': Sys)
    requires Due(s) && Can(s, Position(contract, num, held)) && s' == Do(s, Position(contract, num, held))
    ensures Due(s')
  {
    forall side, c | side != Uninited
      ensures Token(s'.tm, side, c) == TokensDue(s', side, c)
    {
      GiveAdds(s.tm, Other(held), contract, num, side, c);
      assert Start(s', side, c) == Start(s, side, c) + if side == Other(held) && c == contract then num else 0;
    }
  }

  lemma NewsDue(s: Sys, e: Event, id: nat, s': Sys)
    requires Due(s) && Sound(s) && Can(s, e) && s' == Do(s, e)
    requires (e.Trade? && e.id == id) || (e.Kill? && e.id == id) || (e.Notice? && e.id == id)
    ensures Due(s')
  {
    if s'.cb == s.cb {
      FateDue(s, id, s'.book[id].fate, s');
    }
  }

  lemma DecideDue(s: Sys, s': Sys)
    requires Due(s) && Sound(s) && Can(s, Decide) && s' == Do(s, Decide)
    ensures Due(s')
  {
    if s'.cb == CbIdle {
      FateDue(s, s.cb.id, s'.book[s.cb.id].fate, s');
    }
  }

  lemma OrderThreadDue(s: Sys, e: Event, s': Sys)
    requires Due(s) && Sound(s) && Can(s, e) && OrderThread(e) && s' == Do(s, e)
    ensures Due(s')
  {
    match e
    case Begin(o) => BeginDue(s, o, s');
    case Reserve => ReserveDue(s, s');
    case Send(ok) => FateDue(s, |s.book| - 1, s'.book[|s.book| - 1].fate, s');
    case _ => SameDue(s, s');
  }

  lemma CallbackDue(s: Sys, e: Event, s': Sys)
    requires Due(s) && Sound(s) && Can(s, e) && !OrderThread(e) && e != Credit && s' == Do(s, e)
    ensures Due(s')
  {
    match e
    case Trade(id) => NewsDue(s, e, id, s');
    case Kill(id, _) => NewsDue(s, e, id, s');
    case Notice(id) => NewsDue(s, e, id, s');
    case Decide => DecideDue(s, s');
    case Position(c, num, held) => PositionDue(s, c, num, held, s');
    case _ =>
  }

  /** One step keeps the tokens balanced just when it is not a credit that is not owed. */
  lemma StepBalancedIff(s: Sys, e: Event, s': Sys)
    requires Sound(s) && Balanced(s) && Can(s, e) && s' == Do(s, e)
    ensures Balanced(s') <==> Right(s, e)
  {
    StepKeepsSound(s, e, s');
    BalancedIffDue(s);
    BalancedIffDue(s');
    if e == Credit {
      CreditDueIff(s, s');
    } else if OrderThread(e) {
      OrderThreadDue(s, e, s');
    } else {
      CallbackDue(s, e, s');
    }
  }

  /** The decision of a callback, with the credit it may lead to, keeps the tokens balanced unless the
      mark now found under the reference is the wrong one and makes it credit. */
  lemma DecisionBalancedIff(s: Sys)
    requires Sound(s) && Balanced(s) && Can(s, Decide)
    ensures var d := Do(s, Decide);
      Balanced(if d.cb.Crediting? then Do(d, Credit) else d) <==>
        !(s.cb.filled == s.book[s.cb.id].taken && MarkFound(s) != s.book[s.cb.id].taken)
  {
    var d := Do(s, Decide);
    StepKeepsSound(s, Decide, d);
    StepBalancedIff(s, Decide, d);
    if d.cb.Crediting? {
      StepBalancedIff(d, Credit, Do(d, Credit));
    }
  }

  ghost predicate AlwaysBalanced(s: Sys, es: seq<Event>)
    requires CanAll(s, es)
    decreases |es|
  {
    Balanced(s) && (es != [] ==> AlwaysBalanced(Do(s, es[0]), es[1..]))
  }

  lemma {:induction false} RunBalancedIff(s: Sys, es: seq<Event>)
    requires Sound(s) && Balanced(s) && CanAll(s, es)
    ensures AlwaysBalanced(s, es) <==> Each(s, es, Right)
    ensures Each(s, es, Right) ==> Balanced(DoAll(s, es))
    decreases |es|
  {
    if es != [] {
      StepKeepsSound(s, es[0], Do(s, es[0]));
      StepBalancedIff(s, es[0], Do(s, es[0]));
      if Right(s, es[0]) {
        RunBalancedIff(Do(s, es[0]), es[1..]);
      }
    }
  }

  lemma NewSysIsSound()
    ensures Sound(NEW_SYS) && Balanced(NEW_SYS)
  {
  }

  /** Over any run: tokens, close orders out and what is withheld add up to the position at every
      moment, if and only if no credit is given that is not owed. */
  lemma AlwaysBalancedIff(es: seq<Event>)
    requires CanAll(NEW_SYS, es)
    ensures AlwaysBalanced(NEW_SYS, es) <==> Each(NEW_SYS, es, Right)
  {
    NewSysIsSound();
    RunBalancedIff(NEW_SYS, es);
  }

  /** As long as no credit is given that is not owed, the tokens are exactly the position that can be
      closed, less the close orders still out and what is withheld, and the close orders out never
      exceed the position held. */
  lemma ClosesNeverExceedPosition(es: seq<Event>, side: Side, c: string)
    requires CanAll(NEW_SYS, es) && Each(NEW_SYS, es, Right) && side != Uninited
    ensures var s := DoAll(NEW_SYS, es);
      && 0 <= Token(s.tm, side, c)
      && Token(s.tm, side, c) + CloseOrders(s, side, c) + TokensWithheld(s, side, c) == PositionHeld(s, side, c)
      && 0 <= CloseOrders(s, side, c) <= PositionHeld(s, side, c)
  {
    NewSysIsSound();
    RunBalancedIff(NEW_SYS, es);
    RunKeepsSound(NEW_SYS, es);
    BookBalance(DoAll(NEW_SYS, es).book, side, c);
  }

  /** While the order thread is idle, every close order that counts as out is live. */
  lemma OutMeansLive(es: seq<Event>, id: nat, side: Side, c: string)
    requires CanAll(NEW_SYS, es) && DoAll(NEW_SYS, es).pc == Idle && id < |DoAll(NEW_SYS, es).book|
    requires Pending(DoAll(NEW_SYS, es).book[id], side, c) != 0
    ensures DoAll(NEW_SYS, es).book[id].fate == Live
  {
    NewSysIsSound();
    RunKeepsSound(NEW_SYS, es);
    assert EntryOk(DoAll(NEW_SYS, es), id);
  }

  /** Once nothing is owed any more and nothing was lost, nothing is withheld. */
  lemma SettledBalance(es: seq<Event>, side: Side, c: string)
    requires CanAll(NEW_SYS, es) && Each(NEW_SYS, es, Right) && side != Uninited
    requires forall i :: 0 <= i < |DoAll(NEW_SYS, es).book| ==> Settled(DoAll(NEW_SYS, es).book[i])
    ensures var s := DoAll(NEW_SYS, es); Token(s.tm, side, c) + CloseOrders(s, side, c) == PositionHeld(s, side, c)
  {
    ClosesNeverExceedPosition(es, side, c);
    NothingWithheld(DoAll(NEW_SYS, es).book, side, c);
  }

  // ----- Restarts that come at the right moment -----

  /** The order that the callback has found is still the one under its reference, and the decision is
      the one for what was taken. */
  ghost predicate HandsOk(s: Sys) {
    && (s.cb.Found? ==> s.cb.id < |s.book| && CtpId(s.tm, s.book[s.cb.id].o.ref) == s.cb.id)
    && Right(s, Credit)
  }

  lemma NoticeKeepsHands(s: Sys, id: nat, s': Sys)
    requires Sound(s) && HandsOk(s) && Can(s, Notice(id)) && s' == Do(s, Notice(id))
    ensures HandsOk(s')
  {
    if s'.cb.Found? {
      var ref :| ref in s.tm.idMap && s.tm.idMap[ref] == id;
      assert s.book[id].o.ref == ref;
    }
  }

  lemma DecideKeepsHands(s: Sys, s': Sys)
    requires Sound(s) && HandsOk(s) && Can(s, Decide) && s' == Do(s, Decide)
    ensures HandsOk(s')
  {
    assert EntryOk(s, s.cb.id);
  }

  lemma BeginKeepsHands(s: Sys, o: Order, s': Sys)
    requires Sound(s) && HandsOk(s) && Can(s, Begin(o)) && Safe(s, Begin(o)) && s' == Do(s, Begin(o))
    ensures HandsOk(s')
  {
  }

  lemma OthersKeepHands(s: Sys, e: Event, s': Sys)
    requires ThreadsOk(s) && HandsOk(s) && Can(s, e) && !e.Begin? && !e.Notice? && e != Decide && s' == Do(s, e)
    ensures HandsOk(s')
  {
    OnlyBeginRegisters(s, e, s');
    if s'.cb != CbIdle {
      assert e == Reserve ==> s.cb.id != |s.book| - 1;
      assert s'.cb == s.cb && s'.book[s.cb.id].o == s.book[s.cb.id].o && s'.book[s.cb.id].taken == s.book[s.cb.id].taken;
    }
  }

  lemma StepKeepsHands(s: Sys, e: Event, s': Sys)
    requires Sound(s) && HandsOk(s) && Can(s, e) && Safe(s, e) && s' == Do(s, e)
    ensures HandsOk(s')
  {
    match e
    case Begin(o) => BeginKeepsHands(s, o, s');
    case Notice(id) => NoticeKeepsHands(s, id, s');
    case Decide => DecideKeepsHands(s, s');
    case _ => OthersKeepHands(s, e, s');
  }

  lemma {:induction false} SafeRunIsRight(s: Sys, es: seq<Event>)
    requires Sound(s) && HandsOk(s) && CanAll(s, es) && Each(s, es, Safe)
    ensures Each(s, es, Right)
    decreases |es|
  {
    if es != [] {
      StepKeepsSound(s, es[0], Do(s, es[0]));
      StepKeepsHands(s, es[0], Do(s, es[0]));
      SafeRunIsRight(Do(s, es[0]), es[1..]);
    }
  }

  /** A strategy may restart and use its references again at any moment but one: between the lookup of
      an order by the callback thread and the test of its close mark. */
  lemma SafeRestarts(es: seq<Event>, side: Side, c: string)
    requires CanAll(NEW_SYS, es) && Each(NEW_SYS, es, Safe) && side != Uninited
    ensures Each(NEW_SYS, es, Right)
    ensures var s := DoAll(NEW_SYS, es);
      && 0 <= Token(s.tm, side, c)
      && Token(s.tm, side, c) + CloseOrders(s, side, c) + TokensWithheld(s, side, c) == PositionHeld(s, side, c)
      && 0 <= CloseOrders(s, side, c) <= PositionHeld(s, side, c)
  {
    NewSysIsSound();
    SafeRunIsRight(NEW_SYS, es);
    ClosesNeverExceedPosition(es, side, c);
  }

  // ----- No restart at all -----

  /** Every order is still under its reference, and no credit was lost with a callback that was dropped. */
  ghost predicate AllThere(s: Sys) {
    forall id: nat :: id < |s.book| ==> CtpId(s.tm, s.book[id].o.ref) == id && s.book[id].fate != FillSeen(false)
  }

  lemma BeginKeepsAll(s: Sys, o: Order, s': Sys)
    requires Sound(s) && AllThere(s) && Can(s, Begin(o)) && Fresh(s, Begin(o)) && s' == Do(s, Begin(o))
    ensures AllThere(s')
  {
    forall id: nat | id < |s'.book|
      ensures CtpId(s'.tm, s'.book[id].o.ref) == id && s'.book[id].fate != FillSeen(false)
    {
      assert id < |s.book| ==> CtpId(s.tm, s.book[id].o.ref) == id;
    }
  }

  lemma NoticeKeepsAll(s: Sys, id: nat, s': Sys)
    requires Sound(s) && AllThere(s) && Can(s, Notice(id)) && s' == Do(s, Notice(id))
    ensures AllThere(s')
  {
    assert CtpId(s.tm, s.book[id].o.ref) == id;
    assert IsMapped(s.tm, id);
  }

  lemma DecideKeepsAll(s: Sys, s': Sys)
    requires Sound(s) && AllThere(s) && Can(s, Decide) && s' == Do(s, Decide)
    ensures AllThere(s')
  {
    var e := s.book[s.cb.id];
    assert EntryOk(s, s.cb.id);
    assert CtpId(s.tm, e.o.ref) == s.cb.id;
    assert s.cb.id == |s.book| - 1 ==> s.pc == Idle;
    assert MarkFound(s) == e.taken;
    assert s'.book == s.book || (s'.book == s.book[s.cb.id := e.(fate := Passed(e))] && Passed(e) != FillSeen(false));
  }

  lemma OthersKeepAll(s: Sys, e: Event, s': Sys)
    requires AllThere(s) && Can(s, e) && !e.Begin? && !e.Notice? && e != Decide && s' == Do(s, e)
    ensures AllThere(s')
  {
    OnlyBeginRegisters(s, e, s');
    forall id: nat | id < |s'.book|
      ensures CtpId(s'.tm, s'.book[id].o.ref) == id && s'.book[id].fate != FillSeen(false)
    {
      assert CtpId(s.tm, s.book[id].o.ref) == id && s.book[id].fate != FillSeen(false);
    }
  }

  lemma StepKeepsAll(s: Sys, e: Event, s': Sys)
    requires Sound(s) && AllThere(s) && Can(s, e) && Fresh(s, e) && s' == Do(s, e)
    ensures AllThere(s') && Safe(s, e)
  {
    match e
    case Begin(o) => BeginKeepsAll(s, o, s');
    case Notice(id) => NoticeKeepsAll(s, id, s');
    case Decide => DecideKeepsAll(s, s');
    case _ => OthersKeepAll(s, e, s');
  }

  lemma {:induction false} FreshRunIsSafe(s: Sys, es: seq<Event>)
    requires Sound(s) && AllThere(s) && CanAll(s, es) && Each(s, es, Fresh)
    ensures Each(s, es, Safe) && AllThere(DoAll(s, es))
    decreases |es|
  {
    if es != [] {
      StepKeepsSound(s, es[0], Do(s, es[0]));
      StepKeepsAll(s, es[0], Do(s, es[0]));
      FreshRunIsSafe(Do(s, es[0]), es[1..]);
    }
  }

  /** Without a restart the loss is exact: with the callbacks done, tokens, close orders and what was
      lost with refused closes and uncredited kills are the position. */
  lemma FreshBalance(es: seq<Event>, side: Side, c: string)
    requires CanAll(NEW_SYS, es) && Each(NEW_SYS, es, Fresh) && side != Uninited
    requires forall i :: 0 <= i < |DoAll(NEW_SYS, es).book| ==>
      var f := DoAll(NEW_SYS, es).book[i].fate; f != FillDue && !f.KillDue?
    ensures Each(NEW_SYS, es, Safe)
    ensures var s := DoAll(NEW_SYS, es);
      Token(s.tm, side, c) + CloseOrders(s, side, c) + TokensLost(s, side, c) == PositionHeld(s, side, c)
  {
    NewSysIsSound();
    FreshRunIsSafe(NEW_SYS, es);
    SafeRunIsRight(NEW_SYS, es);
    ClosesNeverExceedPosition(es, side, c);
    TotalsAgree(DoAll(NEW_SYS, es).book, WithheldOf(side, c), LostOf(side, c));
  }

  /** A refused insert and an uncredited kill are for ever: no event changes them. */
  lemma {:induction false} LostForGood(s: Sys, es: seq<Event>, id: nat)
    requires Sound(s) && CanAll(s, es) && id < |s.book|
    requires s.book[id].taken && (s.book[id].fate == Refused || s.book[id].fate == KillSeen(false))
    ensures id < |DoAll(s, es).book| && DoAll(s, es).book[id] == s.book[id]
    decreases |es|
  {
    if es != [] {
      var s' := Do(s, es[0]);
      StepKeepsSound(s, es[0], s');
      StepKeepsLost(s, es[0], id, s');
      LostForGood(s', es[1..], id);
    }
  }

  lemma StepKeepsLost(s: Sys, e: Event, id: nat, s': Sys)
    requires ThreadsOk(s) && Can(s, e) && s' == Do(s, e) && id < |s.book|
    requires s.book[id].taken && (s.book[id].fate == Refused || s.book[id].fate == KillSeen(false))
    ensures id < |s'.book| && s'.book[id] == s.book[id]
  {
    assert s.pc != Idle ==> id != |s.book| - 1;
    assert s.cb != CbIdle ==> id != s.cb.id;
  }

  lemma TotalOfOne(book: seq<Entry>, f: Entry -> int)
    requires |book| == 1
    ensures Total(book, f) == f(book[0])
  {
    assert Total(book[..0], f) == 0;
  }

  // ----- Steps and calls -----

  /** With no callback in between, the steps of the order thread are one call of CheckOffset. */
  lemma UninterruptedCheck(s: Sys)
    requires s.pc == Registered && s.book != [] && s.book[|s.book| - 1].o.side != Uninited
    ensures var o := s.book[|s.book| - 1].o; var t := Do(s, Test);
      if Check(s.tm, o).1 == CloseToday then
        t.pc == Tested && Do(Do(t, Reserve), SetClose).tm == Check(s.tm, o).0
      else
        t.pc == Ready && t.tm == s.tm == Check(s.tm, o).0
  {
  }

  /** With no order step in between, the steps of a callback are one call of HandleFilled or
      HandleCancelled. */
  lemma UninterruptedCallback(s: Sys, id: nat)
    requires Can(s, Notice(id)) && s.book[id].fate != KillDue(false)
    requires IsMapped(s.tm, id) && s.book[id].o.side != Uninited
    ensures var o := s.book[id].o; var d := Do(Do(s, Notice(id)), Decide);
      (if d.cb.Crediting? then Do(d, Credit).tm else d.tm)
        == if s.book[id].fate == FillDue then Filled(s.tm, o) else Cancelled(s.tm, o)
  {
  }

  // ----- The id map in every run, restarts included -----

  lemma OnlyBeginRegisters(s: Sys, e: Event, s': Sys)
    requires Can(s, e) && s' == Do(s, e)
    ensures e.Begin? ==> s'.tm == Register(s.tm, e.o)
    ensures !e.Begin? ==> s'.tm.orders == s.tm.orders && s'.tm.idMap == s.tm.idMap && s'.tm.next == s.tm.next
  {
    match e
    case Credit => assert s'.tm == Give(s.tm, CreditSide(s), s.book[s.cb.id].o.contract, s.book[s.cb.id].o.size);
    case Position(c, num, held) => assert s'.tm == Give(s.tm, Other(held), c, num);
    case _ =>
  }

  lemma StepKeepsIds(s: Sys, e: Event, s': Sys)
    requires IdsOk(s.tm) && s.tm.next >= 0 && Can(s, e) && s' == Do(s, e)
    ensures IdsOk(s'.tm) && s'.tm.next >= s.tm.next
    ensures forall id :: 0 <= id < s.tm.next && !IsMapped(s.tm, id) ==> !IsMapped(s'.tm, id)
  {
    OnlyBeginRegisters(s, e, s');
    if e.Begin? {
      RegisterKeepsIds(s.tm, e.o);
      forall id | 0 <= id < s.tm.next && !IsMapped(s.tm, id)
        ensures !IsMapped(s'.tm, id)
      {
        RegisterOrphans(s.tm, e.o, id);
      }
    }
  }

  lemma {:induction false} RunKeepsIds(s: Sys, es: seq<Event>)
    requires IdsOk(s.tm) && s.tm.next >= 0 && CanAll(s, es)
    ensures IdsOk(DoAll(s, es).tm) && DoAll(s, es).tm.next >= s.tm.next
    decreases |es|
  {
    if es != [] {
      StepKeepsIds(s, es[0], Do(s, es[0]));
      RunKeepsIds(Do(s, es[0]), es[1..]);
    }
  }

  /** Registering a reference again cuts off its earlier ids, and reference 0 cuts off all of them. */
  lemma RegisterOrphans(tm: Tm, o: Order, id: int)
    requires IdsOk(tm) && 0 <= id < tm.next
    ensures !IsMapped(Register(tm, o), id) <==> !IsMapped(tm, id) || tm.orders[id].ref == o.ref || o.ref == 0
  {
    if tm.orders[id].ref != o.ref && o.ref != 0 && IsMapped(tm, id) {
      var ref :| ref in tm.idMap && tm.idMap[ref] == id;
      assert ref in Register(tm, o).idMap && Register(tm, o).idMap[ref] == id;
    }
  }

  /** A cut-off id stays cut off, and a callback for it is dropped without touching the tokens. */
  lemma {:induction false} OrphansStayDropped(s: Sys, es: seq<Event>, id: nat)
    requires IdsOk(s.tm) && s.tm.next >= 0 && CanAll(s, es) && id < s.tm.next && !IsMapped(s.tm, id)
    ensures var s' := DoAll(s, es);
      && !IsMapped(s'.tm, id)
      && (Can(s', Notice(id)) ==> Do(s', Notice(id)).tm == s'.tm && Do(s', Notice(id)).cb == CbIdle)
    decreases |es|
  {
    if es != [] {
      StepKeepsIds(s, es[0], Do(s, es[0]));
      OrphansStayDropped(Do(s, es[0]), es[1..], id);
    }
  }

  // ----- Runs, one step after another -----

  ghost predicate Reaches(es: seq<Event>, s: Sys) { CanAll(NEW_SYS, es) && DoAll(NEW_SYS, es) == s }

  ghost predicate SafelyReaches(es: seq<Event>, s: Sys) { Reaches(es, s) && Each(NEW_SYS, es, Safe) }

  lemma {:induction false} DoAllAppend(s: Sys, es: seq<Event>, e: Event, p: (Sys, Event) -> bool)
    requires CanAll(s, es) && Can(DoAll(s, es), e)
    ensures CanAll(s, es + [e]) && DoAll(s, es + [e]) == Do(DoAll(s, es), e)
    ensures Each(s, es + [e], p) <==> Each(s, es, p) && p(DoAll(s, es), e)
    decreases |es|
  {
    if es == [] {
      assert es + [e] == [e];
    } else {
      DoAllAppend(Do(s, es[0]), es[1..], e, p);
      assert (es + [e])[1..] == es[1..] + [e];
    }
  }

  lemma Extend(es: seq<Event>, s: Sys, e: Event, s': Sys)
    requires Reaches(es, s) && Can(s, e) && s' == Do(s, e)
    ensures Reaches(es + [e], s')
    ensures SafelyReaches(es, s) && Safe(s, e) ==> SafelyReaches(es + [e], s')
    ensures Each(NEW_SYS, es, Fresh) && Fresh(s, e) ==> Each(NEW_SYS, es + [e], Fresh)
  {
    DoAllAppend(NEW_SYS, es, e, Safe);
    DoAllAppend(NEW_SYS, es, e, Fresh);
  }

  /** The order in hand, when tokens cover it: tested and reserved. */
  lemma CloseTaken(es: seq<Event>, s: Sys, o: Order) returns (es': seq<Event>, s': Sys)
    requires Reaches(es, s) && s.pc == Registered && s.book != [] && s.book[|s.book| - 1].o == o && Enough(s.tm, o)
    ensures es <= es' && Reaches(es', s') && (SafelyReaches(es, s) ==> SafelyReaches(es', s'))
    ensures Each(NEW_SYS, es, Fresh) ==> Each(NEW_SYS, es', Fresh)
    ensures var n := |s.book| - 1; var taken := s.book[n := s.book[n].(taken := true)];
      s' == s.(tm := Give(s.tm, o.side, o.contract, -o.size), book := taken, pc := Reserved)
  {
    var s1 := Do(s, Test);
    Extend(es, s, Test, s1);
    s' := Do(s1, Reserve);
    es' := es + [Test] + [Reserve];
    Extend(es + [Test], s1, Reserve, s');
  }

  /** Then marked, and sent as a close or refused. */
  lemma CloseSent(es: seq<Event>, s: Sys, o: Order, ok: bool) returns (es': seq<Event>, s': Sys)
    requires Reaches(es, s) && s.pc == Registered && s.book != [] && s.book[|s.book| - 1].o == o && Enough(s.tm, o)
    ensures es <= es' && Reaches(es', s') && (SafelyReaches(es, s) ==> SafelyReaches(es', s'))
    ensures Each(NEW_SYS, es, Fresh) ==> Each(NEW_SYS, es', Fresh)
    ensures var n := |s.book| - 1; var e := Entry(o, true, if ok then Live else Refused);
      s' == s.(tm := Check(s.tm, o).0, book := s.book[n := e], pc := Idle)
  {
    var es1, s1 := CloseTaken(es, s, o);
    var s2 := Do(s1, SetClose);
    Extend(es1, s1, SetClose, s2);
    s' := Do(s2, Send(ok));
    es' := es1 + [SetClose] + [Send(ok)];
    Extend(es1 + [SetClose], s2, Send(ok), s');
    assert s'.book == s.book[|s.book| - 1 := Entry(o, true, if ok then Live else Refused)];
  }

  /** The order in hand otherwise: tested, and sent as an opening if it has a side. */
  lemma OpenSent(es: seq<Event>, s: Sys, o: Order, ok: bool) returns (es': seq<Event>, s': Sys)
    requires Reaches(es, s) && s.pc == Registered && s.book != [] && s.book[|s.book| - 1].o == o && !Enough(s.tm, o)
    ensures es <= es' && Reaches(es', s') && (SafelyReaches(es, s) ==> SafelyReaches(es', s'))
    ensures s' == (if o.side == Uninited then s else WithFate(s, |s.book| - 1, if ok then Live else Refused)).(pc := Idle)
  {
    s' := Do(s, Test);
    es' := es + [Test];
    Extend(es, s, Test, s');
    if o.side != Uninited {
      var s1 := s';
      s' := Do(s1, Send(ok));
      Extend(es', s1, Send(ok), s');
      es' := es' + [Send(ok)];
    }
  }

  // ----- Partial fills, and a restart at the wrong moment -----

  function TradesSeen(tm: Tm, o: Order, trades: nat): Tm {
    if trades == 0 then tm else Filled(TradesSeen(tm, o, trades - 1), o)
  }

  function Volume(trades: seq<int>): int { if trades == [] then 0 else trades[0] + Volume(trades[1..]) }

  lemma {:induction false} EachTradeGivesAll(tm: Tm, o: Order, trades: nat)
    requires o.side != Uninited && !Closes(tm.isClose, CtpId(tm, o.ref))
    ensures var tm' := TradesSeen(tm, o, trades);
      && tm'.isClose == tm.isClose && tm'.idMap == tm.idMap
      && Token(tm', Other(o.side), o.contract) == Token(tm, Other(o.side), o.contract) + trades * o.size
  {
    if trades > 0 {
      EachTradeGivesAll(tm, o, trades - 1);
      OneMore(trades - 1, o.size);
    }
  }

  lemma OneMore(k: nat, size: int)
    ensures (k + 1) * size == k * size + size
  {
  }

  lemma {:induction false} VolumeBound(trades: seq<int>, size: int)
    requires forall i :: 0 <= i < |trades| ==> trades[i] <= size
    ensures Volume(trades) <= |trades| * size
    ensures Volume(trades) == |trades| * size <==> forall i :: 0 <= i < |trades| ==> trades[i] == size
  {
    if trades != [] {
      var rest := trades[1..];
      OneMore(|rest|, size);
      VolumeBound(rest, size);
      assert (forall i :: 0 <= i < |trades| ==> trades[i] == size)
          <==> trades[0] == size && forall i :: 0 <= i < |rest| ==> rest[i] == size by {
        if trades[0] == size && forall i :: 0 <= i < |rest| ==> rest[i] == size {
          assert forall i :: 0 < i < |trades| ==> trades[i] == rest[i - 1];
        }
      }
    }
  }

  /** Tokens match the traded volume of an opening order just when each trade fills the whole order;
      with several partial fills too many tokens are given. */
  lemma PartialFillsMatchIff(tm: Tm, o: Order, trades: seq<int>)
    requires o.side != Uninited && !Closes(tm.isClose, CtpId(tm, o.ref))
    requires forall i :: 0 <= i < |trades| ==> trades[i] <= o.size
    ensures var given := Token(TradesSeen(tm, o, |trades|), Other(o.side), o.contract) - Token(tm, Other(o.side), o.contract);
      && given >= Volume(trades)
      && (given == Volume(trades) <==> forall i :: 0 <= i < |trades| ==> trades[i] == o.size)
  {
    EachTradeGivesAll(tm, o, |trades|);
    VolumeBound(trades, o.size);
  }

  /** One lot held short, and a close order for it under reference 0. */
  lemma FirstClose(o: Order, ok: bool) returns (es: seq<Event>, s: Sys)
    requires o == Order("a", 1, Buy, 0)
    ensures Reaches(es, s) && Each(NEW_SYS, es, Fresh) && s.pc == Idle && s.cb == CbIdle
    ensures s.book == [Entry(o, true, if ok then Live else Refused)]
    ensures s.tm.idMap == map[0 := 0] && s.tm.next == 1 && s.tm.isClose == map[0 := true]
    ensures Token(s.tm, Sell, "a") == 0 == Token(s.tm, Buy, "a")
    ensures Get(s.startSell, "a") == 0 && Get(s.startBuy, "a") == 1
  {
    var p := Position("a", 1, Sell);
    var s0 := Do(NEW_SYS, p);
    assert Reaches([], NEW_SYS);
    Extend([], NEW_SYS, p, s0);
    var s1 := Do(s0, Begin(o));
    Extend([] + [p], s0, Begin(o), s1);
    es, s := CloseSent([] + [p] + [Begin(o)], s1, o, ok);
  }

  /** The trading API refuses that close: the lot stays held, and nothing can close it any more. */
  lemma RefusalLoses() returns (es: seq<Event>)
    ensures CanAll(NEW_SYS, es) && Each(NEW_SYS, es, Fresh)
    ensures var s := DoAll(NEW_SYS, es);
      && s.pc == Idle && s.cb == CbIdle && |s.book| == 1 && s.book[0].fate == Refused
      && PositionHeld(s, Buy, "a") == TokensLost(s, Buy, "a") == 1
      && Token(s.tm, Buy, "a") == CloseOrders(s, Buy, "a") == 0
  {
    var s;
    es, s := FirstClose(Order("a", 1, Buy, 0), false);
    TotalOfOne(s.book, HeldOf(Buy, "a"));
    TotalOfOne(s.book, LostOf(Buy, "a"));
    TotalOfOne(s.book, PendingOf(Buy, "a"));
  }

  lemma FillNoticed(es: seq<Event>, s: Sys) returns (es': seq<Event>, s': Sys)
    requires Reaches(es, s) && |s.book| == 1 && s.book[0].fate == Live && s.cb == CbIdle && s.tm.idMap == map[0 := 0]
    ensures Reaches(es', s')
    ensures s' == s.(book := s.book[0 := s.book[0].(fate := FillDue)], cb := Found(0, true))
  {
    var s1 := Do(s, Trade(0));
    Extend(es, s, Trade(0), s1);
    assert 0 in s1.tm.idMap && IsMapped(s1.tm, 0);
    s' := Do(s1, Notice(0));
    es' := es + [Trade(0)] + [Notice(0)];
    Extend(es + [Trade(0)], s1, Notice(0), s');
  }

  /** The fill is seen, but reference 0 goes to a new order before the callback looks up its mark. */
  lemma FillMistaken(es: seq<Event>, s: Sys, a: Order, b: Order) returns (es': seq<Event>, s': Sys)
    requires a == Order("a", 1, Buy, 0) && b == Order("a", 1, Sell, 0)
    requires Reaches(es, s) && s.book == [Entry(a, true, Live)] && s.pc == Idle && s.cb == CbIdle
    requires s.tm.idMap == map[0 := 0] && s.tm.next == 1 && s.tm.isClose == map[0 := true]
    requires Token(s.tm, Sell, "a") == 0
    ensures Reaches(es', s') && s'.book == [Entry(a, true, FillSeen(true)), Entry(b, false, Unsent)] && s'.pc == Registered
    ensures Token(s'.tm, Sell, "a") == 1 && s'.startSell == s.startSell
  {
    var es2, s2 := FillNoticed(es, s);
    var s3 := Do(s2, Begin(b));
    Extend(es2, s2, Begin(b), s3);
    var s4 := Do(s3, Decide);
    Extend(es2 + [Begin(b)], s3, Decide, s4);
    s' := Do(s4, Credit);
    es' := es2 + [Begin(b)] + [Decide] + [Credit];
    Extend(es2 + [Begin(b)] + [Decide], s4, Credit, s');
  }

  lemma TotalOfTwo(book: seq<Entry>, f: Entry -> int)
    requires |book| == 2
    ensures Total(book, f) == f(book[0]) + f(book[1])
  {
    assert book[..1][..0] == [];
    assert Total(book[..1], f) == f(book[0]);
  }

  /** What a restart at the wrong moment does: with a reference used again while the callback of its
      earlier order is under way, the fill of a close is taken for the fill of an opening order, and
      a close is sent for a position that is not held. */
  lemma RestartOverdraws() returns (es: seq<Event>)
    ensures CanAll(NEW_SYS, es) && !Each(NEW_SYS, es, Right) && !Each(NEW_SYS, es, Safe)
    ensures CloseOrders(DoAll(NEW_SYS, es), Sell, "a") == 1 && PositionHeld(DoAll(NEW_SYS, es), Sell, "a") == 0
  {
    var a, b := Order("a", 1, Buy, 0), Order("a", 1, Sell, 0);
    var es1, s1 := FirstClose(a, true);
    var es2, s2 := FillMistaken(es1, s1, a, b);
    var es3, s3 := CloseSent(es2, s2, b, true);
    es := es3;
    assert s3.book == [Entry(a, true, FillSeen(true)), Entry(b, true, Live)];
    TotalOfTwo(s3.book, PendingOf(Sell, "a"));
    TotalOfTwo(s3.book, HeldOf(Sell, "a"));
    if Each(NEW_SYS, es, Right) {
      ClosesNeverExceedPosition(es, Sell, "a");
    }
    if Each(NEW_SYS, es, Safe) {
      SafeRestarts(es, Sell, "a");
    }
  }
}
