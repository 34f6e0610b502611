/** The two-flag handshake of src/shm/shm.cpp between one writer and one reader. Memory is
    sequentially consistent, and each access to a flag or to the content is one step. */
module TwoFlags {
  datatype Writer = WIdle | WWaits(v: int) | WPassed(v: int) | WStored(v: int)

  datatype Reader = RIdle | RWaits | RPassed | RCopied(v: int)

  /** The shared words and where each side is, with the values written and read so far. */
  datatype State = State(
    canWrite: bool, canRead: bool, content: int, w: Writer, r: Reader, wrote: seq<int>, got: seq<int>)

  datatype Step =
    | WriteCall(v: int) | WriteTest | WriteStore | WriteReturn
    | ReadCall | ReadTest | ReadCopy | ReadReturn

  predicate Can(s: State, e: Step) {
    match e
    case WriteCall(_) => s.w == WIdle
    case WriteTest => s.w.WWaits?
    case WriteStore => s.w.WPassed?
    case WriteReturn => s.w.WStored?
    case ReadCall => s.r == RIdle
    case ReadTest => s.r == RWaits
    case ReadCopy => s.r == RPassed
    case ReadReturn => s.r.RCopied?
  }

  /** A test that fails goes round the loop again. */
  function Do(s: State, e: Step): State
    requires Can(s, e)
  {
    match e
    case WriteCall(v) => s.(canRead := false, w := WWaits(v))
    case WriteTest => if s.canWrite then s.(w := WPassed(s.w.v)) else s
    case WriteStore => s.(content := s.w.v, w := WStored(s.w.v))
    case WriteReturn => s.(canRead := true, w := WIdle, wrote := s.wrote + [s.w.v])
    case ReadCall => s.(canWrite := false, r := RWaits)
    case ReadTest => if s.canRead then s.(r := RPassed) else s
    case ReadCopy => s.(r := RCopied(s.content))
    case ReadReturn => s.(canWrite := true, r := RIdle, got := s.got + [s.r.v])
  }

  predicate CanAll(s: State, es: seq<Step>)
    decreases |es|
  {
    es == [] || (Can(s, es[0]) && CanAll(Do(s, es[0]), es[1..]))
  }

  function DoAll(s: State, es: seq<Step>): State
    requires CanAll(s, es)
    decreases |es|
  {
    if es == [] then s else DoAll(Do(s, es[0]), es[1..])
  }

  /** The flags as the constructor sets them. */
  const STARTED := State(true, false, 0, WIdle, RIdle, [], [])

  /** The flags of a segment as the system hands it out: neither Create nor Connect sets them. */
  const ZEROED := STARTED.(canWrite := false)

  function Last(v: seq<int>): int
    requires v != []
  {
    v[|v| - 1]
  }

  predicate WriterIn(s: State) { s.w.WPassed? || s.w.WStored? }

  predicate ReaderIn(s: State) { s.r.RPassed? || s.r.RCopied? }

  /** Each side keeps the other's flag down from its call to its return. The content is the latest
      completed write, except while the writer is replacing it. */
  ghost predicate Inv(s: State) {
    && (s.canRead <==> s.w == WIdle && s.wrote != [])
    && (s.canWrite <==> s.r == RIdle)
    && !(WriterIn(s) && ReaderIn(s))
    && (ReaderIn(s) ==> s.wrote != [])
    && (s.wrote != [] && !s.w.WStored? ==> s.content == Last(s.wrote))
    && (s.w.WStored? ==> s.content == s.w.v)
    && (s.r.RCopied? ==> s.wrote != [] && s.r.v == Last(s.wrote))
  }

  lemma StepKeepsInv(s: State, e: Step)
    requires Inv(s) && Can(s, e)
    ensures Inv(Do(s, e))
  {
  }

  lemma {:induction false} RunKeepsInv(s: State, es: seq<Step>)
    requires Inv(s) && CanAll(s, es)
    ensures Inv(DoAll(s, es))
    decreases |es|
  {
    if es != [] {
      StepKeepsInv(s, es[0]);
      RunKeepsInv(Do(s, es[0]), es[1..]);
    }
  }

  /** Write and Read are never both past their wait test. */
  lemma MutualExclusion(es: seq<Step>)
    requires CanAll(STARTED, es)
    ensures !(WriterIn(DoAll(STARTED, es)) && ReaderIn(DoAll(STARTED, es)))
  {
    RunKeepsInv(STARTED, es);
  }

  /** A Read that returns, returns the value of the latest completed Write. */
  lemma ReadsLatest(es: seq<Step>)
    requires CanAll(STARTED, es) && Can(DoAll(STARTED, es), ReadReturn)
    ensures var s := DoAll(STARTED, es); s.wrote != [] && Do(s, ReadReturn).got == s.got + [Last(s.wrote)]
  {
    RunKeepsInv(STARTED, es);
  }

  // ----- Getting stuck -----

  predicate Stuck(s: State) { s.w.WWaits? && s.r == RWaits }

  /** A side that waits gets through at its next test exactly when the other side is not under way
      and, for the reader, something was written. Hence once both wait, both wait for ever. */
  lemma TestPassesIff(s: State)
    requires Inv(s)
    ensures s.w.WWaits? ==> (Do(s, WriteTest).w.WPassed? <==> s.r == RIdle)
    ensures s.r == RWaits ==> (Do(s, ReadTest).r == RPassed <==> s.w == WIdle && s.wrote != [])
  {
  }

  /** Nothing can move exactly when both wait. */
  lemma NothingMovesIff(s: State)
    requires Inv(s)
    ensures Stuck(s) <==> forall e :: Can(s, e) ==> Do(s, e) == s
  {
    if !Stuck(s) {
      var e :=
        if s.w == WIdle then WriteCall(0)
        else if s.w.WPassed? then WriteStore
        else if s.w.WStored? then WriteReturn
        else if s.r == RIdle then ReadCall
        else if s.r == RPassed then ReadCopy
        else ReadReturn;
      assert Can(s, e) && Do(s, e) != s;
    }
  }

  lemma {:induction false} StuckForever(s: State, es: seq<Step>)
    requires Inv(s) && Stuck(s) && CanAll(s, es)
    ensures DoAll(s, es) == s
    decreases |es|
  {
    if es != [] {
      StuckForever(Do(s, es[0]), es[1..]);
    }
  }

  /** A call is made while the other side waits. */
  predicate Collides(s: State, e: Step) { (e.WriteCall? && s.r == RWaits) || (e == ReadCall && s.w.WWaits?) }

  predicate EverCollides(s: State, es: seq<Step>)
    requires CanAll(s, es)
    decreases |es|
  {
    es != [] && (Collides(s, es[0]) || EverCollides(Do(s, es[0]), es[1..]))
  }

  /** One step gets both sides stuck exactly when it is a call made while the other side waits. */
  lemma StepSticksIff(s: State, e: Step)
    requires Inv(s) && !Stuck(s) && Can(s, e)
    ensures Stuck(Do(s, e)) <==> Collides(s, e)
  {
  }

  /** A run ends stuck exactly when somewhere in it a call was made while the other side waited. */
  lemma {:induction false} RunSticksIff(s: State, es: seq<Step>)
    requires Inv(s) && !Stuck(s) && CanAll(s, es)
    ensures Stuck(DoAll(s, es)) <==> EverCollides(s, es)
    decreases |es|
  {
    if es != [] {
      var s' := Do(s, es[0]);
      StepKeepsInv(s, es[0]);
      StepSticksIff(s, es[0]);
      if Stuck(s') {
        StuckForever(s', es[1..]);
      } else {
        RunSticksIff(s', es[1..]);
      }
    }
  }

  /** A reader that calls before the first write waits until the writer calls, and then both are
      stuck, whatever happens in between. */
  lemma {:induction false} ReadFirstStarves(s: State, es: seq<Step>)
    requires Inv(s) && s.r == RWaits && s.wrote == [] && (s.w == WIdle || s.w.WWaits?) && CanAll(s, es)
    ensures var s' := DoAll(s, es);
      s'.r == RWaits && s'.wrote == [] && s'.got == s.got && (s'.w == WIdle || Stuck(s'))
    decreases |es|
  {
    if es != [] {
      ReadFirstStarves(Do(s, es[0]), es[1..]);
    }
  }

  /** Wherever both sides are outside their calls, two calls that start together get stuck. */
  lemma TwoCallsGetStuck(s: State, v: int)
    requires Inv(s) && s.w == WIdle && s.r == RIdle
    ensures var es := [ReadCall, WriteCall(v)]; CanAll(s, es) && Stuck(DoAll(s, es))
    ensures var es := [WriteCall(v), ReadCall]; CanAll(s, es) && Stuck(DoAll(s, es))
  {
    var r, w := Do(s, ReadCall), Do(s, WriteCall(v));
    OneStepFirst(r, WriteCall(v), []);
    OneStepFirst(s, ReadCall, [WriteCall(v)] + []);
    assert [ReadCall] + ([WriteCall(v)] + []) == [ReadCall, WriteCall(v)];
    OneStepFirst(w, ReadCall, []);
    OneStepFirst(s, WriteCall(v), [ReadCall] + []);
    assert [WriteCall(v)] + ([ReadCall] + []) == [WriteCall(v), ReadCall];
  }

  lemma {:induction false} DoAllThen(s: State, xs: seq<Step>, ys: seq<Step>)
    requires CanAll(s, xs) && CanAll(DoAll(s, xs), ys)
    ensures CanAll(s, xs + ys) && DoAll(s, xs + ys) == DoAll(DoAll(s, xs), ys)
    decreases |xs|
  {
    if xs == [] {
      assert xs + ys == ys;
    } else {
      DoAllThen(Do(s, xs[0]), xs[1..], ys);
      assert (xs + ys)[1..] == xs[1..] + ys;
    }
  }

  /** Both ways of getting stuck are within reach: before the first write, and after one. */
  lemma StuckIsReachable()
    ensures var es := [ReadCall, WriteCall(1)]; CanAll(STARTED, es) && Stuck(DoAll(STARTED, es))
    ensures var es := [WriteCall(1), WriteTest, WriteStore, WriteReturn] + [WriteCall(2), ReadCall];
      CanAll(STARTED, es) && Stuck(DoAll(STARTED, es)) && DoAll(STARTED, es).wrote == [1]
  {
    TwoCallsGetStuck(STARTED, 1);
    RepeatsAndLosses(STARTED, 1);
    var s := DoAll(STARTED, [WriteCall(1), WriteTest, WriteStore, WriteReturn]);
    TwoCallsGetStuck(s, 2);
    OneStepFirst(Do(s, WriteCall(2)), ReadCall, []);
    OneStepFirst(s, WriteCall(2), [ReadCall] + []);
    assert [WriteCall(2)] + ([ReadCall] + []) == [WriteCall(2), ReadCall];
    DoAllThen(STARTED, [WriteCall(1), WriteTest, WriteStore, WriteReturn], [WriteCall(2), ReadCall]);
  }

  /** On a segment whose flags were never set no call ever gets through. */
  lemma {:induction false} ZeroedNeverPasses(s: State, es: seq<Step>)
    requires !s.canWrite && !s.canRead && !WriterIn(s) && !ReaderIn(s) && CanAll(s, es)
    ensures var s' := DoAll(s, es); s'.wrote == s.wrote && s'.got == s.got && !WriterIn(s') && !ReaderIn(s')
    decreases |es|
  {
    if es != [] {
      ZeroedNeverPasses(Do(s, es[0]), es[1..]);
    }
  }

  /** The handshake is no queue: a value can be read twice, or be overwritten unread. */
  lemma RepeatsAndLosses(s: State, v: int)
    requires Inv(s) && s.w == WIdle && s.r == RIdle
    ensures s.wrote != [] ==> var es := [ReadCall, ReadTest, ReadCopy, ReadReturn];
      CanAll(s, es) && DoAll(s, es) == s.(got := s.got + [Last(s.wrote)])
    ensures var es := [WriteCall(v), WriteTest, WriteStore, WriteReturn];
      CanAll(s, es) && DoAll(s, es) == s.(content := v, canRead := true, wrote := s.wrote + [v])
  {
    if s.wrote != [] {
      RunOfFour(s, ReadCall, ReadTest, ReadCopy, ReadReturn);
    }
    RunOfFour(s, WriteCall(v), WriteTest, WriteStore, WriteReturn);
  }

  lemma RunOfFour(s: State, a: Step, b: Step, c: Step, d: Step)
    requires Can(s, a) && Can(Do(s, a), b) && Can(Do(Do(s, a), b), c) && Can(Do(Do(Do(s, a), b), c), d)
    ensures CanAll(s, [a, b, c, d]) && DoAll(s, [a, b, c, d]) == Do(Do(Do(Do(s, a), b), c), d)
  {
    var s1 := Do(s, a);
    var s2 := Do(s1, b);
    var s3 := Do(s2, c);
    OneStepFirst(s3, d, []);
    OneStepFirst(s2, c, [d] + []);
    OneStepFirst(s1, b, [c] + ([d] + []));
    OneStepFirst(s, a, [b] + ([c] + ([d] + [])));
    assert [a] + ([b] + ([c] + ([d] + []))) == [a, b, c, d];
  }

  lemma OneStepFirst(s: State, e: Step, es: seq<Step>)
    requires Can(s, e) && CanAll(Do(s, e), es)
    ensures CanAll(s, [e] + es) && DoAll(s, [e] + es) == DoAll(Do(s, e), es)
  {
    assert ([e] + es)[1..] == es;
  }
}

/** The one-slot mailbox of src/shm_test: the writer waits for is_good, copies a message into the
    segment character by character and clears the flag; the reader waits for the flag to go down,
    takes the message out character by character and sets the flag. The story starts when the reader
    has attached and set the flag. */
module Mailbox {
  const SLOT := 32

  const NUL: char := '\0'

  /** The part of an input that fits: up to a terminator, at most 31 characters. */
  function Clip(a: string): (m: string)
    ensures |m| <= SLOT - 1 && NUL !in m && m <= a
    ensures |m| == |a| || |m| == SLOT - 1 || a[|m|] == NUL
  {
    ClipTo(a, SLOT - 1)
  }

  function ClipTo(a: string, room: nat): (m: string)
    ensures |m| <= room && NUL !in m && m <= a
    ensures |m| == |a| || |m| == room || a[|m|] == NUL
  {
    if a == "" || room == 0 || a[0] == NUL then "" else [a[0]] + ClipTo(a[1..], room - 1)
  }

  /** `done` characters of the message are in the slot; the terminator is one more. */
  datatype Writer = WWaits | WCopies(m: string, done: nat)

  datatype Reader = RWaits | RTakes(acc: string) | RGot(acc: string)

  datatype State = State(
    isGood: bool, slot: seq<char>, w: Writer, r: Reader, written: seq<string>, read: seq<string>)

  datatype Step = WriteTest(input: string) | WriteChar | WriteDone | ReadTest | ReadChar | ReadDone

  predicate Can(s: State, e: Step) {
    match e
    case WriteTest(_) => s.w == WWaits
    case WriteChar => s.w.WCopies? && s.w.done <= |s.w.m| && s.w.done < |s.slot|
    case WriteDone => s.w.WCopies? && s.w.done == |s.w.m| + 1
    case ReadTest => s.r == RWaits
    case ReadChar => s.r.RTakes? && |s.r.acc| < |s.slot|
    case ReadDone => s.r.RGot?
  }

  function Do(s: State, e: Step): State
    requires Can(s, e)
  {
    match e
    case WriteTest(input) => if s.isGood then s.(w := WCopies(Clip(input), 0)) else s
    case WriteChar =>
      var c := if s.w.done < |s.w.m| then s.w.m[s.w.done] else NUL;
      s.(slot := s.slot[s.w.done := c], w := WCopies(s.w.m, s.w.done + 1))
    case WriteDone => s.(isGood := false, w := WWaits, written := s.written + [s.w.m])
    case ReadTest => if !s.isGood then s.(r := RTakes("")) else s
    case ReadChar =>
      var c := s.slot[|s.r.acc|];
      if c == NUL then s.(r := RGot(s.r.acc)) else s.(r := RTakes(s.r.acc + [c]))
    case ReadDone => s.(isGood := true, r := RWaits, read := s.read + [s.r.acc])
  }

  predicate CanAll(s: State, es: seq<Step>)
    decreases |es|
  {
    es == [] || (Can(s, es[0]) && CanAll(Do(s, es[0]), es[1..]))
  }

  function DoAll(s: State, es: seq<Step>): State
    requires CanAll(s, es)
    decreases |es|
  {
    if es == [] then s else DoAll(Do(s, es[0]), es[1..])
  }

  predicate Attached(s: State) {
    s.isGood && |s.slot| == SLOT && s.w == WWaits && s.r == RWaits && s.written == s.read == []
  }

  /** The slot holds the message and its terminator. */
  predicate Holds(slot: seq<char>, m: string) { |m| < |slot| && slot[..|m|] == m && slot[|m|] == NUL && NUL !in m }

  /** The flag says whose turn it is. When it is up, all that was written was read; when it is down,
      one message is in flight, and it is in the slot. */
  ghost predicate Inv(s: State) {
    && |s.slot| == SLOT
    && (s.w != WWaits ==>
          s.isGood && |s.w.m| < SLOT && NUL !in s.w.m && s.w.done <= |s.w.m| + 1 && Copied(s.slot, s.w.m, s.w.done))
    && (s.r != RWaits ==> !s.isGood)
    && (s.isGood ==> s.written == s.read)
    && (!s.isGood ==> s.written != [] && InFlight(s, s.written[|s.written| - 1]))
  }

  ghost predicate Copied(slot: seq<char>, m: string, done: nat)
    requires done <= |m| + 1 && |m| < |slot|
  {
    if done <= |m| then slot[..done] == m[..done] else Holds(slot, m)
  }

  ghost predicate InFlight(s: State, m: string) {
    && s.written == s.read + [m] && Holds(s.slot, m)
    && (s.r.RTakes? ==> s.r.acc <= m) && (s.r.RGot? ==> s.r.acc == m)
  }

  lemma StepKeepsInv(s: State, e: Step)
    requires Inv(s) && Can(s, e)
    ensures Inv(Do(s, e))
  {
  }

  lemma {:induction false} RunKeepsInv(s: State, es: seq<Step>)
    requires Inv(s) && CanAll(s, es)
    ensures Inv(DoAll(s, es))
    decreases |es|
  {
    if es != [] {
      StepKeepsInv(s, es[0]);
      RunKeepsInv(Do(s, es[0]), es[1..]);
    }
  }

  /** In every interleaving the messages read are those written, in order and whole, with at most
      the last one still to be read. */
  lemma ReadsFollowWrites(s: State, es: seq<Step>)
    requires Attached(s) && CanAll(s, es)
    ensures var s' := DoAll(s, es); s'.read <= s'.written && |s'.written| <= |s'.read| + 1
  {
    RunKeepsInv(s, es);
  }

  /** Only one side at a time is at the slot. */
  lemma OneAtATime(s: State, es: seq<Step>)
    requires Attached(s) && CanAll(s, es)
    ensures DoAll(s, es).w == WWaits || DoAll(s, es).r == RWaits
  {
    RunKeepsInv(s, es);
  }
}
