/** The benchmark's closed loop: workers claim slots from one atomic counter and
    write what they measured, in any interleaving. */
module WorkClaiming {

  datatype Worker = Claiming | Measuring(slot: nat) | Finished

  /** `order` is history: the slots in the order in which they were written. */
  datatype Loop = Loop(counter: int, workers: seq<Worker>, order: seq<nat>)

  function Started(concurrency: nat): Loop {
    Loop(-1, seq(concurrency, _ => Claiming), [])
  }

  predicate Live(s: Loop, w: nat) { w < |s.workers| && !s.workers[w].Finished? }

  /** One atomic step of worker `w`: the increment with its bounds test, or the
      write of the slot it holds. */
  function Move(s: Loop, count: nat, w: nat): Loop
    requires Live(s, w)
  {
    match s.workers[w]
    case Claiming =>
      var i := s.counter + 1;
      s.(counter := i,
         workers := s.workers[w := if i >= count || i < 0 then Finished else Measuring(i)])
    case Measuring(slot) => s.(workers := s.workers[w := Claiming], order := s.order + [slot])
    case Finished => s
  }

  ghost predicate Schedule(s: Loop, count: nat, turns: seq<nat>, end: Loop)
    decreases |turns|
  {
    if turns == [] then s == end
    else Live(s, turns[0]) && Schedule(Move(s, count, turns[0]), count, turns[1..], end)
  }

  predicate AllFinished(s: Loop) { forall w | 0 <= w < |s.workers| :: s.workers[w].Finished? }

  // ------------------------------------------------------------ sums over workers

  function Total(f: Worker -> nat, workers: seq<Worker>): nat {
    if workers == [] then 0 else f(workers[0]) + Total(f, workers[1..])
  }

  lemma {:induction false} TotalUpdate(f: Worker -> nat, workers: seq<Worker>, w: nat, x: Worker)
    requires w < |workers|
    ensures Total(f, workers[w := x]) + f(workers[w]) == Total(f, workers) + f(x)
  {
    var after := workers[w := x];
    if w == 0 {
      assert after[1..] == workers[1..];
    } else {
      assert after[1..] == workers[1..][w - 1 := x];
      TotalUpdate(f, workers[1..], w - 1, x);
    }
  }

  lemma {:induction false} TotalConstant(f: Worker -> nat, workers: seq<Worker>, x: Worker)
    requires forall w | 0 <= w < |workers| :: workers[w] == x
    ensures Total(f, workers) == |workers| * f(x)
  {
    if workers != [] {
      TotalConstant(f, workers[1..], x);
      assert |workers| * f(x) == f(x) + (|workers| - 1) * f(x);
    }
  }

  function IsFinished(x: Worker): nat { if x.Finished? then 1 else 0 }

  /** Steps a worker still owes on its current slot and on leaving. */
  function Owed(x: Worker): nat { if x.Finished? then 0 else if x.Claiming? then 1 else 2 }

  function Holds(slot: nat): Worker -> nat { (x: Worker) => if x == Measuring(slot) then 1 else 0 }

  // ---------------------------------------------------------------- the invariant

  function Unclaimed(s: Loop, count: nat): nat { if s.counter + 1 >= count || s.counter < -1 then 0 else count - (s.counter + 1) }

  /** A claimed slot was written once or is held by one worker; an unclaimed one
      was neither. */
  ghost predicate SlotOnce(s: Loop, slot: nat) {
    multiset(s.order)[slot] + Total(Holds(slot), s.workers) == if slot <= s.counter then 1 else 0
  }

  ghost predicate Inv(s: Loop, count: nat) {
    && s.counter >= -1
    && (forall slot: nat | slot < count :: SlotOnce(s, slot))
    && (forall k | 0 <= k < |s.order| :: s.order[k] < count)
    && (forall w | 0 <= w < |s.workers| && s.workers[w].Measuring? :: s.workers[w].slot < count)
    && Total(IsFinished, s.workers) == (if s.counter + 1 <= count then 0 else s.counter + 1 - count)
  }

  /** Steps left: two for every unclaimed slot and what each worker owes. */
  ghost function Measure(s: Loop, count: nat): nat { 2 * Unclaimed(s, count) + Total(Owed, s.workers) }

  lemma StartedInv(concurrency: nat, count: nat)
    ensures Inv(Started(concurrency), count)
    ensures Measure(Started(concurrency), count) == 2 * count + concurrency
  {
    var s := Started(concurrency);
    TotalConstant(IsFinished, s.workers, Claiming);
    TotalConstant(Owed, s.workers, Claiming);
    forall slot: nat | slot < count ensures SlotOnce(s, slot) { TotalConstant(Holds(slot), s.workers, Claiming); }
  }

  /** Every step of every worker keeps the invariant and uses up exactly one of
      the steps left. */
  lemma MoveKeeps(s: Loop, count: nat, w: nat)
    requires Inv(s, count) && Live(s, w)
    ensures Inv(Move(s, count, w), count)
    ensures Measure(Move(s, count, w), count) == Measure(s, count) - 1
  {
    var z := Move(s, count, w);
    TotalUpdate(IsFinished, s.workers, w, z.workers[w]);
    TotalUpdate(Owed, s.workers, w, z.workers[w]);
    forall slot: nat | slot < count ensures SlotOnce(z, slot) {
      assert SlotOnce(s, slot);
      TotalUpdate(Holds(slot), s.workers, w, z.workers[w]);
    }
  }

  lemma {:induction false} ScheduleKeeps(s: Loop, count: nat, turns: seq<nat>, end: Loop)
    requires Inv(s, count) && Schedule(s, count, turns, end)
    ensures Inv(end, count) && |end.workers| == |s.workers| && Measure(s, count) == |turns| + Measure(end, count)
    decreases |turns|
  {
    if turns == [] {
    } else {
      MoveKeeps(s, count, turns[0]);
      ScheduleKeeps(Move(s, count, turns[0]), count, turns[1..], end);
    }
  }

  /** The finished loop: every slot written exactly once, nothing else written,
      and the counter past the last slot by the number of workers. */
  ghost predicate Complete(order: seq<nat>, counter: int, concurrency: nat, count: nat) {
    && (forall slot: nat | slot < count :: multiset(order)[slot] == 1)
    && (forall k | 0 <= k < |order| :: order[k] < count)
    && |order| == count
    && counter == count - 1 + concurrency
  }

  lemma {:induction false} OncesCount(order: multiset<nat>, count: nat)
    requires forall slot: nat :: order[slot] == if slot < count then 1 else 0
    ensures |order| == count
    decreases count
  {
    if count == 0 {
      assert order == multiset{};
    } else {
      OncesCount(order - multiset{count - 1}, count - 1);
    }
  }

  lemma FinishedIsComplete(s: Loop, count: nat)
    requires Inv(s, count) && AllFinished(s) && |s.workers| >= 1
    ensures Complete(s.order, s.counter, |s.workers|, count)
  {
    TotalConstant(IsFinished, s.workers, Finished);
    forall slot: nat ensures multiset(s.order)[slot] == if slot < count then 1 else 0 {
      if slot < count {
        assert SlotOnce(s, slot);
        TotalConstant(Holds(slot), s.workers, Finished);
      } else {
        assert slot !in s.order;
      }
    }
    OncesCount(multiset(s.order), count);
  }

  // ------------------------------------------------------------------- theorems

  /** For any number of workers but zero, any count and any interleaving. */
  lemma DriveFillsEverySlotOnce(concurrency: nat, count: nat, turns: seq<nat>, end: Loop)
    requires concurrency >= 1
    requires Schedule(Started(concurrency), count, turns, end) && AllFinished(end)
    ensures Complete(end.order, end.counter, concurrency, count)
  {
    StartedInv(concurrency, count);
    ScheduleKeeps(Started(concurrency), count, turns, end);
    FinishedIsComplete(end, count);
  }

  /** No interleaving runs longer than two steps a slot and one a worker, and it
      has run that long exactly when every worker is done. */
  lemma DriveTakesExactly(concurrency: nat, count: nat, turns: seq<nat>, end: Loop)
    requires concurrency >= 1 && Schedule(Started(concurrency), count, turns, end)
    ensures |turns| <= 2 * count + concurrency
    ensures AllFinished(end) <==> |turns| == 2 * count + concurrency
  {
    StartedInv(concurrency, count);
    ScheduleKeeps(Started(concurrency), count, turns, end);
    if AllFinished(end) {
      FinishedIsComplete(end, count);
      TotalConstant(Owed, end.workers, Finished);
    } else {
      var w :| 0 <= w < |end.workers| && !end.workers[w].Finished?;
      MoveKeeps(end, count, w);
    }
  }

  lemma {:induction false} TotalAtLeast(f: Worker -> nat, workers: seq<Worker>, w: nat)
    requires w < |workers|
    ensures Total(f, workers) >= f(workers[w])
  {
    if w > 0 { TotalAtLeast(f, workers[1..], w - 1); }
  }

  /** A slot that a worker holds was not written before. */
  lemma HeldIsUnwritten(s: Loop, count: nat, w: nat)
    requires Inv(s, count) && w < |s.workers|
    ensures s.workers[w].Measuring? ==> s.workers[w].slot !in s.order
  {
    if s.workers[w].Measuring? {
      var slot := s.workers[w].slot;
      assert SlotOnce(s, slot);
      TotalAtLeast(Holds(slot), s.workers, w);
    }
  }

  // ------------------------------------------------------------------- the code

  /** drive with its goroutines under an arbitrary scheduler; `calls` are the
      durations measured, in the order in which they were written. */
  method Drive(concurrency: nat, count: nat)
    returns (lat: array<nat>, counter: int, order: seq<nat>, calls: seq<nat>)
    ensures fresh(lat) && lat.Length == count
    ensures concurrency >= 1 ==> Complete(order, counter, concurrency, count)
    ensures |calls| == |order| && forall k | 0 <= k < |order| :: order[k] < count && lat[order[k]] == calls[k]
  {
    lat := new nat[count];
    counter, order, calls := -1, [], [];
    var workers := seq(concurrency, _ => Claiming);
    StartedInv(concurrency, count);
    ghost var s := Started(concurrency);
    var live: set<nat> := set w: nat | 0 <= w < |workers| && workers[w].Claiming?;
    while live != {}
      invariant s == Loop(counter, workers, order) && Inv(s, count) && |workers| == concurrency
      invariant forall w | w in live :: w < concurrency
      invariant forall w | 0 <= w < concurrency :: w in live <==> !workers[w].Finished?
      invariant |calls| == |order|
      invariant forall k | 0 <= k < |order| :: order[k] < count && lat[order[k]] == calls[k]
      invariant fresh(lat) && lat.Length == count
      decreases Measure(s, count)
    {
      var w :| w in live;
      MoveKeeps(s, count, w);
      HeldIsUnwritten(s, count, w);
      s := Move(s, count, w);
      if workers[w].Claiming? {
        counter := counter + 1;
        if counter >= count {
          workers := workers[w := Finished];
          live := live - {w};
        } else {
          workers := workers[w := Measuring(counter)];
        }
      } else {
        var slot, elapsed: nat := workers[w].slot, *;
        lat[slot] := elapsed;
        order, calls := order + [slot], calls + [elapsed];
        workers := workers[w := Claiming];
      }
    }
    assert AllFinished(s) by {
      forall w | 0 <= w < |s.workers| ensures s.workers[w].Finished? { assert w !in live; }
    }
    if concurrency >= 1 { FinishedIsComplete(s, count); }
  }
}
