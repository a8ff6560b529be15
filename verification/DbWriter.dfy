/**
 db.cpp: the queue between the threads that log events and the one thread that writes them. Each critical section of
 the mutex is one atomic step, and so is each notification; waiting on the condition variable releases the mutex and
 falls asleep in one step.
 */
module DbQueue {
  import opened Basics

  datatype Worker<E> =
    | AtWait         // about to lock the mutex and evaluate the wait predicate
    | Sleeping
    | Handling(e: E)
    | Done           // worker_main has returned

  // Where stop() is
  datatype Stopper = NotCalled | Flagged | Joining | Joined | Returned

  datatype Db<E> = Db(
    q: seq<E>, stopRequested: bool, running: bool,
    worker: Worker<E>, stopper: Stopper,
    admitted: multiset<E>,     // enqueue has seen running_, and has not pushed yet
    toNotify: nat,             // enqueue has pushed, and has not notified yet
    pushed: seq<E>,            // history
    processed: seq<E>,
    pushedAtStop: nat)         // how many had been pushed when the stop flag was set

  datatype Act<E> =
    | Admit(e: E) | Push(e: E) | Notify
    | Wait | Spurious | Handled
    | RequestStop | NotifyAll | Join | Clear

  predicate Enabled<E(==)>(d: Db<E>, a: Act<E>) {
    match a
    case Admit(_) => d.running
    case Push(e) => e in d.admitted
    case Notify => d.toNotify > 0
    case Wait => d.worker.AtWait?
    case Spurious => d.worker.Sleeping?
    case Handled => d.worker.Handling?
    case RequestStop => d.stopper.NotCalled? && d.running
    case NotifyAll => d.stopper.Flagged?
    case Join => d.stopper.Joining? && d.worker.Done?
    case Clear => d.stopper.Joined?
  }

  function Woken<E>(w: Worker<E>): Worker<E> { if w.Sleeping? then AtWait else w }

  function Step<E(==)>(d: Db<E>, a: Act<E>): Db<E> {
    match a
    case Admit(e) => d.(admitted := d.admitted + multiset{e})
    case Push(e) => d.(admitted := d.admitted - multiset{e}, q := d.q + [e], pushed := d.pushed + [e],
                       toNotify := d.toNotify + 1)
    case Notify => if d.toNotify == 0 then d else d.(toNotify := d.toNotify - 1, worker := Woken(d.worker))
    case Wait =>
      if !d.stopRequested && d.q == [] then d.(worker := Sleeping)
      else if d.q == [] then d.(worker := Done)
      else d.(worker := Handling(d.q[0]), q := d.q[1..])
    case Spurious => d.(worker := Woken(d.worker))
    case Handled => if !d.worker.Handling? then d
                    else d.(worker := AtWait, processed := d.processed + [d.worker.e])
    case RequestStop => d.(stopRequested := true, stopper := Flagged, pushedAtStop := |d.pushed|)
    case NotifyAll => d.(stopper := Joining, worker := Woken(d.worker))
    case Join => d.(stopper := Joined, running := false)
    case Clear => d.(stopper := Returned, q := [])
  }

  // After start()
  function Boot<E>(): Db<E> { Db([], false, true, AtWait, NotCalled, multiset{}, 0, [], [], 0) }

  function After<E(==)>(run: seq<Act<E>>): Db<E> {
    if run == [] then Boot() else Step(After(run[..|run| - 1]), run[|run| - 1])
  }

  ghost predicate Possible<E>(run: seq<Act<E>>) {
    forall i :: 0 <= i < |run| ==> Enabled(After(run[..i]), run[i])
  }

  // ----- the invariant

  function InHand<E>(d: Db<E>): seq<E> { if d.worker.Handling? then [d.worker.e] else [] }

  ghost predicate Inv<E>(d: Db<E>) {
    // nothing is lost, duplicated or reordered
    && d.processed + InHand(d) <= d.pushed
    && (!d.stopper.Returned? ==> d.processed + InHand(d) + d.q == d.pushed)
    // no lost wake-up
    && (d.worker.Sleeping? && (d.q != [] || d.stopRequested) ==> d.toNotify > 0 || d.stopper.Flagged?)
    // stop
    && (d.stopRequested <==> !d.stopper.NotCalled?)
    && (d.running <==> !d.stopper.Joined? && !d.stopper.Returned?)
    && (d.worker.Done? ==> d.stopRequested && d.pushedAtStop <= |d.processed|)
    && (d.stopper.Joined? || d.stopper.Returned? ==> d.worker.Done?)
    && (d.stopRequested ==> d.pushedAtStop <= |d.pushed|)
  }

  lemma PushKeeps<E>(d: Db<E>, e: E)
    requires Inv(d) && Enabled(d, Push(e))
    ensures Inv(Step(d, Push(e)))
  {
    assert d.processed + InHand(d) + (d.q + [e]) == d.processed + InHand(d) + d.q + [e];
  }

  lemma WaitKeeps<E>(d: Db<E>)
    requires Inv(d) && Enabled(d, Wait)
    ensures Inv(Step(d, Wait))
  {
    assert d.processed + InHand(d) == d.processed;
    if d.q != [] {
      assert d.q == [d.q[0]] + d.q[1..];
      assert d.processed + d.q == d.processed + [d.q[0]] + d.q[1..];
    }
  }

  lemma HandledKeeps<E>(d: Db<E>)
    requires Inv(d) && Enabled(d, Handled)
    ensures Inv(Step(d, Handled))
  {
    var b := Step(d, Handled);
    assert b.processed + InHand(b) == b.processed == d.processed + InHand(d);
  }

  lemma InvStep<E>(d: Db<E>, a: Act<E>)
    requires Inv(d) && Enabled(d, a)
    ensures Inv(Step(d, a))
  {
    match a
    case Push(e) =>
      hide Inv, Step;
      PushKeeps(d, e);
    case Wait =>
      hide Inv, Step;
      WaitKeeps(d);
    case Handled =>
      hide Inv, Step;
      HandledKeeps(d);
    case _ =>
  }

  lemma {:induction false} PossibleInit<E>(run: seq<Act<E>>)
    requires Possible(run) && run != []
    ensures Possible(run[..|run| - 1]) && Enabled(After(run[..|run| - 1]), run[|run| - 1])
  {
    Initial(run);
  }

  lemma {:induction false} InvHolds<E>(run: seq<Act<E>>)
    requires Possible(run)
    ensures Inv(After(run))
  {
    if run != [] {
      PossibleInit(run);
      InvHolds(run[..|run| - 1]);
      InvStep(After(run[..|run| - 1]), run[|run| - 1]);
    }
  }

  // ----- results

  /** In every interleaving the processed events are a prefix of the pushed ones, in order, and a worker asleep while
      there is work or a stop request has a thread about to notify it. */
  lemma WorkerNeverSleepsOnWork<E>(run: seq<Act<E>>)
    requires Possible(run)
    ensures var d := After(run);
            && d.processed <= d.pushed
            && (d.worker.Sleeping? && (d.q != [] || d.stopRequested) ==> Enabled(d, Notify) || Enabled(d, NotifyAll))
  {
    InvHolds(run);
    SleepsOnlyIfToBeWoken(After(run));
    hide *;
  }

  lemma SleepsOnlyIfToBeWoken<E>(d: Db<E>)
    requires Inv(d)
    ensures d.processed <= d.pushed
    ensures d.worker.Sleeping? && (d.q != [] || d.stopRequested) ==> Enabled(d, Notify) || Enabled(d, NotifyAll)
  {
    assert d.processed <= d.processed + InHand(d);
  }

  /** Every event pushed before the stop flag was set has been processed when stop() has joined the thread. */
  lemma StopLosesNothing<E>(run: seq<Act<E>>)
    requires Possible(run) && (After(run).stopper.Joined? || After(run).stopper.Returned?)
    ensures var d := After(run);
            d.pushedAtStop <= |d.pushed| && d.pushed[..d.pushedAtStop] <= d.processed <= d.pushed
  {
    InvHolds(run);
  }

  // d comes after c, the state in which stop() was about to empty the queue
  ghost predicate Stopped<E>(c: Db<E>, d: Db<E>) {
    && d.stopper.Returned? && d.worker.Done? && !d.running
    && d.processed == c.processed && d.pushed == c.pushed + d.q && multiset(d.q) + d.admitted == c.admitted
  }

  lemma StoppedStep<E>(c: Db<E>, d: Db<E>, a: Act<E>)
    requires Stopped(c, d) && Enabled(d, a)
    ensures Stopped(c, Step(d, a))
  {
    match a
    case Push(e) =>
      assert c.pushed + (d.q + [e]) == c.pushed + d.q + [e];
      assert multiset(d.q + [e]) == multiset(d.q) + multiset{e};
      assert multiset{e} + (d.admitted - multiset{e}) == d.admitted;
    case _ =>
  }

  lemma ClearStops<E>(c: Db<E>)
    requires Inv(c) && Enabled(c, Clear)
    ensures Stopped(c, Step(c, Clear))
  {
    assert c.pushed + [] == c.pushed;
  }

  /** After stop() has emptied the queue nothing more is processed and no enqueue is admitted: the queue holds exactly
      what threads push that had seen running_ before, and it stays there for good. */
  lemma {:induction false} NothingAfterStop<E>(run: seq<Act<E>>, k: nat)
    requires Possible(run) && k < |run| && run[k] == Clear
    ensures Stopped(After(run[..k]), After(run))
  {
    var init, a := run[..|run| - 1], run[|run| - 1];
    PossibleInit(run);
    InvHolds(init);
    hide Inv, Possible, Step, Enabled, Stopped;
    if k == |run| - 1 {
      ClearStops(After(init));
    } else {
      assert init[..k] == run[..k];
      NothingAfterStop(init, k);
      StoppedStep(After(run[..k]), After(init), a);
    }
  }

  // What remains to be done before stop() can return
  function Remaining<E>(d: Db<E>): nat {
    2 * |d.q|
    + (match d.worker case Sleeping => 3 case AtWait => 2 case Handling(_) => 3 case Done => 0)
    + (match d.stopper case NotCalled => 4 case Flagged => 3 case Joining => 2 case Joined => 1 case Returned => 0)
  }

  lemma Snoc<E>(run: seq<Act<E>>, a: Act<E>)
    requires Possible(run) && Enabled(After(run), a)
    ensures Possible(run + [a]) && After(run + [a]) == Step(After(run), a)
  {
    var more := run + [a];
    assert more[..|run|] == run;
    forall i | 0 <= i < |more|
      ensures Enabled(After(more[..i]), more[i])
    {
      if i < |run| {
        assert more[..i] == run[..i] && more[i] == run[i];
      }
    }
  }

  // The step that brings a requested stop closer
  function Next<E>(d: Db<E>): Act<E> {
    if d.stopper.Flagged? then NotifyAll
    else if d.worker.Handling? then Handled
    else if d.worker.AtWait? then Wait
    else if d.worker.Sleeping? then Notify
    else if d.stopper.Joining? then Join
    else Clear
  }

  /** There is no deadlock: from every reachable state in which stop() has been called, the threads already running can
      bring it to return, and then everything pushed so far has been processed. */
  lemma {:induction false} StopCanReturn<E>(run: seq<Act<E>>) returns (end: seq<Act<E>>)
    requires Possible(run) && After(run).stopRequested
    ensures run <= end && Possible(end) && After(end).stopper.Returned?
    ensures After(end).pushed == After(run).pushed
    ensures !After(run).worker.Done? ==> After(end).processed == After(run).pushed
    decreases Remaining(After(run))
  {
    InvHolds(run);
    var d := After(run);
    if d.stopper.Returned? {
      end := run;
    } else {
      NextBringsCloser(d);
      Snoc(run, Next(d));
      hide Step, After, Possible, Inv, Remaining, Next;
      end := StopCanReturn(run + [Next(d)]);
      if !d.worker.Done? && Step(d, Next(d)).worker.Done? {
        DoneKeepsProcessed(run + [Next(d)], end);
      }
    }
  }

  lemma NextBringsCloser<E>(d: Db<E>)
    requires Inv(d) && d.stopRequested && !d.stopper.Returned?
    ensures var b := Step(d, Next(d));
            && Enabled(d, Next(d)) && Remaining(b) < Remaining(d)
            && b.stopRequested && b.pushed == d.pushed
            && (!d.worker.Done? && b.worker.Done? ==> b.processed == b.pushed)
  {}

  lemma {:induction false} DoneKeepsProcessed<E>(run: seq<Act<E>>, end: seq<Act<E>>)
    requires Possible(end) && run <= end && After(run).worker.Done?
    ensures After(end).worker.Done? && After(end).processed == After(run).processed
    decreases |end|
  {
    if |run| < |end| {
      PossibleInit(end);
      DoneKeepsProcessed(run, end[..|end| - 1]);
    } else {
      assert run == end;
    }
  }
}

/** db.cpp: the class. A thread that runs alone performs the atomic steps of DbQueue one after the other. */
module DbWriter {
  import opened Basics
  import opened DbQueue

  class DbWriter<E(==)> {
    var q: seq<E>
    var stopRequested: bool
    var running: bool
    var worker: Worker<E>
    var stopper: Stopper
    var admitted: multiset<E>
    var toNotify: nat
    ghost var pushed: seq<E>
    ghost var processed: seq<E>
    ghost var pushedAtStop: nat

    ghost function View(): Db<E>
      reads this
    {
      Db(q, stopRequested, running, worker, stopper, admitted, toNotify, pushed, processed, pushedAtStop)
    }

    constructor Start()
      ensures View() == Boot()
    {
      q, stopRequested, running, worker, stopper := [], false, true, AtWait, NotCalled;
      admitted, toNotify := multiset{}, 0;
      pushed, processed, pushedAtStop := [], [], 0;
    }

    // enqueue: the test of running_
    method EnqueueTest(e: E) returns (ok: bool)
      modifies this`admitted
      ensures ok == Enabled(old(View()), Admit(e))
      ensures View() == if ok then Step(old(View()), Admit(e)) else old(View())
    {
      if !running {
        return false;
      }
      admitted := admitted + multiset{e};
      return true;
    }

    // enqueue: the critical section
    method EnqueuePush(e: E)
      requires e in admitted
      modifies this
      ensures View() == Step(old(View()), Push(e))
    {
      admitted := admitted - multiset{e};
      q := q + [e];
      pushed := pushed + [e];
      toNotify := toNotify + 1;
    }

    // enqueue: cv_.notify_one()
    method EnqueueNotify()
      requires toNotify > 0
      modifies this
      ensures View() == Step(old(View()), Notify)
    {
      toNotify := toNotify - 1;
      if worker.Sleeping? {
        worker := AtWait;
      }
    }

    // worker_main: from the lock to the end of the block
    method WorkerWait()
      requires worker.AtWait?
      modifies this
      ensures View() == Step(old(View()), Wait)
    {
      if !(stopRequested || q != []) {
        worker := Sleeping;
        return;
      }
      if stopRequested && q == [] {
        worker := Done;
        return;
      }
      worker := Handling(q[0]);
      q := q[1..];
    }

    // worker_main: the visit, whose exceptions are swallowed
    method WorkerHandle()
      requires worker.Handling?
      modifies this
      ensures View() == Step(old(View()), Handled)
    {
      processed := processed + [worker.e];
      worker := AtWait;
    }

    // worker_main running alone after a stop request
    method WorkerMain()
      requires worker.AtWait? && stopRequested
      modifies this
      ensures worker.Done? && q == [] && processed == old(processed) + old(q)
      ensures View() == old(View()).(worker := Done, q := [], processed := processed)
    {
      while !worker.Done?
        invariant worker.AtWait? || (worker.Done? && q == [])
        invariant processed + q == old(processed) + old(q)
        invariant View() == old(View()).(worker := worker, q := q, processed := processed)
        decreases |q|, !worker.Done?
      {
        ghost var before := q;
        WorkerWait();
        if worker.Handling? {
          assert before == [before[0]] + q;
          WorkerHandle();
        }
      }
    }

    // One thread calls stop(), and the destructor may call it again
    method StopRequest() returns (ok: bool)
      requires Inv(View()) && (stopper.NotCalled? || stopper.Returned?)
      modifies this
      ensures ok == old(stopper).NotCalled? == Enabled(old(View()), RequestStop)
      ensures View() == if ok then Step(old(View()), RequestStop) else old(View())
    {
      if !running {
        return false;
      }
      stopRequested := true;
      stopper, pushedAtStop := Flagged, |pushed|;
      return true;
    }

    method StopNotify()
      requires stopper.Flagged?
      modifies this
      ensures View() == Step(old(View()), NotifyAll)
    {
      if worker.Sleeping? {
        worker := AtWait;
      }
      stopper := Joining;
    }

    method StopJoined()
      requires stopper.Joining? && worker.Done?
      modifies this
      ensures View() == Step(Step(old(View()), Join), Clear)
    {
      stopper := Joined;
      running := false;
      q := [];
      stopper := Returned;
    }
  }
}
