/** The cleaner's goroutine, the `done` channels and the deferred calls of main. */
module Shutdown {
  import opened Basics

  /** The goroutine that got into once.Do: in its select, inside Purge, or returned. */
  datatype Routine = NotStarted | Selecting | Purging | Returned

  datatype Connection = Unopened | Open | Closed

  datatype Deferred = CloseConnection | WaitSessionCleaner(manager: nat)

  datatype Process = Process(
    managers: nat,            // calls of NewManager so far; the k-th made the channel k
    winner: nat,              // whose goroutine runs the cleaner, once it has started
    cleaner: Routine,
    closes: seq<nat>,         // the channels closed so far, in order
    cancelled: set<nat>,      // the managers whose context has been cancelled
    database: Connection,
    mine: Option<nat>,        // main's own manager
    defers: seq<Deferred>,    // main's deferred calls, the next to run last
    returning: bool           // main is running its deferred calls
  )

  datatype Action =
    | Connect             // main opens the database and defers CloseConnection
    | MainManager         // main calls NewManager and defers WaitSessionCleaner
    | OtherManager        // someone else calls NewManager, with a context of its own
    | Enter(manager: nat) // that manager's goroutine is let into once.Do
    | Cancel(manager: nat)
    | PickTick            // also when cancelled: select chooses freely among what is ready
    | EndPurge
    | PickDone            // return, closing the channel on the way out
    | Return              // main has seen the cancellation
    | Unwind              // main runs its last deferred call to the end

  predicate Init(p: Process) {
    && p.managers == 0 && p.cleaner == NotStarted && p.closes == [] && p.cancelled == {}
    && p.database == Unopened && p.mine == None && p.defers == [] && !p.returning
  }

  predicate Legal(p: Process, a: Action) {
    match a
    case Connect => p.database.Unopened? && !p.returning
    case MainManager => p.database.Open? && p.mine == None && !p.returning
    case OtherManager => !p.database.Unopened?
    case Enter(m) => p.cleaner.NotStarted? && m < p.managers
    case Cancel(m) => m !in p.cancelled
    case PickTick => p.cleaner.Selecting?
    case EndPurge => p.cleaner.Purging?
    case PickDone => p.cleaner.Selecting? && p.winner in p.cancelled
    case Return => p.mine.Some? && p.mine.value in p.cancelled && !p.returning
    case Unwind =>
      && p.returning && p.defers != []
      && var call := p.defers[|p.defers| - 1];
      && (call.WaitSessionCleaner? ==> call.manager in p.closes)
  }

  function Do(p: Process, a: Action): Process
    requires Legal(p, a)
  {
    match a
    case Connect => p.(database := Open, defers := p.defers + [CloseConnection])
    case MainManager =>
      p.(managers := p.managers + 1, mine := Some(p.managers), defers := p.defers + [WaitSessionCleaner(p.managers)])
    case OtherManager => p.(managers := p.managers + 1)
    case Enter(m) => p.(cleaner := Selecting, winner := m)
    case Cancel(m) => p.(cancelled := p.cancelled + {m})
    case PickTick => p.(cleaner := Purging)
    case EndPurge => p.(cleaner := Selecting)
    case PickDone => p.(cleaner := Returned, closes := p.closes + [p.winner])
    case Return => p.(returning := true)
    case Unwind =>
      var call := p.defers[|p.defers| - 1];
      var rest := p.(defers := p.defers[..|p.defers| - 1]);
      if call.CloseConnection? then rest.(database := Closed) else rest
  }

  ghost predicate StepAt(states: seq<Process>, actions: seq<Action>, i: int)
    requires 0 <= i < |actions| < |states|
  {
    Legal(states[i], actions[i]) && states[i + 1] == Do(states[i], actions[i])
  }

  ghost predicate IsRun(states: seq<Process>, actions: seq<Action>) {
    && |states| == |actions| + 1
    && Init(states[0])
    && forall i {:trigger StepAt(states, actions, i)} :: 0 <= i < |actions| ==> StepAt(states, actions, i)
  }

  // ---- the invariant

  /** A channel is closed when its goroutine was the cleaner and has returned, and only then. */
  predicate ChannelsOk(p: Process) {
    && p.closes == (if p.cleaner.Returned? then [p.winner] else [])
    && (!p.cleaner.NotStarted? ==> p.winner < p.managers)
    && (p.cleaner.Returned? ==> p.winner in p.cancelled)
    && (p.mine.Some? ==> p.mine.value < p.managers)
  }

  /** The deferred calls run last in, first out: the wait is over before the database closes. */
  predicate DefersOk(p: Process) {
    && (p.returning ==> p.mine.Some? && p.mine.value in p.cancelled)
    && match p.database
       case Unopened => p.defers == [] && p.mine == None && p.managers == 0
       case Open =>
         || (p.mine == None && p.defers == [CloseConnection])
         || (p.mine.Some? && p.defers == [CloseConnection, WaitSessionCleaner(p.mine.value)])
         || (p.mine.Some? && p.returning && p.defers == [CloseConnection] && p.mine.value in p.closes)
       case Closed => p.mine.Some? && p.returning && p.defers == [] && p.mine.value in p.closes
  }

  lemma ActionKeeps(p: Process, a: Action)
    requires ChannelsOk(p) && DefersOk(p) && Legal(p, a)
    ensures ChannelsOk(Do(p, a)) && DefersOk(Do(p, a))
  {
  }

  lemma {:induction false} RunKeeps(states: seq<Process>, actions: seq<Action>, i: nat)
    requires IsRun(states, actions) && i < |states|
    ensures ChannelsOk(states[i]) && DefersOk(states[i])
    decreases i
  {
    if i > 0 {
      RunKeeps(states, actions, i - 1);
      assert StepAt(states, actions, i - 1);
      ActionKeeps(states[i - 1], actions[i - 1]);
    }
  }

  // ---- what it gives

  lemma {:induction false} ReturnedStays(states: seq<Process>, actions: seq<Action>, i: nat, k: nat)
    requires IsRun(states, actions) && i <= k < |states| && states[i].cleaner.Returned?
    ensures states[k].cleaner.Returned? && states[k].winner == states[i].winner
    decreases k
  {
    if i < k {
      ReturnedStays(states, actions, i, k - 1);
      assert StepAt(states, actions, k - 1);
    }
  }

  /** Over every interleaving `done` is closed at most once, and from then on no purge is
      running and none starts. */
  lemma ClosedOnceThenQuiet(states: seq<Process>, actions: seq<Action>, i: nat, k: nat)
    requires IsRun(states, actions) && i <= k < |states| && states[i].closes != []
    ensures states[k].closes == states[i].closes && |states[k].closes| == 1
    ensures !states[k].cleaner.Purging?
    ensures k < |actions| ==> !actions[k].PickTick? && !actions[k].PickDone?
  {
    RunKeeps(states, actions, i);
    RunKeeps(states, actions, k);
    ReturnedStays(states, actions, i, k);
    if k < |actions| { assert StepAt(states, actions, k); }
  }

  /** No purge runs or starts once the connection is closed, whichever managers exist. */
  lemma NoPurgeAfterClose(states: seq<Process>, actions: seq<Action>, i: nat, k: nat)
    requires IsRun(states, actions) && i <= k < |states| && states[i].database.Closed?
    ensures !states[k].cleaner.Purging?
    ensures k < |actions| ==> !actions[k].PickTick?
  {
    RunKeeps(states, actions, i);
    ClosedOnceThenQuiet(states, actions, i, k);
  }

  /** Main gets past WaitSessionCleaner only if its own manager's goroutine is the cleaner. */
  lemma WaitEndsForWinnerOnly(states: seq<Process>, actions: seq<Action>, k: nat)
    requires IsRun(states, actions) && k < |actions| && actions[k].Unwind?
    ensures states[k].cleaner.Returned? && Some(states[k].winner) == states[k].mine
  {
    RunKeeps(states, actions, k);
    assert StepAt(states, actions, k);
  }

  // ---- whether the process gets to close the database

  ghost predicate Path(p: Process, actions: seq<Action>, q: Process)
    decreases |actions|
  {
    if actions == [] then p == q
    else Legal(p, actions[0]) && Path(Do(p, actions[0]), actions[1..], q)
  }

  ghost predicate CanClose(p: Process) {
    exists actions, q :: Path(p, actions, q) && q.database.Closed?
  }

  lemma StepThenClose(p: Process, a: Action)
    requires Legal(p, a) && CanClose(Do(p, a))
    ensures CanClose(p)
  {
    var actions, q :| Path(Do(p, a), actions, q) && q.database.Closed?;
    assert ([a] + actions)[1..] == actions;
    assert Path(p, [a] + actions, q);
  }

  function Distance(cleaner: Routine): nat {
    match cleaner
    case NotStarted => 3
    case Purging => 2
    case Selecting => 1
    case Returned => 0
  }

  lemma {:induction false} WinnerCanClose(p: Process)
    requires ChannelsOk(p) && DefersOk(p) && p.returning
    requires p.cleaner.NotStarted? || Some(p.winner) == p.mine
    ensures CanClose(p)
    decreases Distance(p.cleaner), |p.defers|
  {
    if p.database.Closed? {
      assert Path(p, [], p);
    } else {
      var a := match p.cleaner
        case NotStarted => Enter(p.mine.value)
        case Purging => EndPurge
        case Selecting => PickDone
        case Returned => Unwind;
      ActionKeeps(p, a);
      WinnerCanClose(Do(p, a));
      StepThenClose(p, a);
    }
  }

  lemma {:induction false} LoserCannotClose(p: Process, actions: seq<Action>, q: Process)
    requires ChannelsOk(p) && DefersOk(p) && p.returning && Path(p, actions, q)
    requires !p.cleaner.NotStarted? && Some(p.winner) != p.mine
    ensures !q.database.Closed?
    decreases |actions|
  {
    if actions != [] {
      ActionKeeps(p, actions[0]);
      LoserCannotClose(Do(p, actions[0]), actions[1..], q);
    }
  }

  /** A process told to stop can get through its deferred calls exactly when main's own manager
      is, or can still become, the one whose goroutine runs the cleaner. */
  lemma ShutdownCompletes(states: seq<Process>, actions: seq<Action>, i: nat)
    requires IsRun(states, actions) && i < |states| && states[i].returning
    ensures CanClose(states[i]) <==> states[i].cleaner.NotStarted? || Some(states[i].winner) == states[i].mine
  {
    RunKeeps(states, actions, i);
    var p := states[i];
    if p.cleaner.NotStarted? || Some(p.winner) == p.mine {
      WinnerCanClose(p);
    } else if CanClose(p) {
      var path, q :| Path(p, path, q) && q.database.Closed?;
      LoserCannotClose(p, path, q);
    }
  }

  datatype Party = Main | Goroutine | Canceller(manager: nat) | Others

  function PartyOf(a: Action): Party {
    match a
    case Enter(_) => Goroutine
    case PickTick => Goroutine
    case EndPurge => Goroutine
    case PickDone => Goroutine
    case Cancel(m) => Canceller(m)
    case OtherManager => Others
    case _ => Main
  }

  /** Nobody takes a step away from another: new managers come while main is stopping, contexts
      are cancelled while a purge runs, and a cancellation does not stop even the start of
      another purge. */
  lemma NobodyBlocks(p: Process, a: Action, b: Action)
    requires Legal(p, a) && Legal(p, b) && PartyOf(a) != PartyOf(b)
    ensures Legal(Do(p, a), b)
  {
  }

  /** Some continuation leaves main waiting for a channel that nobody will close. */
  ghost predicate CanStrand(p: Process) {
    exists actions, q :: Path(p, actions, q) && q.returning && !CanClose(q)
  }

  lemma StepThenStrand(p: Process, a: Action)
    requires Legal(p, a) && CanStrand(Do(p, a))
    ensures CanStrand(p)
  {
    var actions, q :| Path(Do(p, a), actions, q) && q.returning && !CanClose(q);
    assert ([a] + actions)[1..] == actions;
    assert Path(p, [a] + actions, q);
  }

  lemma {:induction false} LoserStrands(p: Process)
    requires ChannelsOk(p) && DefersOk(p) && p.mine.Some?
    requires !p.cleaner.NotStarted? && Some(p.winner) != p.mine
    ensures CanStrand(p)
    decreases !p.returning, p.mine.value !in p.cancelled
  {
    if p.returning {
      forall actions, q | Path(p, actions, q) ensures !q.database.Closed? { LoserCannotClose(p, actions, q); }
      assert Path(p, [], p);
    } else if p.mine.value in p.cancelled {
      ActionKeeps(p, Return);
      LoserStrands(Do(p, Return));
      StepThenStrand(p, Return);
    } else {
      ActionKeeps(p, Cancel(p.mine.value));
      LoserStrands(Do(p, Cancel(p.mine.value)));
      StepThenStrand(p, Cancel(p.mine.value));
    }
  }

  /** While the cleaner has not started, every other manager can still be the one that gets in
      and leaves main waiting forever; once it has, that is settled. */
  lemma StrandedByAnyOther(states: seq<Process>, actions: seq<Action>, i: nat)
    requires IsRun(states, actions) && i < |states| && states[i].mine.Some?
    ensures states[i].cleaner.NotStarted? ==>
              forall m: nat :: m < states[i].managers && Some(m) != states[i].mine ==>
                Legal(states[i], Enter(m)) && CanStrand(Do(states[i], Enter(m)))
    ensures !states[i].cleaner.NotStarted? ==> (CanStrand(states[i]) <==> Some(states[i].winner) != states[i].mine)
  {
    RunKeeps(states, actions, i);
    var p := states[i];
    if p.cleaner.NotStarted? {
      forall m: nat | m < p.managers && Some(m) != p.mine ensures CanStrand(Do(p, Enter(m))) {
        ActionKeeps(p, Enter(m));
        LoserStrands(Do(p, Enter(m)));
      }
    } else if Some(p.winner) != p.mine {
      LoserStrands(p);
    } else if CanStrand(p) {
      var path, q :| Path(p, path, q) && q.returning && !CanClose(q);
      PathKeepsWinner(p, path, q);
      WinnerCanClose(q);
    }
  }

  lemma {:induction false} PathKeepsWinner(p: Process, path: seq<Action>, q: Process)
    requires ChannelsOk(p) && DefersOk(p) && p.mine == Some(p.winner) && !p.cleaner.NotStarted? && Path(p, path, q)
    ensures ChannelsOk(q) && DefersOk(q) && q.mine == Some(q.winner) && !q.cleaner.NotStarted?
    decreases |path|
  {
    if path != [] {
      ActionKeeps(p, path[0]);
      PathKeepsWinner(Do(p, path[0]), path[1..], q);
    }
  }

  lemma Continue(states: seq<Process>, actions: seq<Action>, a: Action)
    returns (longer: seq<Process>, path: seq<Action>)
    requires IsRun(states, actions) && Legal(states[|states| - 1], a)
    ensures IsRun(longer, path) && longer[|longer| - 1] == Do(states[|states| - 1], a)
  {
    longer, path := states + [Do(states[|states| - 1], a)], actions + [a];
    forall i | 0 <= i < |path| ensures StepAt(longer, path, i) {
      if i < |actions| { assert StepAt(states, actions, i); }
    }
  }

  /** The cleaner's select picks a tick although its context has been cancelled: main is already
      waiting, and the purge runs on the open database. */
  lemma PurgeAfterCancel() returns (states: seq<Process>, actions: seq<Action>)
    ensures IsRun(states, actions)
    ensures var p := states[|states| - 1];
            && p.cleaner.Purging? && p.winner in p.cancelled && p.mine == Some(p.winner)
            && p.returning && p.database.Open? && CanClose(p)
  {
    states, actions := [Process(0, 0, NotStarted, [], {}, Unopened, None, [], false)], [];
    states, actions := Continue(states, actions, Connect);
    states, actions := Continue(states, actions, MainManager);
    states, actions := Continue(states, actions, Enter(0));
    states, actions := Continue(states, actions, Cancel(0));
    states, actions := Continue(states, actions, Return);
    states, actions := Continue(states, actions, PickTick);
    ShutdownCompletes(states, actions, |states| - 1);
  }

  /** Main waits forever: the other manager's goroutine got into once.Do first, so although
      every context has been cancelled main's channel is never closed. */
  lemma MainWaitsForever() returns (states: seq<Process>, actions: seq<Action>)
    ensures IsRun(states, actions)
    ensures var p := states[|states| - 1];
            && p.managers == 2 && p.cancelled == {0, 1} && p.cleaner.Returned?
            && p.returning && p.mine == Some(0) && p.winner == 1 && !CanClose(p)
  {
    states, actions := [Process(0, 0, NotStarted, [], {}, Unopened, None, [], false)], [];
    states, actions := Continue(states, actions, Connect);
    states, actions := Continue(states, actions, MainManager);
    states, actions := Continue(states, actions, OtherManager);
    states, actions := Continue(states, actions, Enter(1));
    states, actions := Continue(states, actions, Cancel(0));
    states, actions := Continue(states, actions, Cancel(1));
    states, actions := Continue(states, actions, PickDone);
    states, actions := Continue(states, actions, Return);
    ShutdownCompletes(states, actions, |states| - 1);
  }
}
