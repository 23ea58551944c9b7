/**
 Running functions concurrently and collecting their errors: goroutines, a buffered channel and a
 wait group, as steps that interleave in any order.
 */
module Aggregate {
  import opened Options

  datatype Goroutine = Unborn | Running | Sent | Finished

  datatype Main = Spawning | Waiting | Collecting | Done

  // `results` is what each function will return; None is the nil error.  The channel has one place
  // for each function.
  datatype State = State(
    results: seq<Option<string>>,
    main: Main,
    spawned: nat,
    goroutines: seq<Goroutine>,
    buffer: seq<Option<string>>,
    closed: bool,
    group: int,
    errs: seq<string>)

  ghost predicate Init(s: State) {
    && s.main == Spawning && s.spawned == 0 && s.buffer == [] && !s.closed && s.group == 0 && s.errs == []
    && |s.goroutines| == |s.results| && forall i :: 0 <= i < |s.goroutines| ==> s.goroutines[i] == Unborn
  }

  // The loop: add one to the wait group and start the next goroutine.
  ghost predicate Spawn(s: State, s': State) {
    && s.main == Spawning && s.spawned < |s.results| && s.spawned < |s.goroutines|
    && s' == s.(spawned := s.spawned + 1, group := s.group + 1, goroutines := s.goroutines[s.spawned := Running])
  }

  ghost predicate EndSpawning(s: State, s': State) {
    s.main == Spawning && s.spawned >= |s.results| && s' == s.(main := Waiting)
  }

  // Goroutine j wants to send what its function returned.
  predicate Sending(s: State, j: nat) {
    j < |s.goroutines| && j < |s.results| && s.goroutines[j] == Running
  }

  // Sending blocks on a full channel.  Sending on a closed one panics.
  ghost predicate Send(s: State, s': State, j: nat) {
    && Sending(s, j) && !s.closed && |s.buffer| < |s.results|
    && s' == s.(goroutines := s.goroutines[j := Sent], buffer := s.buffer + [s.results[j]])
  }

  ghost predicate Finish(s: State, s': State, j: nat) {
    && j < |s.goroutines| && s.goroutines[j] == Sent
    && s' == s.(goroutines := s.goroutines[j := Finished], group := s.group - 1)
  }

  ghost predicate Close(s: State, s': State) {
    s.main == Waiting && s.group == 0 && s' == s.(main := Collecting, closed := true)
  }

  // The range over the channel: take the next error, leave when it is empty and closed.
  ghost predicate Receive(s: State, s': State) {
    && s.main == Collecting && s.buffer != []
    && s' == s.(buffer := s.buffer[1..], errs := s.errs + NonNil(s.buffer[0]))
  }

  ghost predicate Leave(s: State, s': State) {
    s.main == Collecting && s.buffer == [] && s.closed && s' == s.(main := Done)
  }

  ghost predicate Next(s: State, s': State) {
    || Spawn(s, s') || EndSpawning(s, s') || Close(s, s') || Receive(s, s') || Leave(s, s')
    || (exists j: nat :: Send(s, s', j)) || (exists j: nat :: Finish(s, s', j))
  }

  ghost predicate Run(run: seq<State>) {
    && |run| > 0 && Init(run[0])
    && forall i :: 0 <= i < |run| - 1 ==> Next(run[i], run[i + 1])
  }

  function NonNil(err: Option<string>): seq<string> {
    if err.Some? then [err.value] else []
  }

  function Bag(err: Option<string>): multiset<string> {
    if err.Some? then multiset{err.value} else multiset{}
  }

  function Errors(results: seq<Option<string>>): multiset<string> {
    if results == [] then multiset{}
    else Errors(results[..|results| - 1]) + Bag(results[|results| - 1])
  }

  /** `NewAggregate`: nil, or the errors it was given. */
  function NewAggregate(errs: seq<string>): Option<seq<string>> {
    if errs == [] then None else Some(errs)
  }

  /******* What the goroutines have done so far *******/

  predicate HasSent(g: Goroutine) {
    g == Sent || g == Finished
  }

  function Count(gs: seq<Goroutine>, kinds: set<Goroutine>): nat {
    if gs == [] then 0
    else Count(gs[..|gs| - 1], kinds) + if gs[|gs| - 1] in kinds then 1 else 0
  }

  function SentErrors(gs: seq<Goroutine>, results: seq<Option<string>>): multiset<string>
    requires |gs| == |results|
  {
    if gs == [] then multiset{}
    else
      var n := |gs| - 1;
      SentErrors(gs[..n], results[..n]) + if HasSent(gs[n]) then Bag(results[n]) else multiset{}
  }

  lemma {:induction false} CountUpdate(gs: seq<Goroutine>, kinds: set<Goroutine>, j: nat, g: Goroutine)
    requires j < |gs|
    ensures Count(gs[j := g], kinds) == Count(gs, kinds) - (if gs[j] in kinds then 1 else 0) + (if g in kinds then 1 else 0)
  {
    var n := |gs| - 1;
    if j < n {
      CountUpdate(gs[..n], kinds, j, g);
      assert gs[j := g][..n] == gs[..n][j := g];
    } else {
      assert gs[j := g][..n] == gs[..n];
    }
  }

  lemma {:induction false} CountAtMost(gs: seq<Goroutine>, kinds: set<Goroutine>, j: nat)
    requires j < |gs| && gs[j] !in kinds
    ensures Count(gs, kinds) < |gs|
  {
    CountBounded(gs[..|gs| - 1], kinds);
    if j < |gs| - 1 {
      CountAtMost(gs[..|gs| - 1], kinds, j);
    }
  }

  lemma {:induction false} CountBounded(gs: seq<Goroutine>, kinds: set<Goroutine>)
    ensures Count(gs, kinds) <= |gs|
  {
    if gs != [] {
      CountBounded(gs[..|gs| - 1], kinds);
    }
  }

  lemma {:induction false} CountNone(gs: seq<Goroutine>, kinds: set<Goroutine>)
    ensures Count(gs, kinds) == 0 <==> forall i :: 0 <= i < |gs| ==> gs[i] !in kinds
  {
    if gs != [] {
      CountNone(gs[..|gs| - 1], kinds);
    }
  }

  lemma {:induction false} SentUpdate(gs: seq<Goroutine>, results: seq<Option<string>>, j: nat, g: Goroutine)
    requires |gs| == |results| && j < |gs|
    ensures HasSent(gs[j]) == HasSent(g) ==> SentErrors(gs[j := g], results) == SentErrors(gs, results)
    ensures !HasSent(gs[j]) && HasSent(g) ==> SentErrors(gs[j := g], results) == SentErrors(gs, results) + Bag(results[j])
  {
    var n := |gs| - 1;
    if j < n {
      SentUpdate(gs[..n], results[..n], j, g);
      assert gs[j := g][..n] == gs[..n][j := g];
    } else {
      assert gs[j := g][..n] == gs[..n];
    }
  }

  lemma {:induction false} AllSent(gs: seq<Goroutine>, results: seq<Option<string>>)
    requires |gs| == |results| && forall i :: 0 <= i < |gs| ==> HasSent(gs[i])
    ensures SentErrors(gs, results) == Errors(results)
  {
    if gs != [] {
      AllSent(gs[..|gs| - 1], results[..|gs| - 1]);
    }
  }

  lemma {:induction false} NoneSent(gs: seq<Goroutine>, results: seq<Option<string>>)
    requires |gs| == |results| && forall i :: 0 <= i < |gs| ==> !HasSent(gs[i])
    ensures SentErrors(gs, results) == multiset{}
  {
    if gs != [] {
      NoneSent(gs[..|gs| - 1], results[..|gs| - 1]);
    }
  }

  /******* The invariant *******/

  ghost predicate Inv(s: State) {
    && |s.goroutines| == |s.results| && s.spawned <= |s.results|
    && (forall i :: 0 <= i < |s.goroutines| ==> (s.goroutines[i] == Unborn <==> i >= s.spawned))
    && s.group == Count(s.goroutines, {Running, Sent})
    && |s.buffer| <= Count(s.goroutines, {Sent, Finished})
    && (s.main != Spawning ==> s.spawned == |s.results|)
    && (s.closed <==> s.main == Collecting || s.main == Done)
    && (s.closed ==> forall i :: 0 <= i < |s.goroutines| ==> s.goroutines[i] == Finished)
    && multiset(s.errs) + Errors(s.buffer) == SentErrors(s.goroutines, s.results)
    && (s.main == Done ==> s.buffer == [])
  }

  lemma {:induction false} InvInit(s: State)
    requires Init(s)
    ensures Inv(s)
  {
    CountNone(s.goroutines, {Running, Sent});
    NoneSent(s.goroutines, s.results);
  }

  lemma {:induction false} InvSpawn(s: State, s': State)
    requires Inv(s) && Spawn(s, s')
    ensures Inv(s')
  {
    CountUpdate(s.goroutines, {Running, Sent}, s.spawned, Running);
    CountUpdate(s.goroutines, {Sent, Finished}, s.spawned, Running);
    SentUpdate(s.goroutines, s.results, s.spawned, Running);
  }

  lemma {:induction false} InvFinish(s: State, s': State, j: nat)
    requires Inv(s) && Finish(s, s', j)
    ensures Inv(s')
  {
    CountUpdate(s.goroutines, {Running, Sent}, j, Finished);
    CountUpdate(s.goroutines, {Sent, Finished}, j, Finished);
    SentUpdate(s.goroutines, s.results, j, Finished);
  }

  lemma {:induction false} InvClose(s: State, s': State)
    requires Inv(s) && Close(s, s')
    ensures Inv(s')
  {
    CountNone(s.goroutines, {Running, Sent});
  }

  lemma {:induction false} OneMoreError(buffer: seq<Option<string>>, err: Option<string>)
    ensures Errors(buffer + [err]) == Errors(buffer) + Bag(err)
  {
    assert (buffer + [err])[..|buffer|] == buffer;
  }

  lemma {:induction false} Regroup<T>(x: T, s: seq<T>)
    requires s != []
    ensures s == s[..|s| - 1] + [s[|s| - 1]] && [x] + s == ([x] + s[..|s| - 1]) + [s[|s| - 1]]
  {
  }

  lemma {:induction false} ErrorsFromFront(err: Option<string>, rest: seq<Option<string>>)
    ensures Errors([err] + rest) == Bag(err) + Errors(rest)
  {
    if rest == [] {
      OneMoreError([], err);
      assert [err] + rest == [] + [err];
    } else {
      var before, last := rest[..|rest| - 1], rest[|rest| - 1];
      Regroup(err, rest);
      ErrorsFromFront(err, before);
      OneMoreError([err] + before, last);
    }
  }

  // Taking the first error out of the channel.
  lemma {:induction false} Taken(buffer: seq<Option<string>>, errs: seq<string>)
    requires buffer != []
    ensures multiset(errs + NonNil(buffer[0])) + Errors(buffer[1..]) == multiset(errs) + Errors(buffer)
  {
    ErrorsFromFront(buffer[0], buffer[1..]);
    assert buffer == [buffer[0]] + buffer[1..];
    assert multiset(errs + NonNil(buffer[0])) == multiset(errs) + Bag(buffer[0]);
  }

  lemma {:induction false} InvReceive(s: State, s': State)
    requires Inv(s) && Receive(s, s')
    ensures Inv(s')
  {
    Taken(s.buffer, s.errs);
  }

  lemma {:induction false} SentIsInBuffer(s: State, s': State, j: nat)
    requires Inv(s) && Send(s, s', j)
    ensures multiset(s'.errs) + Errors(s'.buffer) == SentErrors(s'.goroutines, s'.results)
  {
    SentUpdate(s.goroutines, s.results, j, Sent);
    OneMoreError(s.buffer, s.results[j]);
  }

  lemma {:induction false} InvSend(s: State, s': State, j: nat)
    requires Inv(s) && Send(s, s', j)
    ensures Inv(s')
  {
    CountUpdate(s.goroutines, {Running, Sent}, j, Sent);
    CountUpdate(s.goroutines, {Sent, Finished}, j, Sent);
    SentIsInBuffer(s, s', j);
  }

  lemma {:induction false} InvNext(s: State, s': State)
    requires Inv(s) && Next(s, s')
    ensures Inv(s')
  {
    if Spawn(s, s') {
      InvSpawn(s, s');
    } else if Close(s, s') {
      InvClose(s, s');
    } else if Receive(s, s') {
      InvReceive(s, s');
    } else if j: nat :| Send(s, s', j) {
      InvSend(s, s', j);
    } else if j: nat :| Finish(s, s', j) {
      InvFinish(s, s', j);
    }
  }

  lemma {:induction false} InvHolds(run: seq<State>, i: nat)
    requires Run(run) && i < |run|
    ensures Inv(run[i])
  {
    if i == 0 {
      InvInit(run[0]);
    } else {
      InvHolds(run, i - 1);
      InvNext(run[i - 1], run[i]);
    }
  }

  /** In every interleaving a goroutine that wants to send can: the channel is open and has room. */
  lemma {:induction false} NoSenderBlocks(run: seq<State>, i: nat, j: nat)
    requires Run(run) && i < |run| && Sending(run[i], j)
    ensures !run[i].closed && |run[i].buffer| < |run[i].results|
  {
    InvHolds(run, i);
    CountAtMost(run[i].goroutines, {Sent, Finished}, j);
  }

  lemma {:induction false} NilMeansNone(results: seq<Option<string>>)
    ensures Errors(results) == multiset{} <==> forall i :: 0 <= i < |results| ==> results[i].None?
  {
    if results != [] {
      var n := |results| - 1;
      NilMeansNone(results[..n]);
      if results[n].Some? {
        assert results[n].value in Errors(results);
      }
    }
  }

  lemma {:induction false} ResultsStay(run: seq<State>, i: nat)
    requires Run(run) && i < |run|
    ensures run[i].results == run[0].results
  {
    if i > 0 {
      ResultsStay(run, i - 1);
      assert Next(run[i - 1], run[i]);
    }
  }

  // The functions that return this error.
  function Failing(results: seq<Option<string>>, err: string): set<nat> {
    set k: nat | k < |results| && results[k] == Some(err)
  }

  lemma {:induction false} FailingGrows(results: seq<Option<string>>, n: nat, err: string)
    requires |results| == n + 1
    ensures Failing(results, err) == Failing(results[..n], err) + if results[n] == Some(err) then {n} else {}
    ensures n !in Failing(results[..n], err)
  {
    assert forall k: nat :: k < n ==> results[..n][k] == results[k];
  }

  lemma {:induction false} BagMeans(err: Option<string>, e: string)
    ensures Bag(err)[e] == if err == Some(e) then 1 else 0
  {
  }

  lemma {:induction false} ErrorsMean(results: seq<Option<string>>, err: string)
    ensures Errors(results)[err] == |Failing(results, err)|
  {
    if results != [] {
      var n := |results| - 1;
      var before := results[..n];
      ErrorsMean(before, err);
      FailingGrows(results, n, err);
      BagMeans(results[n], err);
      assert Errors(results) == Errors(before) + Bag(results[n]);
    }
  }

  // What the aggregate returned holds: nil holds nothing.
  function Held(aggregate: Option<seq<string>>): multiset<string> {
    match aggregate
    case None => multiset{}
    case Some(errs) => multiset(errs)
  }

  /**
   When the aggregation is done, in whatever order the goroutines ran, the aggregate it returns holds
   each error as often as there are functions that return it; and it is nil exactly if every
   function returns nil.
   */
  lemma {:induction false} CollectsAll(run: seq<State>, i: nat)
    requires Run(run) && i < |run| && run[i].main == Done
    ensures forall err :: Held(NewAggregate(run[i].errs))[err] == |set k: nat | k < |run[0].results| && run[0].results[k] == Some(err)|
    ensures NewAggregate(run[i].errs).None? <==> forall k :: 0 <= k < |run[0].results| ==> run[0].results[k].None?
    ensures NewAggregate(run[i].errs) != Some([])
  {
    var s := run[i];
    InvHolds(run, i);
    ResultsStay(run, i);
    AllSent(s.goroutines, s.results);
    NilMeansNone(s.results);
    assert multiset(s.errs) == Errors(s.results);
    assert s.errs == [] <==> multiset(s.errs) == multiset{};
    forall err
      ensures Held(NewAggregate(s.errs))[err] == |Failing(s.results, err)|
    {
      ErrorsMean(s.results, err);
    }
  }

  /******* No deadlock, and an end *******/

  function MainWork(main: Main): nat {
    match main
    case Spawning => 3
    case Waiting => 2
    case Collecting => 1
    case Done => 0
  }

  // The steps still to be taken.
  function Work(s: State): nat {
    MainWork(s.main) + 4 * Count(s.goroutines, {Unborn}) + 3 * Count(s.goroutines, {Running}) + Count(s.goroutines, {Sent}) + |s.buffer|
  }

  lemma {:induction false} WorkUpdate(s: State, j: nat, g: Goroutine)
    requires j < |s.goroutines|
    ensures Count(s.goroutines[j := g], {Unborn}) == Count(s.goroutines, {Unborn}) - (if s.goroutines[j] == Unborn then 1 else 0) + (if g == Unborn then 1 else 0)
    ensures Count(s.goroutines[j := g], {Running}) == Count(s.goroutines, {Running}) - (if s.goroutines[j] == Running then 1 else 0) + (if g == Running then 1 else 0)
    ensures Count(s.goroutines[j := g], {Sent}) == Count(s.goroutines, {Sent}) - (if s.goroutines[j] == Sent then 1 else 0) + (if g == Sent then 1 else 0)
  {
    CountUpdate(s.goroutines, {Unborn}, j, g);
    CountUpdate(s.goroutines, {Running}, j, g);
    CountUpdate(s.goroutines, {Sent}, j, g);
  }

  lemma {:induction false} StepWorks(s: State, s': State)
    requires Inv(s) && Next(s, s')
    ensures Work(s') == Work(s) - 1
  {
    if Spawn(s, s') {
      WorkUpdate(s, s.spawned, Running);
    } else if j: nat :| Send(s, s', j) {
      WorkUpdate(s, j, Sent);
    } else if j: nat :| Finish(s, s', j) {
      WorkUpdate(s, j, Finished);
    }
  }

  // Some step is possible as long as main has not returned.
  lemma {:induction false} SomeStep(s: State) returns (s': State)
    requires Inv(s) && s.main != Done
    ensures Next(s, s')
  {
    if s.main == Spawning {
      s' := if s.spawned < |s.results| then
              s.(spawned := s.spawned + 1, group := s.group + 1, goroutines := s.goroutines[s.spawned := Running])
            else s.(main := Waiting);
    } else if s.main == Collecting {
      s' := if s.buffer != [] then s.(buffer := s.buffer[1..], errs := s.errs + NonNil(s.buffer[0])) else s.(main := Done);
    } else if s.group == 0 {
      s' := s.(main := Collecting, closed := true);
    } else {
      CountNone(s.goroutines, {Running, Sent});
      var j: nat :| j < |s.goroutines| && s.goroutines[j] in {Running, Sent};
      s' := GoroutineStep(s, j);
    }
  }

  lemma {:induction false} GoroutineStep(s: State, j: nat) returns (s': State)
    requires Inv(s) && !s.closed && j < |s.goroutines| && s.goroutines[j] in {Running, Sent}
    ensures Next(s, s')
  {
    if s.goroutines[j] == Running {
      CountAtMost(s.goroutines, {Sent, Finished}, j);
      s' := s.(goroutines := s.goroutines[j := Sent], buffer := s.buffer + [s.results[j]]);
      assert Send(s, s', j);
    } else {
      s' := s.(goroutines := s.goroutines[j := Finished], group := s.group - 1);
      assert Finish(s, s', j);
    }
  }

  lemma {:induction false} CountAll(gs: seq<Goroutine>)
    requires forall i :: 0 <= i < |gs| ==> gs[i] == Unborn
    ensures Count(gs, {Unborn}) == |gs| && Count(gs, {Running}) == 0 && Count(gs, {Sent}) == 0
  {
    if gs != [] {
      CountAll(gs[..|gs| - 1]);
    }
  }

  lemma {:induction false} WorkSoFar(run: seq<State>, i: nat)
    requires Run(run) && i < |run|
    ensures Work(run[i]) == 4 * |run[0].results| + 3 - i
  {
    if i == 0 {
      CountAll(run[0].goroutines);
    } else {
      WorkSoFar(run, i - 1);
      InvHolds(run, i - 1);
      StepWorks(run[i - 1], run[i]);
    }
  }

  /**
   No deadlock and no endless run: an interleaving can go on until main returns, and it returns
   after exactly four steps for each function and three more, in whatever order they come.
   */
  lemma {:induction false} ReturnsInTime(run: seq<State>)
    requires Run(run)
    ensures |run| - 1 <= 4 * |run[0].results| + 3
    ensures var last := run[|run| - 1];
            if last.main == Done then |run| - 1 == 4 * |run[0].results| + 3 else exists s' :: Next(last, s')
  {
    var last := run[|run| - 1];
    WorkSoFar(run, |run| - 1);
    InvHolds(run, |run| - 1);
    if last.main == Done {
      NothingLeft(last.goroutines);
    } else {
      var s' := SomeStep(last);
    }
  }

  lemma {:induction false} NothingLeft(gs: seq<Goroutine>)
    requires forall i :: 0 <= i < |gs| ==> gs[i] == Finished
    ensures Count(gs, {Unborn}) == 0 && Count(gs, {Running}) == 0 && Count(gs, {Sent}) == 0
  {
    if gs != [] {
      NothingLeft(gs[..|gs| - 1]);
    }
  }
}
