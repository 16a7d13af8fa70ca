/** Pending user interactions (koraku/agent/pending_interactions.py) as a protocol between the tasks
    that register, answer, cancel and wait.

    Popping an entry under the lock and completing its future are separate steps, so every
    interleaving of the tasks between the two is a run of this model. */
module PendingInteractions {
  import opened Wrappers
  import opened Json

  type Id = string

  /** The body of an answer, as far as an approval reads it. */
  datatype Reply = Reply(approved: bool, updatedInput: Option<Json>)

  datatype Future = Unfinished | Result(body: Reply) | Failed

  /** How `wait_for_response` ended. */
  datatype Outcome = Got(body: Reply) | TimedOut | WasCancelled

  /** Where a waiter stands: in `wait_for`; after a timeout, before `cancel` pops; with the popped
      entry in hand; before the final pop; done. */
  datatype Waiter =
    | Waiting
    | TimingOut
    | Failing
    | Cleaning(outcome: Outcome)
    | Finished(outcome: Outcome)

  /** A call of `resolve`, between its two steps or returned. */
  datatype Resolve =
    | Holding(id: Id, body: Reply)
    | Returned(id: Id, body: Reply, ok: bool)

  datatype State = State(
    pending: map<Id, Option<string>>,      // the run id of each registered entry
    futures: map<Id, Future>,
    waiters: map<Id, Waiter>,
    resolves: map<nat, Resolve>,           // by call
    cancels: map<nat, set<Id>>,            // popped ids that a `cancel` or `cancel_run` has in hand
    completions: seq<Id>)                  // the futures completed so far, in order

  const INIT := State(map[], map[], map[], map[], map[], [])

  datatype Step =
    | Register(id: Id, runId: Option<string>)
    | StartWait(id: Id)
    | ResolvePop(call: nat, id: Id, body: Reply)
    | ResolveComplete(call: nat)
    | CancelPop(call: nat, id: Id)
    | CancelRunPop(call: nat, run: string)
    | CancelComplete(call: nat, id: Id)
    | WaiterWakes(id: Id)
    | WaiterTimesOut(id: Id)
    | WaiterIsCancelled(id: Id)
    | WaiterPops(id: Id)
    | WaiterFails(id: Id)
    | WaiterCleans(id: Id)

  /** `future.set_result` or `set_exception`, if the future is not done. */
  function Complete(s: State, id: Id, f: Future): State {
    if id in s.futures && s.futures[id].Unfinished?
    then s.(futures := s.futures[id := f], completions := s.completions + [id])
    else s
  }

  function WaiterAt(s: State, id: Id): Option<Waiter> {
    if id in s.waiters then Some(s.waiters[id]) else None
  }

  function Move(s: State, id: Id, w: Waiter): State {
    s.(waiters := s.waiters[id := w])
  }

  /** The state behind a step, or None when the step cannot be taken. */
  function Next(s: State, step: Step): Option<State> {
    match step
    case Register(id, runId) =>
      if id in s.futures then None
      else Some(s.(pending := s.pending[id := runId], futures := s.futures[id := Unfinished]))
    case StartWait(id) =>
      if id !in s.futures || id in s.waiters then None else Some(Move(s, id, Waiting))
    case ResolvePop(call, id, body) =>
      if call in s.resolves then None
      else if id !in s.pending then Some(s.(resolves := s.resolves[call := Returned(id, body, false)]))
      else Some(s.(pending := s.pending - {id}, resolves := s.resolves[call := Holding(id, body)]))
    case ResolveComplete(call) =>
      if call !in s.resolves || s.resolves[call].Returned? then None
      else
        var Holding(id, body) := s.resolves[call];
        var ok := id in s.futures && s.futures[id].Unfinished?;
        Some(Complete(s, id, Result(body)).(resolves := s.resolves[call := Returned(id, body, ok)]))
    case CancelPop(call, id) =>
      if call in s.cancels then None
      else Some(s.(pending := s.pending - {id}, cancels := s.cancels[call := if id in s.pending then {id} else {}]))
    case CancelRunPop(call, runId) =>
      if call in s.cancels || runId == "" then None
      else
        var ids := set id | id in s.pending && s.pending[id] == Some(runId);
        Some(s.(pending := s.pending - ids, cancels := s.cancels[call := ids]))
    case CancelComplete(call, id) =>
      if call !in s.cancels || id !in s.cancels[call] then None
      else Some(Complete(s, id, Failed).(cancels := s.cancels[call := s.cancels[call] - {id}]))
    case WaiterWakes(id) =>
      if WaiterAt(s, id) != Some(Waiting) || id !in s.futures then None
      else
        (match s.futures[id]
         case Unfinished => None
         case Result(body) => Some(Move(s, id, Cleaning(Got(body))))
         case Failed => Some(Move(s, id, TimingOut)))
    case WaiterTimesOut(id) =>
      if WaiterAt(s, id) != Some(Waiting) then None else Some(Move(s, id, TimingOut))
    case WaiterIsCancelled(id) =>
      if WaiterAt(s, id) != Some(Waiting) && WaiterAt(s, id) != Some(TimingOut) then None
      else Some(Move(s, id, Cleaning(WasCancelled)))
    case WaiterPops(id) =>
      if WaiterAt(s, id) != Some(TimingOut) then None
      else Some(Move(s.(pending := s.pending - {id}), id, if id in s.pending then Failing else Cleaning(TimedOut)))
    case WaiterFails(id) =>
      if WaiterAt(s, id) != Some(Failing) then None
      else Some(Move(Complete(s, id, Failed), id, Cleaning(TimedOut)))
    case WaiterCleans(id) =>
      if WaiterAt(s, id).None? || !WaiterAt(s, id).value.Cleaning? then None
      else Some(Move(s.(pending := s.pending - {id}), id, Finished(s.waiters[id].outcome)))
  }

  function Run(s: State, steps: seq<Step>): Option<State>
    decreases |steps|
  {
    if steps == [] then Some(s) else
    var t :- Next(s, steps[0]);
    Run(t, steps[1..])
  }

  // The code, one method for each stretch between two suspensions.

  /** The shared dictionary and the futures, and, as ghosts, where the tasks of the process stand. */
  class Interactions {
    var pending: map<Id, Option<string>>
    var futures: map<Id, Future>
    ghost var waiters: map<Id, Waiter>
    ghost var resolves: map<nat, Resolve>
    ghost var cancels: map<nat, set<Id>>
    ghost var completions: seq<Id>

    ghost function Now(): State
      reads this
    {
      State(pending, futures, waiters, resolves, cancels, completions)
    }

    constructor ()
      ensures Now() == INIT
    {
      pending, futures, waiters, resolves, cancels, completions := map[], map[], map[], map[], map[], [];
    }

    /** `register` */
    method Enter(id: Id, runId: Option<string>)
      requires id !in futures
      modifies this
      ensures Next(old(Now()), Register(id, runId)) == Some(Now())
    {
      futures := futures[id := Unfinished];
      pending := pending[id := runId];
    }

    /** `_pending.pop(id, None)` */
    method Pop(id: Id) returns (found: bool)
      modifies this`pending
      ensures pending == old(pending) - {id} && found == (id in old(pending))
    {
      found := id in pending;
      pending := pending - {id};
    }

    /** The completion of a future that is not done. */
    method Finish(id: Id, f: Future)
      requires id in futures && futures[id].Unfinished?
      modifies this`futures, this`completions
      ensures futures == old(futures)[id := f] && completions == old(completions) + [id]
    {
      futures := futures[id := f];
      completions := completions + [id];
    }

    /** The first half of `resolve`; without an entry it returns false at once. */
    method ResolveUnderLock(ghost call: nat, id: Id, ghost body: Reply) returns (found: bool)
      requires call !in resolves
      modifies this
      ensures found == (id in old(pending)) && Next(old(Now()), ResolvePop(call, id, body)) == Some(Now())
    {
      found := Pop(id);
      assert !found ==> pending == old(pending);
      resolves := resolves[call := if found then Holding(id, body) else Returned(id, body, false)];
    }

    /** The second half of `resolve`, with the popped entry in hand. */
    method ResolveFuture(ghost call: nat, id: Id, body: Reply) returns (ok: bool)
      requires call in resolves && resolves[call] == Holding(id, body)
      modifies this
      ensures ok == (id in old(futures) && old(futures)[id].Unfinished?)
      ensures Next(old(Now()), ResolveComplete(call)) == Some(Now())
    {
      ok := id in futures && futures[id].Unfinished?;
      if ok {
        Finish(id, Result(body));
      }
      resolves := resolves[call := Returned(id, body, ok)];
    }

    /** The first half of `cancel`. */
    method CancelUnderLock(ghost call: nat, id: Id) returns (found: bool)
      requires call !in cancels
      modifies this
      ensures found == (id in old(pending)) && Next(old(Now()), CancelPop(call, id)) == Some(Now())
    {
      found := Pop(id);
      cancels := cancels[call := if found then {id} else {}];
    }

    /** The first half of `cancel_run`: every entry of the run is popped. */
    method CancelRunUnderLock(ghost call: nat, runId: string) returns (ids: set<Id>)
      requires call !in cancels && runId != ""
      modifies this
      ensures Next(old(Now()), CancelRunPop(call, runId)) == Some(Now()) && cancels[call] == ids
      ensures forall id :: id in ids <==> id in old(pending) && old(pending)[id] == Some(runId)
      ensures pending == old(pending) - ids
    {
      ids := set id | id in pending && pending[id] == Some(runId);
      var left := ids;
      while left != {}
        invariant left <= ids && pending == old(pending) - (ids - left)
        invariant Now() == old(Now()).(pending := pending)
        decreases left
      {
        var id: Id :| id in left;
        var _ := Pop(id);
        assert ids - (left - {id}) == ids - left + {id};
        left := left - {id};
      }
      assert ids - left == ids;
      cancels := cancels[call := ids];
    }

    /** The second half of `cancel` and of `cancel_run`, for one popped entry. */
    method CancelFuture(ghost call: nat, id: Id)
      requires call in cancels && id in cancels[call]
      modifies this
      ensures Next(old(Now()), CancelComplete(call, id)) == Some(Now())
    {
      if id in futures && futures[id].Unfinished? {
        Finish(id, Failed);
      }
      cancels := cancels[call := cancels[call] - {id}];
    }

    /** The `cancel` that a waiter calls when its time is up: the pop. */
    method WaiterUnderLock(id: Id) returns (found: bool)
      requires WaiterAt(Now(), id) == Some(TimingOut)
      modifies this
      ensures found == (id in old(pending)) && Next(old(Now()), WaiterPops(id)) == Some(Now())
    {
      found := Pop(id);
      waiters := waiters[id := if found then Failing else Cleaning(TimedOut)];
    }

    /** The same `cancel`: the future. */
    method WaiterFailsFuture(id: Id)
      requires WaiterAt(Now(), id) == Some(Failing)
      modifies this
      ensures Next(old(Now()), WaiterFails(id)) == Some(Now())
    {
      if id in futures && futures[id].Unfinished? {
        Finish(id, Failed);
      }
      waiters := waiters[id := Cleaning(TimedOut)];
    }

    /** The `finally` of `wait_for_response`. */
    method WaiterLeaves(id: Id, ghost outcome: Outcome)
      requires WaiterAt(Now(), id) == Some(Cleaning(outcome))
      modifies this
      ensures Next(old(Now()), WaiterCleans(id)) == Some(Now())
    {
      var _ := Pop(id);
      waiters := waiters[id := Finished(outcome)];
    }
  }

  // The invariant.

  /** Call `c` of `resolve` returned true for `id`. */
  predicate Won(s: State, c: nat, id: Id, body: Reply) {
    c in s.resolves && s.resolves[c] == Returned(id, body, true)
  }

  predicate HeldByResolve(s: State, c: nat, id: Id) {
    c in s.resolves && s.resolves[c].Holding? && s.resolves[c].id == id
  }

  predicate HeldByCancel(s: State, c: nat, id: Id) {
    c in s.cancels && id in s.cancels[c]
  }

  /** The waiter of `id` has been given `body`. */
  predicate GotBy(s: State, id: Id, body: Reply) {
    WaiterAt(s, id) == Some(Cleaning(Got(body))) || WaiterAt(s, id) == Some(Finished(Got(body)))
  }

  /** An id that is still registered has an unfinished future. */
  ghost predicate PendingUnfinished(s: State) {
    forall id :: id in s.pending ==> id in s.futures && s.futures[id].Unfinished?
  }

  predicate Popped(s: State, id: Id) {
    id in s.futures && id !in s.pending
  }

  /** What some task has in hand was popped for good. */
  ghost predicate PoppedForGood(s: State) {
    && (forall c, id :: HeldByResolve(s, c, id) ==> Popped(s, id))
    && (forall c, id :: HeldByCancel(s, c, id) ==> Popped(s, id))
    && (forall id :: WaiterAt(s, id) == Some(Failing) ==> Popped(s, id))
    && (forall id :: id in s.waiters ==> id in s.futures)
  }

  /** No future is completed twice, and exactly the completed ones are finished. */
  ghost predicate CompletedOnce(s: State) {
    && (forall i, j :: 0 <= i < j < |s.completions| ==> s.completions[i] != s.completions[j])
    && (forall id :: id in s.completions <==> id in s.futures && !s.futures[id].Unfinished?)
  }

  /** A result was set by exactly one `resolve`, the only one that returned true for its id. */
  ghost predicate OneWinner(s: State) {
    && (forall c, id, body :: Won(s, c, id, body) ==> id in s.futures && s.futures[id] == Result(body))
    && (forall c, d, id, b1, b2 :: Won(s, c, id, b1) && Won(s, d, id, b2) ==> c == d)
    && (forall id :: id in s.futures && s.futures[id].Result? ==>
          exists c :: Won(s, c, id, s.futures[id].body))
  }

  /** An answer that a waiter got is the result of its future. */
  ghost predicate Delivered(s: State) {
    forall id, body :: GotBy(s, id, body) ==> id in s.futures && s.futures[id] == Result(body)
  }

  ghost predicate Inv(s: State) {
    PendingUnfinished(s) && PoppedForGood(s) && CompletedOnce(s) && OneWinner(s) && Delivered(s)
  }

  /** Futures stay, and only a fresh id enters the dictionary. */
  lemma OnlyFreshEnter(s: State, step: Step, t: State)
    requires Next(s, step) == Some(t)
    ensures forall id :: id in s.futures ==> id in t.futures
    ensures forall id :: id in t.pending ==> id in s.pending || id !in s.futures
  {
  }

  lemma UnfinishedKept(s: State, step: Step, t: State)
    requires Inv(s) && Next(s, step) == Some(t)
    ensures PendingUnfinished(t)
  {
    hide CompletedOnce, OneWinner, Delivered, Complete, Next, PendingUnfinished, PoppedForGood;
    match step
    case ResolveComplete(call) =>
      CompletionIs(s, step, t);
      CompletedIsPopped(s, step);
      UnfinishedBeside(s, s.resolves[call].id, Result(s.resolves[call].body), t);
    case CancelComplete(call, id) =>
      CompletionIs(s, step, t);
      CompletedIsPopped(s, step);
      UnfinishedBeside(s, id, Failed, t);
    case WaiterFails(id) =>
      CompletionIs(s, step, t);
      CompletedIsPopped(s, step);
      UnfinishedBeside(s, id, Failed, t);
    case Register(id, _) =>
      RegisteringIs(s, step, t);
      RegisteredIsUnfinished(s, step, t);
    case _ =>
      OtherSteps(s, step, t);
      StillUnfinished(s, step, t);
  }

  /** What a step may complete has been popped before. */
  lemma CompletedIsPopped(s: State, step: Step)
    requires PoppedForGood(s) && Next(s, step).Some?
    ensures step.ResolveComplete? ==> Popped(s, s.resolves[step.call].id)
    ensures step.CancelComplete? || step.WaiterFails? ==> Popped(s, step.id)
  {
    hide Complete;
    match step
    case ResolveComplete(call) => assert HeldByResolve(s, call, s.resolves[call].id);
    case CancelComplete(call, id) => assert HeldByCancel(s, call, id);
    case _ =>
  }

  lemma UnfinishedBeside(s: State, id: Id, f: Future, t: State)
    requires PendingUnfinished(s) && id !in s.pending
    requires t.futures == Complete(s, id, f).futures && t.pending == s.pending
    ensures PendingUnfinished(t)
  {
  }

  lemma RegisteredIsUnfinished(s: State, step: Step, t: State)
    requires PendingUnfinished(s) && Next(s, step) == Some(t) && step.Register?
    ensures PendingUnfinished(t)
  {
  }

  lemma StillUnfinished(s: State, step: Step, t: State)
    requires PendingUnfinished(s) && Next(s, step) == Some(t) && !step.Register? && t.futures == s.futures
    ensures PendingUnfinished(t)
  {
    PendingShrinks(s, step, t);
  }

  lemma PendingShrinks(s: State, step: Step, t: State)
    requires Next(s, step) == Some(t) && !step.Register?
    ensures forall id :: id in t.pending ==> id in s.pending
  {
  }

  lemma ResolveEffect(s: State, step: Step, t: State, c: nat)
    requires Next(s, step) == Some(t) && c in t.resolves
    ensures || (c in s.resolves && t.resolves[c] == s.resolves[c])
            || (step.ResolvePop? && t.resolves[c] == Returned(step.id, step.body, false))
            || (step.ResolvePop? && t.resolves[c] == Holding(step.id, step.body)
                && step.id in s.pending && step.id !in t.pending)
            || (step == ResolveComplete(c) && c in s.resolves && s.resolves[c].Holding?
                && var id := s.resolves[c].id;
                   t.resolves[c] == Returned(id, s.resolves[c].body, id in s.futures && s.futures[id].Unfinished?))
  {
  }

  lemma CancelEffect(s: State, step: Step, t: State, c: nat, id: Id)
    requires Next(s, step) == Some(t) && HeldByCancel(t, c, id)
    ensures HeldByCancel(s, c, id) || (id in s.pending && id !in t.pending)
  {
  }

  lemma FailingEffect(s: State, step: Step, t: State, id: Id)
    requires Next(s, step) == Some(t) && WaiterAt(t, id) == Some(Failing)
    ensures WaiterAt(s, id) == Some(Failing) || (id in s.pending && id !in t.pending)
  {
  }

  lemma GotEffect(s: State, step: Step, t: State, id: Id, body: Reply)
    requires Next(s, step) == Some(t) && GotBy(t, id, body)
    ensures GotBy(s, id, body) || (id in s.futures && s.futures[id] == Result(body))
  {
    if step.WaiterCleans? && step.id == id {
      assert WaiterAt(t, id) == Some(Finished(s.waiters[id].outcome));
    }
  }

  lemma WaitingEffect(s: State, step: Step, t: State, id: Id)
    requires Next(s, step) == Some(t) && id in t.waiters
    ensures id in s.waiters || id in s.futures
  {
  }

  /** A finished future keeps its value; a result comes only from a `resolve` that returns true. */
  lemma FutureEffect(s: State, step: Step, t: State, id: Id)
    requires Next(s, step) == Some(t)
    ensures id in s.futures && !s.futures[id].Unfinished? ==> id in t.futures && t.futures[id] == s.futures[id]
    ensures id in t.futures && t.futures[id].Result? ==>
              || (id in s.futures && s.futures[id] == t.futures[id])
              || (step.ResolveComplete? && Won(t, step.call, id, t.futures[id].body))
  {
  }

  lemma WinnerEffect(s: State, step: Step, t: State, c: nat)
    requires Next(s, step) == Some(t)
    ensures c in s.resolves && s.resolves[c].Returned? ==> c in t.resolves && t.resolves[c] == s.resolves[c]
    ensures step == ResolveComplete(c) && c in s.resolves && s.resolves[c].Holding? ==>
              var Holding(id, body) := s.resolves[c];
              id in s.futures && s.futures[id].Unfinished? ==> id in t.futures && t.futures[id] == Result(body)
  {
  }

  lemma PendingKept(s: State, step: Step, t: State)
    requires Inv(s) && Next(s, step) == Some(t)
    ensures PendingUnfinished(t) && PoppedForGood(t)
  {
    hide Next, PendingUnfinished, CompletedOnce, OneWinner, Delivered, WaiterAt, GotBy;
    UnfinishedKept(s, step, t);
    assert forall id :: id in s.pending ==> id in s.futures by { PendingKnown(s); }
    OnlyFreshEnter(s, step, t);
    forall c, id | HeldByResolve(t, c, id)
      ensures Popped(t, id)
    {
      ResolveEffect(s, step, t, c);
      if c in s.resolves && t.resolves[c] == s.resolves[c] {
        assert HeldByResolve(s, c, id);
      }
    }
    forall c, id | HeldByCancel(t, c, id)
      ensures Popped(t, id)
    {
      CancelEffect(s, step, t, c, id);
    }
    forall id: Id
      ensures WaiterAt(t, id) == Some(Failing) ==> Popped(t, id)
      ensures id in t.waiters ==> id in t.futures
    {
      if WaiterAt(t, id) == Some(Failing) {
        FailingEffect(s, step, t, id);
      }
      if id in t.waiters {
        WaitingEffect(s, step, t, id);
      }
    }
  }

  lemma PendingKnown(s: State)
    requires PendingUnfinished(s)
    ensures forall id :: id in s.pending ==> id in s.futures
  {
  }

  /** Completing an unfinished future once more keeps the log free of repetitions. */
  lemma CompletionKept(s: State, id: Id, f: Future)
    requires CompletedOnce(s) && !f.Unfinished?
    ensures CompletedOnce(Complete(s, id, f))
  {
  }

  lemma CompletedKept(s: State, step: Step, t: State)
    requires Inv(s) && Next(s, step) == Some(t)
    ensures CompletedOnce(t)
  {
    hide PendingUnfinished, PoppedForGood, OneWinner, Delivered, Complete, CompletedOnce, Next;
    match step
    case ResolveComplete(call) =>
      CompletionIs(s, step, t);
      CompletionKept(s, s.resolves[call].id, Result(s.resolves[call].body));
      SameLog(Complete(s, s.resolves[call].id, Result(s.resolves[call].body)), t);
    case CancelComplete(call, id) =>
      CompletionIs(s, step, t);
      CompletionKept(s, id, Failed);
      SameLog(Complete(s, id, Failed), t);
    case WaiterFails(id) =>
      CompletionIs(s, step, t);
      CompletionKept(s, id, Failed);
      SameLog(Complete(s, id, Failed), t);
    case Register(id, _) =>
      RegisteringIs(s, step, t);
      NewFutureKept(s, id, t);
    case _ =>
      OtherSteps(s, step, t);
      SameLog(s, t);
  }

  lemma CompletionIs(s: State, step: Step, t: State)
    requires Next(s, step) == Some(t)
    ensures step.ResolveComplete? || step.CancelComplete? || step.WaiterFails? ==> t.pending == s.pending
    ensures step.ResolveComplete? ==>
              && step.call in s.resolves && s.resolves[step.call].Holding?
              && var Holding(id, body) := s.resolves[step.call];
                 && t.futures == Complete(s, id, Result(body)).futures
                 && t.completions == Complete(s, id, Result(body)).completions
    ensures step.CancelComplete? || step.WaiterFails? ==>
              t.futures == Complete(s, step.id, Failed).futures && t.completions == Complete(s, step.id, Failed).completions
  {
    hide WaiterAt;
  }

  lemma RegisteringIs(s: State, step: Step, t: State)
    requires Next(s, step) == Some(t) && step.Register?
    ensures step.id !in s.futures && t.futures == s.futures[step.id := Unfinished] && t.completions == s.completions
  {
  }

  lemma OtherSteps(s: State, step: Step, t: State)
    requires Next(s, step) == Some(t)
    requires !step.ResolveComplete? && !step.CancelComplete? && !step.WaiterFails? && !step.Register?
    ensures t.futures == s.futures && t.completions == s.completions
  {
    hide Complete, WaiterAt;
  }

  lemma SameLog(s: State, t: State)
    requires CompletedOnce(s) && t.futures == s.futures && t.completions == s.completions
    ensures CompletedOnce(t)
  {
  }

  lemma NewFutureKept(s: State, id: Id, t: State)
    requires CompletedOnce(s) && id !in s.futures
    requires t.futures == s.futures[id := Unfinished] && t.completions == s.completions
    ensures CompletedOnce(t)
  {
  }

  lemma WinnerKept(s: State, step: Step, t: State)
    requires Inv(s) && Next(s, step) == Some(t)
    ensures OneWinner(t)
  {
    hide Next, PendingUnfinished, PoppedForGood, CompletedOnce, Delivered;
    forall c, id, body | Won(t, c, id, body)
      ensures Won(s, c, id, body) || (step == ResolveComplete(c) && id in s.futures && s.futures[id].Unfinished?)
      ensures id in t.futures && t.futures[id] == Result(body)
    {
      ResolveEffect(s, step, t, c);
      WinnerEffect(s, step, t, c);
      if Won(s, c, id, body) {
        FutureEffect(s, step, t, id);
      }
    }
    forall id | id in t.futures && t.futures[id].Result?
      ensures exists c :: Won(t, c, id, t.futures[id].body)
    {
      FutureEffect(s, step, t, id);
      if id in s.futures && s.futures[id] == t.futures[id] {
        var c :| Won(s, c, id, s.futures[id].body);
        WinnerEffect(s, step, t, c);
        assert Won(t, c, id, t.futures[id].body);
      }
    }
  }

  lemma DeliveredKept(s: State, step: Step, t: State)
    requires Inv(s) && Next(s, step) == Some(t)
    ensures Delivered(t)
  {
    hide Next, PendingUnfinished, PoppedForGood, CompletedOnce, OneWinner, GotBy;
    forall id, body | GotBy(t, id, body)
      ensures id in t.futures && t.futures[id] == Result(body)
    {
      GotEffect(s, step, t, id, body);
      FutureEffect(s, step, t, id);
    }
  }

  lemma StepKeepsInv(s: State, step: Step, t: State)
    requires Inv(s) && Next(s, step) == Some(t)
    ensures Inv(t)
  {
    PendingKept(s, step, t);
    CompletedKept(s, step, t);
    WinnerKept(s, step, t);
    DeliveredKept(s, step, t);
  }

  lemma InitInv()
    ensures Inv(INIT)
  {
  }

  lemma {:induction false} RunKeepsInv(s: State, steps: seq<Step>)
    requires Inv(s) && Run(s, steps).Some?
    ensures Inv(Run(s, steps).value)
    decreases |steps|
  {
    hide Inv, Next;
    if steps != [] {
      StepKeepsInv(s, steps[0], Next(s, steps[0]).value);
      RunKeepsInv(Next(s, steps[0]).value, steps[1..]);
    }
  }

  lemma {:induction false} RegisterIsFresh(s: State, steps: seq<Step>, j: nat)
    requires Run(s, steps).Some? && j < |steps| && steps[j].Register?
    ensures steps[j].id !in s.futures
    decreases |steps|
  {
    if j > 0 {
      var t := Next(s, steps[0]).value;
      RegisterIsFresh(t, steps[1..], j - 1);
      OnlyFreshEnter(s, steps[0], t);
    }
  }

  /** No id is registered twice in a run. */
  lemma {:induction false} RegisteredOnce(s: State, steps: seq<Step>, i: nat, j: nat)
    requires Run(s, steps).Some? && i < j < |steps| && steps[i].Register? && steps[j].Register?
    ensures steps[i].id != steps[j].id
    decreases |steps|
  {
    var t := Next(s, steps[0]).value;
    if i == 0 {
      RegisterIsFresh(t, steps[1..], j - 1);
    } else {
      RegisteredOnce(t, steps[1..], i - 1, j - 1);
    }
  }

  /** Under every interleaving: a registered id has an unfinished future, no future is completed twice,
      at most one `resolve` per id returns true, and what a waiter gets is the body of that one. */
  lemma SafeInEveryRun(steps: seq<Step>)
    requires Run(INIT, steps).Some?
    ensures var s := Run(INIT, steps).value;
            && (forall id :: id in s.pending ==> id in s.futures && s.futures[id].Unfinished?)
            && (forall i, j :: 0 <= i < j < |s.completions| ==> s.completions[i] != s.completions[j])
            && (forall c, d, id, b1, b2 :: Won(s, c, id, b1) && Won(s, d, id, b2) ==> c == d)
            && (forall id, body :: GotBy(s, id, body) ==> exists c :: Won(s, c, id, body))
  {
    hide Next, Run, Won, GotBy;
    InitInv();
    RunKeepsInv(INIT, steps);
    var s := Run(INIT, steps).value;
    forall id, body | GotBy(s, id, body)
      ensures exists c :: Won(s, c, id, body)
    {
      assert s.futures[id] == Result(body);
    }
  }

  /** Once a `resolve` has returned true, a waiter that is neither timed out nor cancelled is still to
      wake, or has been given exactly that body. */
  lemma WinnerIsDelivered(steps: seq<Step>, c: nat, id: Id, body: Reply)
    requires Run(INIT, steps).Some? && Won(Run(INIT, steps).value, c, id, body)
    ensures var s := Run(INIT, steps).value;
            match WaiterAt(s, id)
            case None => true
            case Some(Waiting) => Next(s, WaiterWakes(id)) == Some(Move(s, id, Cleaning(Got(body))))
            case Some(Cleaning(Got(b))) => b == body
            case Some(Finished(Got(b))) => b == body
            case _ => true
  {
    hide Run;
    InitInv();
    RunKeepsInv(INIT, steps);
    var s := Run(INIT, steps).value;
    match WaiterAt(s, id)
    case Some(Cleaning(Got(b))) => assert GotBy(s, id, b);
    case Some(Finished(Got(b))) => assert GotBy(s, id, b);
    case _ =>
  }

  /** A true return of `resolve` does not mean delivery: the waiter may have timed out just before. */
  lemma TrueWithoutDelivery(id: Id, body: Reply)
    ensures exists steps ::
              && Run(INIT, steps).Some?
              && Won(Run(INIT, steps).value, 0, id, body)
              && WaiterAt(Run(INIT, steps).value, id) == Some(Finished(TimedOut))
  {
    var late := [Register(id, None), StartWait(id), WaiterTimesOut(id)];
    var answer := [ResolvePop(0, id, body), ResolveComplete(0)];
    var leave := [WaiterPops(id), WaiterCleans(id)];
    var s1 := INIT.(pending := map[id := None], futures := map[id := Unfinished]);
    var s3 := s1.(waiters := map[id := TimingOut]);
    var s4 := s3.(pending := map[], resolves := map[0 := Holding(id, body)]);
    var s5 := s4.(futures := map[id := Result(body)], completions := [id],
                  resolves := map[0 := Returned(id, body, true)]);
    var s7 := s5.(waiters := map[id := Finished(TimedOut)]);
    TimesOutFirst(id, s1, s3);
    AnswerComesLate(id, body, s3, s4, s5);
    WaiterGivesUp(id, s5, s7);
    hide Run, Next;
    RunConcat(INIT, late, answer + leave);
    RunConcat(s3, answer, leave);
    assert Run(INIT, late + (answer + leave)) == Some(s7);
    assert Won(s7, 0, id, body) && WaiterAt(s7, id) == Some(Finished(TimedOut));
  }

  lemma TimesOutFirst(id: Id, s1: State, s3: State)
    requires s1 == INIT.(pending := map[id := None], futures := map[id := Unfinished])
    requires s3 == s1.(waiters := map[id := TimingOut])
    ensures Run(INIT, [Register(id, None), StartWait(id), WaiterTimesOut(id)]) == Some(s3)
  {
    var s2 := Move(s1, id, Waiting);
    assert Next(INIT, Register(id, None)) == Some(s1);
    assert Next(s1, StartWait(id)) == Some(s2);
    assert s2.waiters[id := TimingOut] == s3.waiters;
    assert Next(s2, WaiterTimesOut(id)) == Some(s3);
    hide Run, Next;
    RunEnd(s3);
    RunNext(s2, WaiterTimesOut(id), [], s3);
    RunNext(s1, StartWait(id), [WaiterTimesOut(id)], s2);
    RunNext(INIT, Register(id, None), [StartWait(id), WaiterTimesOut(id)], s1);
  }

  lemma AnswerComesLate(id: Id, body: Reply, s3: State, s4: State, s5: State)
    requires s3.pending == map[id := None] && s3.futures == map[id := Unfinished]
    requires s3.resolves == map[] && s3.completions == []
    requires s4 == s3.(pending := map[], resolves := map[0 := Holding(id, body)])
    requires s5 == s4.(futures := map[id := Result(body)], completions := [id],
                       resolves := map[0 := Returned(id, body, true)])
    ensures Run(s3, [ResolvePop(0, id, body), ResolveComplete(0)]) == Some(s5)
  {
    assert s3.pending - {id} == map[];
    assert Next(s3, ResolvePop(0, id, body)) == Some(s4);
    assert s4.resolves[0 := Returned(id, body, true)] == s5.resolves;
    assert s4.futures[id := Result(body)] == s5.futures;
    assert s4.completions + [id] == [id];
    assert Next(s4, ResolveComplete(0)) == Some(s5);
    hide Run, Next;
    RunEnd(s5);
    RunNext(s4, ResolveComplete(0), [], s5);
    RunNext(s3, ResolvePop(0, id, body), [ResolveComplete(0)], s4);
  }

  lemma WaiterGivesUp(id: Id, s5: State, s7: State)
    requires s5.pending == map[] && s5.waiters == map[id := TimingOut]
    requires s7 == s5.(waiters := map[id := Finished(TimedOut)])
    ensures Run(s5, [WaiterPops(id), WaiterCleans(id)]) == Some(s7)
  {
    var s6 := s5.(waiters := map[id := Cleaning(TimedOut)]);
    assert s5.pending - {id} == s5.pending;
    assert s5.waiters[id := Cleaning(TimedOut)] == s6.waiters;
    assert Next(s5, WaiterPops(id)) == Some(s6);
    assert s6.waiters[id := Finished(TimedOut)] == s7.waiters;
    assert Next(s6, WaiterCleans(id)) == Some(s7);
    hide Run, Next;
    RunEnd(s7);
    RunNext(s6, WaiterCleans(id), [], s7);
    RunNext(s5, WaiterPops(id), [WaiterCleans(id)], s6);
  }

  lemma {:induction false} RunConcat(s: State, a: seq<Step>, b: seq<Step>)
    requires Run(s, a).Some?
    ensures Run(s, a + b) == Run(Run(s, a).value, b)
    decreases |a|
  {
    hide Next;
    if a == [] {
      assert a + b == b;
    } else {
      assert (a + b)[1..] == a[1..] + b;
      RunConcat(Next(s, a[0]).value, a[1..], b);
    }
  }

  lemma RunEnd(s: State)
    ensures Run(s, []) == Some(s)
  {
  }

  lemma RunNext(s: State, step: Step, later: seq<Step>, t: State)
    requires Next(s, step) == Some(t)
    ensures Run(s, [step] + later) == Run(t, later)
  {
    hide Next;
    assert ([step] + later)[1..] == later;
  }
}
