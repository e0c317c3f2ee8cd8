/**
 * The serialising mutation queue of `useQueuedMutation`: a FIFO of operation
 * records, of which at most one (always the oldest) is in flight at a time.
 *
 * The asynchronous parts are turned into explicit steps: `Submit` is the
 * returned `queue` function, `Schedule` is the body of the effect that starts
 * the next record, and `Settle` is the `.then/.catch/.finally` chain run when
 * the started executor resolves or rejects. Every callback the source invokes
 * and every executor it starts appends one `Event` to the observable `trace`.
 */
module QueuedMutation {
  import opened Options

  /** Which of the optional callbacks a callback set provides (the hook's
      options, or the per-call override set). */
  datatype Callbacks = Callbacks(hasOnMutate: bool, hasOnSuccess: bool, hasOnError: bool, hasOnSettled: bool)

  /** The callbacks of an absent override set: `mutationOptions?.onX?.(…)` calls nothing. */
  function Layer(overrides: Option<Callbacks>): (c: Callbacks)
    ensures c.hasOnSuccess <==> overrides.Some? && overrides.value.hasOnSuccess
    ensures c.hasOnError <==> overrides.Some? && overrides.value.hasOnError
    ensures c.hasOnSettled <==> overrides.Some? && overrides.value.hasOnSettled
  {
    if overrides.Some? then overrides.value else Callbacks(false, false, false, false)
  }

  /** One queued operation (`InFlightMutation`). `id` stands for the record's
      object identity; the executor is `mutateAsync(variables)`, so it is
      determined by `variables`. */
  datatype Record<V> = Record(id: nat, isInFlight: bool, variables: V, overrides: Option<Callbacks>)

  /** How a started executor settles. */
  datatype Outcome<D, Err> = Resolved(data: D) | Rejected(error: Err)

  /** Queue-level defaults are called before the per-call overrides. */
  datatype Tier = Defaults | Override

  /** The argument list of one completion callback. `OnSettled` carries the
      values the source actually passes: a placeholder result and error. */
  datatype Call<D, Err> =
    | OnSuccess(data: D)
    | OnError(error: Err)
    | OnSettled(result: Option<D>, failure: Option<Err>)

  /** What an observer of the queue sees happen. */
  datatype Event<V, D, Err> =
    | Mutated(variables: V)                                  // options.onMutate(variables)
    | Executed(variables: V)                                 // the record's executor is started
    | Callback(tier: Tier, call: Call<D, Err>, variables: V) // a completion callback

  /** `pendingMutations.current.some(m => m.isInFlight)` */
  function SomeInFlight<V>(s: seq<Record<V>>): (r: bool)
    ensures r <==> exists i :: 0 <= i < |s| && s[i].isInFlight
  {
    if s == [] then false else s[0].isInFlight || SomeInFlight(s[1..])
  }

  /** The number of records flagged in flight. */
  function CountInFlight<V>(s: seq<Record<V>>): nat
  {
    if s == [] then 0 else (if s[0].isInFlight then 1 else 0) + CountInFlight(s[1..])
  }

  lemma {:induction false} NoneInFlight<V>(s: seq<Record<V>>)
    requires forall i :: 0 <= i < |s| ==> !s[i].isInFlight
    ensures CountInFlight(s) == 0
  {
    if s != [] {
      NoneInFlight(s[1..]);
    }
  }

  /** When only the head may be in flight, at most one record is. */
  lemma {:induction false} OnlyHeadInFlight<V>(s: seq<Record<V>>)
    requires forall i :: 0 < i < |s| ==> !s[i].isInFlight
    ensures CountInFlight(s) <= 1
    ensures CountInFlight(s) == 1 <==> s != [] && s[0].isInFlight
  {
    if s != [] {
      NoneInFlight(s[1..]);
    }
  }

  /** `pendingMutations.current.filter(p => p !== nextMutation)`: drop every
      record with the given identity, keep the rest in order. */
  function Without<V>(s: seq<Record<V>>, id: nat): (r: seq<Record<V>>)
    ensures |r| <= |s|
  {
    if s == [] then []
    else (if s[0].id == id then [] else [s[0]]) + Without(s[1..], id)
  }

  /** The filter keeps exactly the records with another identity. */
  lemma {:induction false} WithoutMembers<V>(s: seq<Record<V>>, id: nat)
    ensures forall x :: x in Without(s, id) <==> x in s && x.id != id
  {
    if s != [] {
      WithoutMembers(s[1..], id);
      assert s == [s[0]] + s[1..];
    }
  }

  lemma {:induction false} WithoutAbsent<V>(s: seq<Record<V>>, id: nat)
    requires forall i :: 0 <= i < |s| ==> s[i].id != id
    ensures Without(s, id) == s
  {
    if s != [] {
      WithoutAbsent(s[1..], id);
    }
  }

  /** Removal by identity from a queue whose identities are distinct removes
      exactly the one record and keeps the others in their order. */
  lemma {:induction false} WithoutUnique<V>(s: seq<Record<V>>, i: nat)
    requires i < |s|
    requires forall j, k :: 0 <= j < k < |s| ==> s[j].id != s[k].id
    ensures Without(s, s[i].id) == s[..i] + s[i + 1..]
    ensures |Without(s, s[i].id)| == |s| - 1
  {
    var id := s[i].id;
    if i == 0 {
      WithoutAbsent(s[1..], id);
    } else {
      var t := s[1..];
      assert s[0].id != id;
      assert Without(s, id) == [s[0]] + Without(t, id);
      assert t[i - 1] == s[i];
      forall j, k | 0 <= j < k < |t| ensures t[j].id != t[k].id {
        assert t[j] == s[j + 1] && t[k] == s[k + 1];
      }
      WithoutUnique(t, i - 1);
      assert t[..i - 1] == s[1..i] && t[i..] == s[i + 1..];
      assert s[..i] == [s[0]] + s[1..i];
    }
  }

  /** The place of a completion callback in a chain: the success or error
      callbacks before the settled ones, and in each phase the queue-level
      default before the per-call override. */
  function Rank<V, D, Err>(e: Event<V, D, Err>): nat
  {
    if !e.Callback? then 0
    else (if e.call.OnSettled? then 2 else 0) + (if e.tier == Override then 1 else 0)
  }

  /** The events of `s` are in strictly increasing rank: in chain order, none twice. */
  ghost predicate ChainOrdered<V, D, Err>(s: seq<Event<V, D, Err>>)
  {
    forall i, j :: 0 <= i < j < |s| ==> Rank(s[i]) < Rank(s[j])
  }

  /** `.then` or `.catch`: the success or the error callbacks, defaults first. */
  function OutcomeChain<V, D, Err>(options: Callbacks, overrides: Callbacks, v: V, outcome: Outcome<D, Err>): (events: seq<Event<V, D, Err>>)
    ensures forall e :: e in events ==> e.Callback? && e.variables == v && !e.call.OnSettled?
    ensures outcome.Resolved? ==>
              (Callback(Defaults, OnSuccess(outcome.data), v) in events <==> options.hasOnSuccess) &&
              (Callback(Override, OnSuccess(outcome.data), v) in events <==> overrides.hasOnSuccess)
    ensures outcome.Rejected? ==>
              (Callback(Defaults, OnError(outcome.error), v) in events <==> options.hasOnError) &&
              (Callback(Override, OnError(outcome.error), v) in events <==> overrides.hasOnError)
    ensures forall e :: e in events && e.call.OnSuccess? ==> outcome == Resolved(e.call.data)
    ensures forall e :: e in events && e.call.OnError? ==> outcome == Rejected(e.call.error)
    ensures ChainOrdered(events)
  {
    match outcome
    case Resolved(data) =>
      (if options.hasOnSuccess then [Callback(Defaults, OnSuccess(data), v)] else []) +
      (if overrides.hasOnSuccess then [Callback(Override, OnSuccess(data), v)] else [])
    case Rejected(error) =>
      (if options.hasOnError then [Callback(Defaults, OnError(error), v)] else []) +
      (if overrides.hasOnError then [Callback(Override, OnError(error), v)] else [])
  }

  /** `.finally`: the settled callbacks, defaults first, each given the
      placeholder result `undefined` and error `null` whatever the outcome. */
  function SettledChain<V, D, Err>(options: Callbacks, overrides: Callbacks, v: V): (events: seq<Event<V, D, Err>>)
    ensures forall e :: e in events ==> e.Callback? && e.call == OnSettled(None, None) && e.variables == v
    ensures Callback(Defaults, OnSettled(None, None), v) in events <==> options.hasOnSettled
    ensures Callback(Override, OnSettled(None, None), v) in events <==> overrides.hasOnSettled
    ensures ChainOrdered(events)
  {
    (if options.hasOnSettled then [Callback(Defaults, OnSettled(None, None), v)] else []) +
    (if overrides.hasOnSettled then [Callback(Override, OnSettled(None, None), v)] else [])
  }

  /** The completion chain for one settled record: the success or the error
      callbacks, then the settled callbacks. */
  function Dispatch<V, D, Err>(options: Callbacks, rec: Record<V>, outcome: Outcome<D, Err>): (events: seq<Event<V, D, Err>>)
    ensures forall e :: e in events ==> e.Callback? && e.variables == rec.variables
    ensures |events| <= 4
  {
    OutcomeChain(options, Layer(rec.overrides), rec.variables, outcome) +
    SettledChain(options, Layer(rec.overrides), rec.variables)
  }

  /** What an observer of one record's completion chain sees: exactly the
      callbacks the two callback sets provide, success ones only on success
      and error ones only on failure, then the settled ones with a placeholder
      instead of the outcome; in each phase the queue-level default first. */
  lemma DispatchChain<V, D, Err>(options: Callbacks, rec: Record<V>, outcome: Outcome<D, Err>)
    ensures var events := Dispatch(options, rec, outcome);
      // every event is a completion callback that receives the record's variables
      (forall e :: e in events ==> e.Callback? && e.variables == rec.variables) &&
      // exactly the callbacks the two sets provide are called, with the outcome
      (outcome.Resolved? ==>
         (Callback(Defaults, OnSuccess(outcome.data), rec.variables) in events <==> options.hasOnSuccess) &&
         (Callback(Override, OnSuccess(outcome.data), rec.variables) in events <==> Layer(rec.overrides).hasOnSuccess)) &&
      (outcome.Rejected? ==>
         (Callback(Defaults, OnError(outcome.error), rec.variables) in events <==> options.hasOnError) &&
         (Callback(Override, OnError(outcome.error), rec.variables) in events <==> Layer(rec.overrides).hasOnError)) &&
      (Callback(Defaults, OnSettled(None, None), rec.variables) in events <==> options.hasOnSettled) &&
      (Callback(Override, OnSettled(None, None), rec.variables) in events <==> Layer(rec.overrides).hasOnSettled) &&
      // success callbacks only on success, error callbacks only on failure
      (forall e :: e in events && e.call.OnSuccess? ==> outcome == Resolved(e.call.data)) &&
      (forall e :: e in events && e.call.OnError? ==> outcome == Rejected(e.call.error)) &&
      // the settled callbacks never see the real outcome
      (forall e :: e in events && e.call.OnSettled? ==> e.call.result == None && e.call.failure == None) &&
      // settled callbacks come last; within each phase defaults precede overrides
      ChainOrdered(events)
  {
    var first := OutcomeChain(options, Layer(rec.overrides), rec.variables, outcome);
    var last := SettledChain<V, D, Err>(options, Layer(rec.overrides), rec.variables);
    ChainConcat(first, last);
  }

  /** An outcome phase followed by a settled phase, each in order, is in order. */
  lemma ChainConcat<V, D, Err>(a: seq<Event<V, D, Err>>, b: seq<Event<V, D, Err>>)
    requires ChainOrdered(a) && ChainOrdered(b)
    requires forall e :: e in a ==> e.Callback? && !e.call.OnSettled?
    requires forall e :: e in b ==> e.Callback? && e.call.OnSettled?
    ensures ChainOrdered(a + b)
  {
    forall i, j | 0 <= i < j < |a + b| ensures Rank((a + b)[i]) < Rank((a + b)[j]) {
      if j < |a| {
        assert (a + b)[i] == a[i] && (a + b)[j] == a[j];
      } else if i < |a| {
        assert a[i] in a && b[j - |a|] in b;
      } else {
        assert (a + b)[i] == b[i - |a|] && (a + b)[j] == b[j - |a|];
      }
    }
  }

  /** The variables of every executor started so far, in start order. */
  function Executions<V, D, Err>(t: seq<Event<V, D, Err>>): seq<V>
  {
    if t == [] then []
    else Executions(t[..|t| - 1]) + (if t[|t| - 1].Executed? then [t[|t| - 1].variables] else [])
  }

  /** The variables of every optimistic `onMutate` call so far, in call order. */
  function Mutations<V, D, Err>(t: seq<Event<V, D, Err>>): seq<V>
  {
    if t == [] then []
    else Mutations(t[..|t| - 1]) + (if t[|t| - 1].Mutated? then [t[|t| - 1].variables] else [])
  }

  lemma {:induction false} LogsAppend<V, D, Err>(a: seq<Event<V, D, Err>>, b: seq<Event<V, D, Err>>)
    ensures Executions(a + b) == Executions(a) + Executions(b)
    ensures Mutations(a + b) == Mutations(a) + Mutations(b)
  {
    if b == [] {
      assert a + b == a;
    } else {
      var b' := b[..|b| - 1];
      assert (a + b)[..|a + b| - 1] == a + b';
      assert (a + b)[|a + b| - 1] == b[|b| - 1];
      LogsAppend(a, b');
    }
  }

  lemma {:induction false} CallbacksLogNothing<V, D, Err>(t: seq<Event<V, D, Err>>)
    requires forall e :: e in t ==> e.Callback?
    ensures Executions(t) == [] && Mutations(t) == []
  {
    if t != [] {
      assert t[|t| - 1] in t;
      assert forall e :: e in t[..|t| - 1] ==> e in t;
      CallbacksLogNothing(t[..|t| - 1]);
    }
  }

  /** The queue invariant, over the queue's state as values: `pending` holds
      exactly the unsettled submissions, oldest first, with consecutive
      identities; only the head can be in flight, and it is exactly when it
      has been started; executors were started in submission order; and when
      there is an optimistic hook, it ran once per submission, in order. */
  ghost predicate QueueInv<V, D, Err>(pending: seq<Record<V>>, trace: seq<Event<V, D, Err>>, submitted: seq<V>,
                                      started: nat, settled: nat, hasOnMutate: bool)
  {
    settled <= started <= settled + 1 &&
    |pending| == |submitted| - settled &&
    (forall i :: 0 <= i < |pending| ==>
       pending[i].id == settled + i && pending[i].variables == submitted[settled + i]) &&
    (forall i :: 0 < i < |pending| ==> !pending[i].isInFlight) &&
    (pending == [] ==> started == settled) &&
    (pending != [] ==> (pending[0].isInFlight <==> started == settled + 1)) &&
    Executions(trace) == submitted[..started] &&
    (hasOnMutate ==> Mutations(trace) == submitted)
  }

  /** Submitting appends a record that is not in flight and keeps the invariant. */
  lemma SubmitKeepsInv<V, D, Err>(pending: seq<Record<V>>, trace: seq<Event<V, D, Err>>, submitted: seq<V>,
                                  started: nat, settled: nat, hasOnMutate: bool, v: V, overrides: Option<Callbacks>)
    requires QueueInv(pending, trace, submitted, started, settled, hasOnMutate)
    ensures QueueInv(pending + [Record(|submitted|, false, v, overrides)],
                     trace + (if hasOnMutate then [Mutated(v)] else []),
                     submitted + [v], started, settled, hasOnMutate)
    ensures CountInFlight(pending + [Record(|submitted|, false, v, overrides)]) <= 1
  {
    var mutated: seq<Event<V, D, Err>> := if hasOnMutate then [Mutated(v)] else [];
    LogsAppend(trace, mutated);
    assert Executions(mutated) == [] by {
      assert mutated == [] || mutated[..0] == [];
    }
    assert (submitted + [v])[..started] == submitted[..started];
    OnlyHeadInFlight(pending + [Record(|submitted|, false, v, overrides)]);
  }

  /** Starting the head of a queue with nothing in flight keeps the invariant. */
  lemma ScheduleKeepsInv<V, D, Err>(pending: seq<Record<V>>, trace: seq<Event<V, D, Err>>, submitted: seq<V>,
                                    started: nat, settled: nat, hasOnMutate: bool)
    requires QueueInv(pending, trace, submitted, started, settled, hasOnMutate)
    requires pending != [] && !SomeInFlight(pending)
    ensures QueueInv(pending[0 := pending[0].(isInFlight := true)], trace + [Executed(pending[0].variables)],
                     submitted, started + 1, settled, hasOnMutate)
    ensures CountInFlight(pending[0 := pending[0].(isInFlight := true)]) == 1
  {
    var executed: seq<Event<V, D, Err>> := [Executed(pending[0].variables)];
    LogsAppend(trace, executed);
    assert Executions(executed) == [pending[0].variables] by {
      assert executed[..0] == [];
    }
    assert submitted[..started + 1] == submitted[..started] + [pending[0].variables];
    OnlyHeadInFlight(pending[0 := pending[0].(isInFlight := true)]);
  }

  /** Settling the started head with any completion chain keeps the invariant. */
  lemma SettleKeepsInv<V, D, Err>(pending: seq<Record<V>>, trace: seq<Event<V, D, Err>>, submitted: seq<V>,
                                  started: nat, settled: nat, hasOnMutate: bool, events: seq<Event<V, D, Err>>)
    requires QueueInv(pending, trace, submitted, started, settled, hasOnMutate)
    requires pending != [] && pending[0].isInFlight
    requires forall e :: e in events ==> e.Callback?
    ensures QueueInv(pending[1..], trace + events, submitted, started, settled + 1, hasOnMutate)
    ensures !SomeInFlight(pending[1..]) && CountInFlight(pending[1..]) == 0
    ensures Without(pending, pending[0].id) == pending[1..]
    ensures QueueInv(Without(pending, pending[0].id), trace + events, submitted, started, settled + 1, hasOnMutate)
  {
    WithoutUnique(pending, 0);
    assert pending[..0] + pending[1..] == pending[1..];
    CallbacksLogNothing(events);
    LogsAppend(trace, events);
    var rest := pending[1..];
    assert forall i :: 0 <= i < |rest| ==> rest[i] == pending[i + 1];
    NoneInFlight(rest);
  }

  class MutationQueue<V, D, Err> {
    /** The hook's `options`: the queue-level callbacks. */
    const options: Callbacks
    /** `pendingMutations.current`, oldest first. */
    var pending: seq<Record<V>>
    /** Everything observable that has happened, in order. */
    var trace: seq<Event<V, D, Err>>
    /** The identity the next submitted record receives. */
    var nextId: nat

    /** The variables of every submission so far, in submission order. */
    ghost var submitted: seq<V>
    /** How many records have been started, and how many have settled. */
    ghost var started: nat
    ghost var settled: nat

    ghost predicate Valid()
      reads this
    {
      nextId == |submitted| && QueueInv(pending, trace, submitted, started, settled, options.hasOnMutate)
    }

    constructor (options: Callbacks)
      ensures Valid()
      ensures this.options == options && pending == [] && trace == [] && submitted == []
    {
      this.options := options;
      pending := [];
      trace := [];
      nextId := 0;
      submitted := [];
      started := 0;
      settled := 0;
    }

    /** `isLoading`: there is a pending record, that is, some submission has not settled yet. */
    function IsLoading(): (loading: bool)
      reads this
      requires Valid()
      ensures loading <==> settled < |submitted|
      ensures !loading ==> started == |submitted|
    {
      |pending| > 0
    }

    /** `queue(variables, mutationOptions)`: run the optimistic hook, then
        append a fresh record that is not in flight. */
    method Submit(variables: V, overrides: Option<Callbacks>)
      requires Valid()
      modifies this
      ensures Valid()
      ensures pending == old(pending) + [Record(old(nextId), false, variables, overrides)]
      ensures forall r :: r in old(pending) ==> r.id != old(nextId)
      ensures trace == old(trace) + (if options.hasOnMutate then [Mutated(variables)] else [])
      ensures submitted == old(submitted) + [variables]
      ensures started == old(started) && settled == old(settled)
      ensures CountInFlight(pending) <= 1
    {
      SubmitKeepsInv(pending, trace, submitted, started, settled, options.hasOnMutate, variables, overrides);
      if options.hasOnMutate {
        trace := trace + [Mutated(variables)];
      }
      pending := pending + [Record(nextId, false, variables, overrides)];
      nextId := nextId + 1;
      submitted := submitted + [variables];
    }

    /** The effect body: unless the queue is empty or a record is already in
        flight, flag the head record and start its executor. Returns the
        started record, which the completion chain later settles. */
    method Schedule() returns (startedRecord: Option<Record<V>>)
      requires Valid()
      modifies this
      ensures Valid()
      ensures submitted == old(submitted) && settled == old(settled) && nextId == old(nextId)
      ensures old(pending) == [] || SomeInFlight(old(pending)) ==>
                startedRecord == None && pending == old(pending) && trace == old(trace) && started == old(started)
      ensures old(pending) != [] && !SomeInFlight(old(pending)) ==>
                var head := old(pending)[0].(isInFlight := true);
                startedRecord == Some(head) &&
                pending == old(pending)[0 := head] &&
                trace == old(trace) + [Executed(head.variables)] &&
                started == old(started) + 1
      ensures startedRecord.Some? ==> startedRecord.value in pending && startedRecord.value.isInFlight
      ensures CountInFlight(pending) <= 1
    {
      if |pending| == 0 || SomeInFlight(pending) {
        OnlyHeadInFlight(pending);
        return None;
      }
      ScheduleKeepsInv(pending, trace, submitted, started, settled, options.hasOnMutate);
      var next := pending[0];
      next := next.(isInFlight := true);
      pending := [next] + pending[1..];
      trace := trace + [Executed(next.variables)];
      started := started + 1;
      startedRecord := Some(next);
    }

    /** The `.then/.catch/.finally` chain of a started record: the success or
        error callbacks, then the settled callbacks, then removal of the
        record by identity. */
    method Settle(rec: Record<V>, outcome: Outcome<D, Err>)
      requires Valid()
      requires rec in pending && rec.isInFlight
      modifies this
      ensures Valid()
      ensures rec == old(pending)[0]
      ensures pending == old(pending)[1..] && |pending| == |old(pending)| - 1
      ensures trace == old(trace) + Dispatch(options, rec, outcome)
      ensures !SomeInFlight(pending)
      ensures submitted == old(submitted) && started == old(started) && settled == old(settled) + 1
      ensures CountInFlight(pending) <= 1
    {
      var events := Dispatch(options, rec, outcome);
      Retire(rec, events);
    }

    /** The last step of a record's chain: its completion callbacks `events`
        have been called, and the record is filtered out of the queue by
        identity. */
    method Retire(rec: Record<V>, events: seq<Event<V, D, Err>>)
      requires Valid()
      requires rec in pending && rec.isInFlight
      requires forall e :: e in events ==> e.Callback?
      modifies this
      ensures Valid()
      ensures rec == old(pending)[0]
      ensures pending == old(pending)[1..] && |pending| == |old(pending)| - 1
      ensures trace == old(trace) + events
      ensures !SomeInFlight(pending)
      ensures submitted == old(submitted) && started == old(started) && settled == old(settled) + 1
      ensures CountInFlight(pending) <= 1
    {
      assert rec == pending[0];
      SettleKeepsInv(pending, trace, submitted, started, settled, options.hasOnMutate, events);
      trace := trace + events;
      pending := Without(pending, rec.id);
      settled := settled + 1;
    }
  }
}
