/**
 * The exercises screen's local cache updates. The updater maps over the
 * cached exercise list (if there is one) and overwrites `isDone` and
 * `isNotSynced` on the entries with the given id; `onMutate` uses it to mark
 * an entry optimistically (not yet synced) and `onSuccess` to confirm it.
 */
module ExercisesPage {
  import opened Options
  import QM = QueuedMutation

  /** One cached exercise (`IExercise`). `rest` stands for the fields the
      screen never touches, which the updater copies as they are. */
  datatype Exercise = Exercise(id: string, isDone: bool, isNotSynced: Option<bool>, rest: map<string, string>)

  /** `UpdateExercisePayload`; also the part of the server's reply that the
      success callback reads (`data.id`, `data.isDone`). */
  datatype ExerciseStatus = ExerciseStatus(id: string, isDone: bool)

  /** The body of the `map` lambda: an entry with the target id gets the two
      flags overwritten (the object spread keeps everything else). */
  function PatchEntry(e: Exercise, id: string, isDone: bool, isNotSynced: Option<bool>): (r: Exercise)
    ensures r.id == e.id && r.rest == e.rest
    ensures e.id == id ==> r.isDone == isDone && r.isNotSynced == isNotSynced
    ensures e.id != id ==> r == e
  {
    if e.id == id then e.(isDone := isDone, isNotSynced := isNotSynced) else e
  }

  /** `exercisesList.map(…)`: patch every entry, keeping length and order. */
  function PatchAll(s: seq<Exercise>, id: string, isDone: bool, isNotSynced: Option<bool>): (r: seq<Exercise>)
    ensures |r| == |s|
    ensures forall i :: 0 <= i < |s| && s[i].id == id ==>
              r[i] == Exercise(s[i].id, isDone, isNotSynced, s[i].rest)
    ensures forall i :: 0 <= i < |s| && s[i].id != id ==> r[i] == s[i]
  {
    if s == [] then []
    else [PatchEntry(s[0], id, isDone, isNotSynced)] + PatchAll(s[1..], id, isDone, isNotSynced)
  }

  /** `updateLocalExerciseList(id, isDone, isNotSynced)`: the updater passed
      to `setQueryData`; an absent list stays absent. */
  function UpdateLocalExerciseList(list: Option<seq<Exercise>>, id: string, isDone: bool, isNotSynced: Option<bool>)
    : (r: Option<seq<Exercise>>)
    ensures r.None? <==> list.None?
    ensures list.Some? ==> |r.value| == |list.value|
    ensures list.Some? ==> forall i :: 0 <= i < |list.value| && list.value[i].id == id ==>
              r.value[i] == Exercise(id, isDone, isNotSynced, list.value[i].rest)
    ensures list.Some? ==> forall i :: 0 <= i < |list.value| && list.value[i].id != id ==>
              r.value[i] == list.value[i]
  {
    if list.None? then None else Some(PatchAll(list.value, id, isDone, isNotSynced))
  }

  /** The page's `onMutate`: before the request is queued, mark the target
      with the requested `isDone` and as not yet synced. */
  function OnMutateUpdate(list: Option<seq<Exercise>>, payload: ExerciseStatus): (r: Option<seq<Exercise>>)
    ensures r.None? <==> list.None?
    ensures list.Some? ==> |r.value| == |list.value|
    ensures list.Some? ==> forall i :: 0 <= i < |list.value| ==>
                if list.value[i].id == payload.id
                then r.value[i].isDone == payload.isDone && r.value[i].isNotSynced == Some(true) &&
                     r.value[i].id == list.value[i].id && r.value[i].rest == list.value[i].rest
                else r.value[i] == list.value[i]
  {
    UpdateLocalExerciseList(list, payload.id, payload.isDone, Some(true))
  }

  /** The page's `onSuccess`: mark the exercise the server reports with the
      server's `isDone` and as synced. */
  function OnSuccessUpdate(list: Option<seq<Exercise>>, data: ExerciseStatus): (r: Option<seq<Exercise>>)
    ensures r.None? <==> list.None?
    ensures list.Some? ==> |r.value| == |list.value|
    ensures list.Some? ==> forall i :: 0 <= i < |list.value| ==>
                if list.value[i].id == data.id
                then r.value[i].isDone == data.isDone && r.value[i].isNotSynced == Some(false) &&
                     r.value[i].id == list.value[i].id && r.value[i].rest == list.value[i].rest
                else r.value[i] == list.value[i]
  {
    UpdateLocalExerciseList(list, data.id, data.isDone, Some(false))
  }

  /** The payload the exercise's button queues: the same id, the opposite `isDone`. */
  function TogglePayload(e: Exercise): (p: ExerciseStatus)
    ensures p.id == e.id && p.isDone != e.isDone
  {
    ExerciseStatus(e.id, !e.isDone)
  }

  /** A later update of the same id overrides an earlier one entirely. */
  lemma LastUpdateWins(s: seq<Exercise>, id: string, a: bool, b: Option<bool>, c: bool, d: Option<bool>)
    ensures PatchAll(PatchAll(s, id, a, b), id, c, d) == PatchAll(s, id, c, d)
  {
  }

  /** Updates of different ids do not interfere: their order does not matter. */
  lemma DistinctUpdatesCommute(s: seq<Exercise>, id1: string, a: bool, b: Option<bool>,
                                id2: string, c: bool, d: Option<bool>)
    requires id1 != id2
    ensures PatchAll(PatchAll(s, id1, a, b), id2, c, d) == PatchAll(PatchAll(s, id2, c, d), id1, a, b)
  {
  }

  /** Pressing the button twice before anything syncs leaves the second
      request's value in the cache, still marked not synced. */
  lemma OptimisticDoubleToggle(list: Option<seq<Exercise>>, e: Exercise)
    ensures OnMutateUpdate(OnMutateUpdate(list, TogglePayload(e)), ExerciseStatus(e.id, e.isDone))
            == UpdateLocalExerciseList(list, e.id, e.isDone, Some(true))
  {
    if list.Some? {
      LastUpdateWins(list.value, e.id, !e.isDone, Some(true), e.isDone, Some(true));
    }
  }

  /** A toggle whose reply echoes the request ends in the toggled value,
      marked synced, as if the optimistic step had never happened. */
  lemma ToggleConfirmed(list: Option<seq<Exercise>>, e: Exercise)
    ensures OnSuccessUpdate(OnMutateUpdate(list, TogglePayload(e)), TogglePayload(e))
            == UpdateLocalExerciseList(list, e.id, !e.isDone, Some(false))
  {
    if list.Some? {
      LastUpdateWins(list.value, e.id, !e.isDone, Some(true), !e.isDone, Some(false));
    }
  }

  /** The callback set the page gives `useQueuedMutation`: `onMutate` and
      `onSuccess`, no `onError`, no `onSettled`. */
  function PageCallbacks(): (c: QM.Callbacks)
    ensures c.hasOnMutate && c.hasOnSuccess
    ensures !c.hasOnError && !c.hasOnSettled
  {
    QM.Callbacks(hasOnMutate := true, hasOnSuccess := true, hasOnError := false, hasOnSettled := false)
  }

  /** How one queue event changes the cached list: the page's `onMutate` and
      its `onSuccess`; nothing else the queue does touches the cache. */
  function ApplyEvent(cache: Option<seq<Exercise>>, ev: QM.Event<ExerciseStatus, ExerciseStatus, string>): (r: Option<seq<Exercise>>)
    ensures r.Some? <==> cache.Some?
    ensures ev.Mutated? ==> r == OnMutateUpdate(cache, ev.variables)
    ensures ev.Callback? && ev.tier == QM.Defaults && ev.call.OnSuccess? ==> r == OnSuccessUpdate(cache, ev.call.data)
    ensures ev.Executed? || (ev.Callback? && (ev.tier == QM.Override || !ev.call.OnSuccess?)) ==> r == cache
  {
    match ev
    case Mutated(payload) => OnMutateUpdate(cache, payload)
    case Callback(Defaults, OnSuccess(data), _) => OnSuccessUpdate(cache, data)
    case _ => cache
  }

  /** The cached list after a run of queue events, oldest first. */
  function Replay(cache: Option<seq<Exercise>>, trace: seq<QM.Event<ExerciseStatus, ExerciseStatus, string>>): Option<seq<Exercise>>
  {
    if trace == [] then cache else ApplyEvent(Replay(cache, trace[..|trace| - 1]), trace[|trace| - 1])
  }

  lemma ReplayStep(cache: Option<seq<Exercise>>, trace: seq<QM.Event<ExerciseStatus, ExerciseStatus, string>>,
                   ev: QM.Event<ExerciseStatus, ExerciseStatus, string>)
    ensures Replay(cache, trace + [ev]) == ApplyEvent(Replay(cache, trace), ev)
  {
  }

  /** With the page's callbacks and no per-call overrides, a success runs
      exactly the page's `onSuccess`. */
  lemma PageSuccessChain(rec: QM.Record<ExerciseStatus>, data: ExerciseStatus)
    requires rec.overrides == None
    ensures QM.Dispatch<ExerciseStatus, ExerciseStatus, string>(PageCallbacks(), rec, QM.Resolved(data))
            == [QM.Callback(QM.Defaults, QM.OnSuccess(data), rec.variables)]
  {
  }

  /** How the cache reacts when the page's queue settles a record submitted
      without per-call callbacks: a confirmed request writes the reply, synced;
      a failed one changes nothing, because the page has no `onError`, so its
      optimistic write stays in place, still marked not synced. */
  lemma PageSettleCache(cache: Option<seq<Exercise>>, rec: QM.Record<ExerciseStatus>, outcome: QM.Outcome<ExerciseStatus, string>)
    requires rec.overrides == None
    ensures Replay(cache, QM.Dispatch(PageCallbacks(), rec, outcome))
            == (if outcome.Resolved? then OnSuccessUpdate(cache, outcome.data) else cache)
  {
    match outcome
    case Resolved(data) =>
      var ev := QM.Dispatch<ExerciseStatus, ExerciseStatus, string>(PageCallbacks(), rec, outcome);
      PageSuccessChain(rec, data);
      assert ev == [] + [ev[0]];
      ReplayStep(cache, [], ev[0]);
    case Rejected(error) =>
      PageFailureChain(rec, error);
  }

  /** With the page's callbacks and no per-call overrides, a failure runs no
      callback at all: the page has neither `onError` nor `onSettled`. */
  lemma PageFailureChain(rec: QM.Record<ExerciseStatus>, error: string)
    requires rec.overrides == None
    ensures QM.Dispatch<ExerciseStatus, ExerciseStatus, string>(PageCallbacks(), rec, QM.Rejected(error)) == []
  {
  }

  /** What the page's queue shows for two presses on the same exercise, the
      first request confirmed with `first`, the second with `second`. */
  function DoubleToggleTrace(id: string, first: ExerciseStatus, second: ExerciseStatus)
    : seq<QM.Event<ExerciseStatus, ExerciseStatus, string>>
  {
    var on, off := ExerciseStatus(id, true), ExerciseStatus(id, false);
    [QM.Mutated(on), QM.Executed(on), QM.Mutated(off),
     QM.Callback(QM.Defaults, QM.OnSuccess(first), on),
     QM.Executed(off),
     QM.Callback(QM.Defaults, QM.OnSuccess(second), off)]
  }

  /** When the server confirms both presses, the cache ends with the second
      value, synced: the optimistic marks and the first reply are overwritten. */
  lemma DoubleToggleCache(list: seq<Exercise>, id: string, first: ExerciseStatus, second: ExerciseStatus)
    requires first.id == id && second == ExerciseStatus(id, false)
    ensures Replay(Some(list), DoubleToggleTrace(id, first, second)) == UpdateLocalExerciseList(Some(list), id, false, Some(false))
  {
    var t := DoubleToggleTrace(id, first, second);
    var on, off := ExerciseStatus(id, true), ExerciseStatus(id, false);
    assert t[..1] == [] + [t[0]];
    assert t[..2] == t[..1] + [t[1]];
    assert t[..3] == t[..2] + [t[2]];
    assert t[..4] == t[..3] + [t[3]];
    assert t[..5] == t[..4] + [t[4]];
    assert t == t[..5] + [t[5]];
    ReplayStep(Some(list), [], t[0]);
    ReplayStep(Some(list), t[..1], t[1]);
    ReplayStep(Some(list), t[..2], t[2]);
    ReplayStep(Some(list), t[..3], t[3]);
    ReplayStep(Some(list), t[..4], t[4]);
    ReplayStep(Some(list), t[..5], t[5]);
    LastUpdateWins(list, id, true, Some(true), false, Some(true));
    LastUpdateWins(list, id, false, Some(true), first.isDone, Some(false));
    LastUpdateWins(list, id, first.isDone, Some(false), false, Some(false));
  }

  /** Two presses on the same exercise before anything settles: both
      optimistic updates run at once, in press order, but only the first
      request is started; the second waits behind it. */
  method PressTwice(on: ExerciseStatus, off: ExerciseStatus)
    returns (q: QM.MutationQueue<ExerciseStatus, ExerciseStatus, string>, started: QM.Record<ExerciseStatus>)
    ensures fresh(q) && q.Valid() && q.options == PageCallbacks()
    ensures q.pending == [started, QM.Record(1, false, off, None)] && started == QM.Record(0, true, on, None)
    ensures q.trace == [QM.Mutated(on), QM.Executed(on), QM.Mutated(off)]
    ensures q.submitted == [on, off] && q.started == 1 && q.settled == 0
  {
    q := new QM.MutationQueue<ExerciseStatus, ExerciseStatus, string>(PageCallbacks());
    q.Submit(on, None);
    assert q.trace == [QM.Mutated(on)] && q.submitted == [on];
    assert q.pending == [QM.Record(0, false, on, None)];
    var started1 := q.Schedule();
    started := started1.value;
    assert q.pending == [started];
    assert q.trace == [QM.Mutated(on), QM.Executed(on)] && q.submitted == [on];
    q.Submit(off, None);
    assert q.trace == [QM.Mutated(on), QM.Executed(on), QM.Mutated(off)] && q.submitted == [on, off];
    assert q.pending == [started, QM.Record(1, false, off, None)];
    assert q.pending[0].isInFlight;
    var held := q.Schedule();
    assert held == None;
  }

  /** The page's queue settling a started record, submitted without per-call
      callbacks, with the server's reply: the page's `onSuccess` is the only
      callback, and the record leaves the queue. */
  method Confirm(q: QM.MutationQueue<ExerciseStatus, ExerciseStatus, string>, rec: QM.Record<ExerciseStatus>, data: ExerciseStatus)
    requires q.Valid() && q.options == PageCallbacks()
    requires rec in q.pending && rec.isInFlight && rec.overrides == None
    modifies q
    ensures q.Valid()
    ensures q.pending == old(q.pending)[1..]
    ensures q.trace == old(q.trace) + [QM.Callback(QM.Defaults, QM.OnSuccess(data), rec.variables)]
    ensures q.submitted == old(q.submitted) && q.started == old(q.started) && q.settled == old(q.settled) + 1
  {
    q.Settle(rec, QM.Resolved(data));
    PageSuccessChain(rec, data);
  }

  /** The page's queue, driven through two presses on the same exercise:
      the requests reach the server in press order, each only after the one
      before it has settled, and once both are confirmed the queue is idle.
      What the cache then holds is `DoubleToggleCache`. */
  method DoubleToggle(id: string, first: ExerciseStatus, second: ExerciseStatus)
    returns (trace: seq<QM.Event<ExerciseStatus, ExerciseStatus, string>>, executed: seq<ExerciseStatus>, loading: bool)
    ensures trace == DoubleToggleTrace(id, first, second)
    ensures executed == [ExerciseStatus(id, true), ExerciseStatus(id, false)]
    ensures !loading
  {
    var on, off := ExerciseStatus(id, true), ExerciseStatus(id, false);
    var q, started1 := PressTwice(on, off);
    Confirm(q, started1, first);
    ghost var succeeded1: QM.Event<ExerciseStatus, ExerciseStatus, string> := QM.Callback(QM.Defaults, QM.OnSuccess(first), on);
    assert q.trace == [QM.Mutated(on), QM.Executed(on), QM.Mutated(off), succeeded1];
    var started2 := q.Schedule();
    assert started2 == Some(QM.Record(1, true, off, None));
    ghost var t := q.trace;
    Confirm(q, started2.value, second);
    assert q.trace == t + [QM.Callback(QM.Defaults, QM.OnSuccess(second), off)];
    trace := q.trace;
    executed := QM.Executions(q.trace);
    loading := q.IsLoading();
  }
}
