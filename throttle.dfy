/** `throttledAll(source, concurrency)` of Promise.concurrent.js: it starts at most
    `concurrency` tasks of a source at a time, starts the next one whenever one
    succeeds, and collects their results by start index.

    The closure's variables are a `Run`; each of its inner functions is a step
    function on it (`AfterRunNext`, `AfterRunner`, `AfterSuccess`, `AfterError`),
    and the class `Throttle` below performs the same steps in place. The event
    loop is left to the caller: `AfterDelivery` is one task's promise settling,
    and `Deliveries` a sequence of them in the order they settle. */
module Throttle {
  import opened Common

  /** A task of the source. Calling it either throws at once (`throws`), which
      covers returning something without a `then`, or returns a promise. */
  datatype Task = Task(throws: Option<Exception>)

  /** How the promise `throttledAll` returns settles: with the responses by task
      id, or with the first error. */
  datatype Settlement<R> = Resolved(responses: map<nat, R>) | RejectedWith(error: Exception)

  /** The promise of the task started with id `id` settling. */
  datatype Completion<R> = Succeeded(id: nat, result: R) | Failed(id: nat, error: Exception)

  /** The state of one call. `items` and `next` are the iterator's items and
      position, `base` its position when the call began; `pending` holds the ids
      of the started tasks whose promise has not settled yet. */
  datatype Run<R> = Run(
    items: seq<Task>, next: nat, base: nat, concurrency: int,
    i: nat, collected: nat, lastRun: nat, iteratorDone: bool, error: bool,
    responses: map<nat, R>, outcome: Option<Settlement<R>>, pending: set<nat>)

  /** The default `concurrency`. */
  const DefaultConcurrency := 5

  /** How many times the starting loop `for (ii = 0; ii < concurrency; ii++)` runs. */
  function Rounds(concurrency: int): nat
  {
    if concurrency > 0 then concurrency else 0
  }

  /** A promise settles once: the first `res` or `rej` wins. */
  function First<R>(outcome: Option<Settlement<R>>, s: Settlement<R>): (r: Option<Settlement<R>>)
    ensures r.Some?
    ensures outcome.Some? ==> r == outcome
    ensures outcome.None? ==> r == Some(s)
  {
    if outcome.None? then Some(s) else outcome
  }

  function Init<R>(items: seq<Task>, next: nat, concurrency: int): Run<R>
  {
    Run(items, next, next, concurrency, 0, 0, 0, false, false, map[], None, {})
  }

  /** `didError(e)`. */
  function AfterError<R>(s: Run<R>, e: Exception): Run<R>
  {
    s.(error := true, outcome := First(s.outcome, RejectedWith(e)))
  }

  /** `runner(id, fn)`. */
  function AfterRunner<R>(s: Run<R>, id: nat, task: Task): Run<R>
  {
    var t := s.(lastRun := id);
    if task.throws.Some? then AfterError(t, task.throws.value) else t.(pending := t.pending + {id})
  }

  /** `runNext()`: nothing after an error or once the iterator is done; otherwise
      the iterator's next item is started with the next id, or the iterator is
      found done. */
  function AfterRunNext<R>(s: Run<R>): Run<R>
  {
    if s.error || s.iteratorDone then s
    else if s.next >= |s.items| then s.(iteratorDone := true)
    else AfterRunner(s.(next := s.next + 1, i := s.i + 1), s.i, s.items[s.next])
  }

  /** `didSucceed(id, result)`. */
  function AfterSuccess<R>(s: Run<R>, id: nat, result: R): Run<R>
  {
    var t := s.(collected := s.collected + 1, responses := s.responses[id := result]);
    if t.iteratorDone && t.collected > t.lastRun then t.(outcome := First(t.outcome, Resolved(t.responses)))
    else AfterRunNext(t)
  }

  /** A task's promise settling: `then` calls `didSucceed`, `catch` calls
      `didError`. Only a pending task's promise can settle, so any other
      completion changes nothing. */
  function AfterDelivery<R>(s: Run<R>, c: Completion<R>): Run<R>
  {
    if c.id !in s.pending then s
    else
      var t := s.(pending := s.pending - {c.id});
      match c
      case Succeeded(id, result) => AfterSuccess(t, id, result)
      case Failed(_, e) => AfterError(t, e)
  }

  /** The state after `k` rounds of the starting loop. */
  function AfterRounds<R>(s: Run<R>, k: nat): Run<R>
  {
    if k == 0 then s else AfterRunNext(AfterRounds(s, k - 1))
  }

  /** The state when the executor of `throttledAll` returns, for an iterator over
      `items` at position `next`. */
  function Started<R>(items: seq<Task>, next: nat, concurrency: int): Run<R>
  {
    AfterRounds(Init(items, next, concurrency), Rounds(concurrency))
  }

  /** The state after the given promises settle, in order. */
  function Deliveries<R>(s: Run<R>, cs: seq<Completion<R>>): Run<R>
    decreases |cs|
  {
    if cs == [] then s else Deliveries(AfterDelivery(s, cs[0]), cs[1..])
  }

  predicate Resolves<R>(s: Run<R>)
  {
    s.outcome.Some? && s.outcome.value.Resolved?
  }

  /** Positions: ids are handed out from the iterator's position on, and
      `lastRun` is the last id handed out. */
  ghost predicate Positions<R>(s: Run<R>)
  {
    && s.base + s.i == s.next <= |s.items|
    && s.lastRun == (if s.i == 0 then 0 else s.i - 1)
    && (s.iteratorDone ==> s.next == |s.items|)
  }

  /** Pending and answered ids are started ones, no id is both, and
      `collected` counts the answered ones. */
  ghost predicate Ids<R>(s: Run<R>)
  {
    && (forall k :: k in s.pending ==> k < s.i)
    && (forall k :: k in s.responses ==> k < s.i && k !in s.pending)
    && s.collected == |s.responses.Keys|
  }

  /** Without an error, every started task is pending or answered. */
  ghost predicate Accounted<R>(s: Run<R>)
  {
    && (!s.error ==> s.collected + |s.pending| == s.i)
    && (!s.error ==> forall k :: 0 <= k < s.i ==> k in s.pending || k in s.responses)
  }

  /** `error` is set exactly when the promise rejected, and a resolution
      happened with nothing pending and the iterator exhausted. */
  ghost predicate Settled<R>(s: Run<R>)
  {
    && (s.error <==> s.outcome.Some? && s.outcome.value.RejectedWith?)
    && (Resolves(s) ==> s.pending == {} && s.iteratorDone && s.outcome.value.responses == s.responses)
  }

  /** What holds of the closure's variables whatever has happened, except for
      the bound on pending tasks. */
  ghost predicate Core<R>(s: Run<R>)
  {
    Positions(s) && Ids(s) && Accounted(s) && Settled(s)
  }

  /** `Core`, with at most `concurrency` tasks pending, and, with a
      concurrency of one, no pending task once the iterator is done and no
      resolution ever. */
  ghost predicate Valid<R>(s: Run<R>)
  {
    && Core(s)
    && |s.pending| <= Rounds(s.concurrency)
    && (s.concurrency == 1 && s.iteratorDone ==> s.pending == {})
    && (s.concurrency == 1 ==> !Resolves(s))
  }

  lemma InitValid<R>(items: seq<Task>, next: nat, concurrency: int)
    requires next <= |items|
    ensures Valid(Init<R>(items, next, concurrency))
  {
  }

  /** `didError` keeps everything but `Accounted`, which it makes vacuous. */
  lemma ErrorCore<R>(s: Run<R>, e: Exception)
    requires Positions(s) && Ids(s) && !Resolves(s)
    ensures Core(AfterError(s, e)) && AfterError(s, e).pending == s.pending
  {
  }

  /** The state once the iterator's next task is taken, before it is called. */
  function Taken<R>(s: Run<R>): Run<R>
  {
    s.(next := s.next + 1, i := s.i + 1, lastRun := s.i)
  }

  lemma TakenKeeps<R>(s: Run<R>)
    requires Core(s) && !s.error && !s.iteratorDone && s.next < |s.items|
    ensures Positions(Taken(s)) && Ids(Taken(s)) && !Resolves(Taken(s)) && s.i !in s.pending
  {
  }

  lemma StartedPositions<R>(s: Run<R>, r: Run<R>)
    requires Positions(s) && !s.iteratorDone && s.next < |s.items|
    requires r == Taken(s).(pending := s.pending + {s.i})
    ensures Positions(r)
  {
  }

  lemma StartedIds<R>(s: Run<R>, r: Run<R>)
    requires Ids(s)
    requires r == Taken(s).(pending := s.pending + {s.i})
    ensures Ids(r)
  {
  }

  lemma StartedAccounted<R>(s: Run<R>, r: Run<R>)
    requires Ids(s) && Accounted(s) && !s.error
    requires r == Taken(s).(pending := s.pending + {s.i})
    ensures Accounted(r) && |r.pending| == |s.pending| + 1
  {
    assert s.i !in s.pending;
    assert |r.pending| == |s.pending| + 1;
    assert r.collected + |r.pending| == r.i;
    StartedCovered(s, r);
  }

  lemma StartedCovered<R>(s: Run<R>, r: Run<R>)
    requires Accounted(s) && !s.error
    requires r == Taken(s).(pending := s.pending + {s.i})
    ensures forall k :: 0 <= k < r.i ==> k in r.pending || k in r.responses
  {
    forall k | 0 <= k < r.i
      ensures k in r.pending || k in r.responses
    {
      if k < s.i {
        assert k in s.pending || k in s.responses;
      }
    }
  }

  lemma StartedSettled<R>(s: Run<R>, r: Run<R>)
    requires Settled(s) && !s.error && !s.iteratorDone
    requires r == Taken(s).(pending := s.pending + {s.i})
    ensures Settled(r)
  {
  }

  /** Starting a task that returns a promise makes it pending. */
  lemma StartedTaskCore<R>(s: Run<R>)
    requires Core(s) && !s.error && !s.iteratorDone && s.next < |s.items| && s.items[s.next].throws.None?
    ensures AfterRunNext(s) == Taken(s).(pending := s.pending + {s.i})
    ensures Core(AfterRunNext(s)) && |AfterRunNext(s).pending| == |s.pending| + 1
  {
    var r := Taken(s).(pending := s.pending + {s.i});
    StartedPositions(s, r);
    StartedIds(s, r);
    StartedAccounted(s, r);
    StartedSettled(s, r);
  }

  /** A task that throws when called rejects at once. */
  lemma ThrownTaskCore<R>(s: Run<R>)
    requires Core(s) && !s.error && !s.iteratorDone && s.next < |s.items| && s.items[s.next].throws.Some?
    ensures AfterRunNext(s) == AfterError(Taken(s), s.items[s.next].throws.value)
    ensures Core(AfterRunNext(s)) && AfterRunNext(s).pending == s.pending && AfterRunNext(s).error
  {
    TakenKeeps(s);
    ErrorCore(Taken(s), s.items[s.next].throws.value);
  }

  lemma StartCore<R>(s: Run<R>)
    requires Core(s) && !s.error && !s.iteratorDone && s.next < |s.items|
    ensures Core(AfterRunNext(s)) && !AfterRunNext(s).iteratorDone
    ensures s.items[s.next].throws.None? ==>
      AfterRunNext(s).pending == s.pending + {s.i} && |AfterRunNext(s).pending| == |s.pending| + 1 && !AfterRunNext(s).error
    ensures s.items[s.next].throws.Some? ==> AfterRunNext(s).pending == s.pending && AfterRunNext(s).error
  {
    if s.items[s.next].throws.None? {
      StartedTaskCore(s);
    } else {
      ThrownTaskCore(s);
    }
  }

  lemma {:induction false} AfterRunNextCore<R>(s: Run<R>)
    requires Core(s)
    ensures Core(AfterRunNext(s))
    ensures AfterRunNext(s).pending == s.pending || AfterRunNext(s).pending == s.pending + {s.i}
    ensures AfterRunNext(s).pending != s.pending ==> !AfterRunNext(s).iteratorDone
    ensures |AfterRunNext(s).pending| <= |s.pending| + 1
    ensures AfterRunNext(s).concurrency == s.concurrency
    ensures Resolves(AfterRunNext(s)) ==> Resolves(s)
  {
    if !(s.error || s.iteratorDone || s.next >= |s.items|) {
      StartCore(s);
    }
  }

  /** What `runNext` never touches, whatever the state. */
  lemma AfterRunNextFrame<R>(s: Run<R>)
    ensures var r := AfterRunNext(s);
      r.items == s.items && r.base == s.base && r.concurrency == s.concurrency &&
      r.responses == s.responses && r.collected == s.collected &&
      (Resolves(r) ==> Resolves(s)) &&
      ((r.next == s.next && r.pending == s.pending) || (r.next == s.next + 1 && r.pending <= s.pending + {s.i}))
  {
  }

  lemma {:induction false} AfterRoundsValid<R>(items: seq<Task>, next: nat, concurrency: int, k: nat)
    requires next <= |items| && k <= Rounds(concurrency)
    ensures Valid(AfterRounds(Init<R>(items, next, concurrency), k))
    ensures |AfterRounds(Init<R>(items, next, concurrency), k).pending| <= k
    ensures AfterRounds(Init<R>(items, next, concurrency), k).concurrency == concurrency
    ensures AfterRounds(Init<R>(items, next, concurrency), k).items == items
    ensures AfterRounds(Init<R>(items, next, concurrency), k).base == next
  {
    var s0 := Init<R>(items, next, concurrency);
    if k == 0 {
      InitValid<R>(items, next, concurrency);
    } else {
      AfterRoundsValid<R>(items, next, concurrency, k - 1);
      var s := AfterRounds(s0, k - 1);
      AfterRunNextCore(s);
      AfterRunNextFrame(s);
      if concurrency == 1 {
        assert k == 1 && s == s0;
      }
    }
  }

  lemma AfterRoundsStep<R>(s: Run<R>, k: nat)
    ensures AfterRounds(s, k + 1) == AfterRunNext(AfterRounds(s, k))
  {
  }

  /** The state right after `didSucceed` records a pending task's result. */
  function Recorded<R>(s: Run<R>, id: nat, result: R): Run<R>
  {
    s.(pending := s.pending - {id}, collected := s.collected + 1, responses := s.responses[id := result])
  }

  lemma RecordedCore<R>(s: Run<R>, id: nat, result: R)
    requires Core(s) && id in s.pending
    ensures var u := Recorded(s, id, result);
      Core(u) && |u.pending| == |s.pending| - 1 && !Resolves(s) && u.outcome == s.outcome
  {
    var u := Recorded(s, id, result);
    assert u.responses.Keys == s.responses.Keys + {id} && id !in s.responses.Keys;
    assert |u.pending| == |s.pending| - 1;
    assert Ids(u);
    assert Accounted(u);
  }

  /** `didSucceed` on a recorded state: it resolves exactly when the iterator is
      done and the last pending task answered; else it runs the next task. */
  lemma SuccessCore<R>(s: Run<R>, id: nat, result: R)
    requires Core(s) && id in s.pending
    ensures var u := Recorded(s, id, result);
      AfterDelivery(s, Succeeded(id, result)) ==
        if u.iteratorDone && u.collected > u.lastRun then u.(outcome := First(u.outcome, Resolved(u.responses)))
        else AfterRunNext(u)
    ensures Core(AfterDelivery(s, Succeeded(id, result)))
    ensures |AfterDelivery(s, Succeeded(id, result)).pending| <= |s.pending|
  {
    RecordedCore(s, id, result);
    var u := Recorded(s, id, result);
    if u.iteratorDone && u.collected > u.lastRun {
      assert !s.error ==> u.pending == {};
    } else {
      AfterRunNextCore(u);
    }
  }

  lemma {:induction false} AfterDeliveryValid<R>(s: Run<R>, c: Completion<R>)
    requires Valid(s)
    ensures Valid(AfterDelivery(s, c))
    ensures |AfterDelivery(s, c).pending| <= |s.pending|
    ensures AfterDelivery(s, c).concurrency == s.concurrency
  {
    if c.id in s.pending {
      if c.Succeeded? {
        SuccessValid(s, c.id, c.result);
      } else {
        FailureValid(s, c.id, c.error);
      }
    }
  }

  lemma SuccessValid<R>(s: Run<R>, id: nat, result: R)
    requires Valid(s) && id in s.pending
    ensures Valid(AfterDelivery(s, Succeeded(id, result)))
    ensures |AfterDelivery(s, Succeeded(id, result)).pending| <= |s.pending|
    ensures AfterDelivery(s, Succeeded(id, result)).concurrency == s.concurrency
  {
    SuccessCore(s, id, result);
    SuccessConcurrency(s, id, result);
    if s.concurrency == 1 {
      assert |s.pending| <= 1 && !s.iteratorDone;
      SuccessSingle(s, id, result);
    }
  }

  lemma SuccessConcurrency<R>(s: Run<R>, id: nat, result: R)
    requires id in s.pending
    ensures AfterDelivery(s, Succeeded(id, result)).concurrency == s.concurrency
  {
    AfterRunNextFrame(Recorded(s, id, result));
  }

  /** With a concurrency of one the answered task was the only one pending, the
      iterator was not done, and `didSucceed` runs the next task. */
  lemma SuccessSingle<R>(s: Run<R>, id: nat, result: R)
    requires Core(s) && id in s.pending && |s.pending| <= 1 && !s.iteratorDone
    ensures var r := AfterDelivery(s, Succeeded(id, result));
      (r.iteratorDone ==> r.pending == {}) && !Resolves(r)
  {
    var u := Recorded(s, id, result);
    RecordedCore(s, id, result);
    SuccessCore(s, id, result);
    assert |u.pending| == 0;
    AfterRunNextCore(u);
  }

  lemma FailureValid<R>(s: Run<R>, id: nat, e: Exception)
    requires Valid(s) && id in s.pending
    ensures Valid(AfterDelivery(s, Failed(id, e)))
    ensures |AfterDelivery(s, Failed(id, e)).pending| <= |s.pending|
    ensures AfterDelivery(s, Failed(id, e)).concurrency == s.concurrency
  {
    var t := s.(pending := s.pending - {id});
    assert Ids(t);
    ErrorCore(t, e);
    assert AfterDelivery(s, Failed(id, e)) == AfterError(t, e);
  }

  lemma {:induction false} DeliveriesValid<R>(s: Run<R>, cs: seq<Completion<R>>)
    requires Valid(s)
    ensures Valid(Deliveries(s, cs))
    ensures Deliveries(s, cs).concurrency == s.concurrency
    decreases |cs|
  {
    if cs != [] {
      AfterDeliveryValid(s, cs[0]);
      DeliveriesValid(AfterDelivery(s, cs[0]), cs[1..]);
    }
  }

  /** Whatever the order in which the tasks settle, never more than
      `concurrency` of them are pending at once, and with a concurrency of one
      the promise never resolves. */
  lemma ThrottleBound<R>(items: seq<Task>, next: nat, concurrency: int, cs: seq<Completion<R>>)
    requires next <= |items|
    ensures |Deliveries(Started<R>(items, next, concurrency), cs).pending| <= Rounds(concurrency)
    ensures concurrency == 1 ==> !Resolves(Deliveries(Started<R>(items, next, concurrency), cs))
  {
    AfterRoundsValid<R>(items, next, concurrency, Rounds(concurrency));
    DeliveriesValid(Started<R>(items, next, concurrency), cs);
  }

  /** Tasks are started in the iterator's order: each call of `runNext` that
      starts one gives it the next id and takes the iterator's next item. */
  lemma StartsInOrder<R>(s: Run<R>)
    requires Core(s) && !s.error && !s.iteratorDone && s.next < |s.items| && s.items[s.next].throws.None?
    ensures AfterRunNext(s).pending == s.pending + {s.i}
    ensures AfterRunNext(s).i == s.i + 1 && AfterRunNext(s).next == s.next + 1 && AfterRunNext(s).lastRun == s.i
    ensures s.i !in s.pending
  {
  }

  /** A success stores its result at its task's id and counts it; a failure
      rejects with its error unless the promise has settled already. */
  lemma DeliveryEffect<R>(s: Run<R>, c: Completion<R>)
    requires Valid(s) && c.id in s.pending
    ensures c.Succeeded? ==>
      AfterDelivery(s, c).responses == s.responses[c.id := c.result] && AfterDelivery(s, c).collected == s.collected + 1
    ensures c.Failed? ==>
      AfterDelivery(s, c).error && AfterDelivery(s, c).outcome == First(s.outcome, RejectedWith(c.error))
    ensures c.id !in AfterDelivery(s, c).pending
  {
    if c.Succeeded? {
      var t := s.(pending := s.pending - {c.id});
      var u := t.(collected := t.collected + 1, responses := t.responses[c.id := c.result]);
      if !(u.iteratorDone && u.collected > u.lastRun) {
        AfterRunNextFrame(u);
      }
    }
  }

  /** The promise resolves only from `didSucceed`, with the iterator exhausted
      and every started task succeeded, and then with every task's response. */
  lemma ResolvesOnlyWhenAllSucceeded<R>(s: Run<R>, c: Completion<R>)
    requires Valid(s) && !Resolves(s) && Resolves(AfterDelivery(s, c))
    ensures c.Succeeded? && c.id in s.pending && s.iteratorDone && s.collected + 1 > s.lastRun
    ensures var r := AfterDelivery(s, c);
      !r.error && r.pending == {} && r.i == |s.items| - s.base &&
      r.outcome.value.responses == r.responses &&
      forall k :: 0 <= k < r.i <==> k in r.responses
  {
    AfterDeliveryValid(s, c);
    var t := s.(pending := s.pending - {c.id});
    if c.Succeeded? {
      var u := t.(collected := t.collected + 1, responses := t.responses[c.id := c.result]);
      if !(u.iteratorDone && u.collected > u.lastRun) {
        AfterRunNextFrame(u);
      }
    }
  }

  /** After an error no task is started any more, and a rejection stays. */
  lemma ErrorStopsStarts<R>(s: Run<R>, c: Completion<R>)
    requires Valid(s) && s.error
    ensures AfterRunNext(s) == s
    ensures AfterDelivery(s, c).i == s.i && AfterDelivery(s, c).next == s.next
    ensures AfterDelivery(s, c).outcome == s.outcome && s.outcome.value.RejectedWith?
  {
  }

  /** An exhausted source, or a concurrency below one, starts no task, so no
      promise ever settles and the promise `throttledAll` returns stays pending. */
  lemma NothingToRunNeverSettles<R>(items: seq<Task>, next: nat, concurrency: int, cs: seq<Completion<R>>)
    requires next <= |items|
    requires next == |items| || concurrency < 1
    ensures Started<R>(items, next, concurrency).pending == {}
    ensures Started<R>(items, next, concurrency).outcome == None
    ensures Deliveries(Started<R>(items, next, concurrency), cs) == Started<R>(items, next, concurrency)
  {
    var s := Started<R>(items, next, concurrency);
    AfterRoundsValid<R>(items, next, concurrency, Rounds(concurrency));
    assert s.pending == {} && s.outcome == None by {
      if concurrency >= 1 {
        IdleRounds<R>(items, next, concurrency, Rounds(concurrency));
      }
    }
    IdleDeliveries(s, cs);
  }

  lemma {:induction false} IdleRounds<R>(items: seq<Task>, next: nat, concurrency: int, k: nat)
    requires next == |items| && k >= 1
    ensures AfterRounds(Init<R>(items, next, concurrency), k) ==
      Init<R>(items, next, concurrency).(iteratorDone := true)
  {
    if k > 1 {
      IdleRounds<R>(items, next, concurrency, k - 1);
    }
  }

  lemma {:induction false} IdleDeliveries<R>(s: Run<R>, cs: seq<Completion<R>>)
    requires s.pending == {}
    ensures Deliveries(s, cs) == s
    decreases |cs|
  {
    if cs != [] {
      IdleDeliveries(s, cs[1..]);
    }
  }

  /** The tasks not started yet never throw. */
  ghost predicate NoThrowsAhead<R>(s: Run<R>)
  {
    forall k :: s.next <= k < |s.items| ==> s.items[k].throws.None?
  }

  /** What keeps a run of two or more concurrent tasks without errors going:
      while the iterator has items, `concurrency` tasks are pending, and once
      none is pending the promise has resolved. */
  ghost predicate Flowing<R>(s: Run<R>)
  {
    && Valid(s)
    && s.concurrency >= 2
    && !s.error
    && NoThrowsAhead(s)
    && (!s.iteratorDone ==> |s.pending| == s.concurrency)
    && (s.pending == {} ==> s.outcome == Some(Resolved(s.responses)))
  }

  function Min(a: nat, b: nat): nat
  {
    if a <= b then a else b
  }

  /** After `k` rounds of the starting loop over `n` tasks none of which throws. */
  ghost predicate Warm<R>(s: Run<R>, k: nat, n: nat)
  {
    && Core(s) && NoThrowsAhead(s) && n == |s.items| - s.base
    && !s.error && s.outcome == None && s.i == Min(k, n)
    && |s.pending| == s.i && s.iteratorDone == (k > n)
  }

  lemma WarmStep<R>(s: Run<R>, k: nat, n: nat)
    requires Warm(s, k, n)
    ensures Warm(AfterRunNext(s), k + 1, n)
  {
    if s.iteratorDone {
      assert AfterRunNext(s) == s;
    } else if s.next < |s.items| {
      StartedTaskCore(s);
      AfterRunNextFrame(s);
    } else {
      assert AfterRunNext(s) == s.(iteratorDone := true);
    }
  }

  lemma {:induction false} RoundsWithoutThrows<R>(items: seq<Task>, next: nat, concurrency: int, k: nat)
    requires next <= |items|
    requires forall j :: next <= j < |items| ==> items[j].throws.None?
    ensures Warm(AfterRounds(Init<R>(items, next, concurrency), k), k, |items| - next)
  {
    InitWarm<R>(items, next, concurrency);
    WarmRounds(Init<R>(items, next, concurrency), k, |items| - next);
  }

  lemma {:induction false} WarmRounds<R>(s0: Run<R>, k: nat, n: nat)
    requires Warm(s0, 0, n)
    ensures Warm(AfterRounds(s0, k), k, n)
  {
    if k == 0 {
      assert AfterRounds(s0, k) == s0;
    } else {
      WarmRounds(s0, k - 1, n);
      WarmRound(s0, k - 1, k, n);
    }
  }

  lemma WarmRound<R>(s0: Run<R>, j: nat, k: nat, n: nat)
    requires k == j + 1 && Warm(AfterRounds(s0, j), j, n)
    ensures Warm(AfterRounds(s0, k), k, n)
  {
    WarmStep(AfterRounds(s0, j), j, n);
  }

  lemma InitWarm<R>(items: seq<Task>, next: nat, concurrency: int)
    requires next <= |items|
    requires forall j :: next <= j < |items| ==> items[j].throws.None?
    ensures Warm(Init<R>(items, next, concurrency), 0, |items| - next)
  {
    InitValid<R>(items, next, concurrency);
  }

  lemma StartedFlowing<R>(items: seq<Task>, next: nat, concurrency: int)
    requires next < |items| && concurrency >= 2
    requires forall j :: next <= j < |items| ==> items[j].throws.None?
    ensures Flowing(Started<R>(items, next, concurrency))
  {
    AfterRoundsValid<R>(items, next, concurrency, Rounds(concurrency));
    RoundsWithoutThrows<R>(items, next, concurrency, Rounds(concurrency));
    var s := Started<R>(items, next, concurrency);
    assert s.items == items && s.next >= next;
  }

  lemma {:induction false} SuccessFlows<R>(s: Run<R>, id: nat, result: R)
    requires Flowing(s) && id in s.pending
    ensures Flowing(AfterDelivery(s, Succeeded(id, result)))
  {
    AfterDeliveryValid(s, Succeeded(id, result));
    RecordedCore(s, id, result);
    SuccessCore(s, id, result);
    var u := Recorded(s, id, result);
    assert s.outcome == None;
    assert Positions(u) && Accounted(u);
    if s.iteratorDone {
      if u.pending != {} {
        assert !(u.collected > u.lastRun);
        assert AfterRunNext(u) == u;
      }
    } else {
      assert |u.pending| >= 1;
      if u.next < |u.items| {
        StartedTaskCore(u);
      }
    }
  }

  /** With a concurrency of two or more and no task that throws or fails, the
      promise has resolved once no task is pending, and every settling task
      brings that point closer: `Measure` counts the tasks not settled yet,
      started or not. */
  function Measure<R>(s: Run<R>): int
  {
    |s.items| - s.next + |s.pending|
  }

  lemma {:induction false} ResolvesWithoutErrors<R>(items: seq<Task>, next: nat, concurrency: int, cs: seq<Completion<R>>)
    requires next < |items| && concurrency >= 2
    requires forall j :: next <= j < |items| ==> items[j].throws.None?
    requires forall k :: 0 <= k < |cs| ==> cs[k].Succeeded?
    ensures var s := Deliveries(Started<R>(items, next, concurrency), cs);
      !s.error && (s.pending == {} ==> s.outcome == Some(Resolved(s.responses)))
  {
    StartedFlowing<R>(items, next, concurrency);
    FlowingDeliveries(Started<R>(items, next, concurrency), cs);
  }

  lemma {:induction false} FlowingDeliveries<R>(s: Run<R>, cs: seq<Completion<R>>)
    requires Flowing(s)
    requires forall k :: 0 <= k < |cs| ==> cs[k].Succeeded?
    ensures Flowing(Deliveries(s, cs))
    decreases |cs|
  {
    if cs != [] {
      if cs[0].id in s.pending {
        SuccessFlows(s, cs[0].id, cs[0].result);
      }
      FlowingDeliveries(AfterDelivery(s, cs[0]), cs[1..]);
    }
  }

  /** Every settling of a pending task lowers the measure, so a call whose
      tasks all settle reaches a state with no pending task. */
  lemma DeliveryProgress<R>(s: Run<R>, c: Completion<R>)
    requires Valid(s) && c.id in s.pending
    ensures Measure(AfterDelivery(s, c)) < Measure(s)
  {
    var t := s.(pending := s.pending - {c.id});
    assert |t.pending| == |s.pending| - 1;
    if c.Succeeded? {
      var u := t.(collected := t.collected + 1, responses := t.responses[c.id := c.result]);
      if !(u.iteratorDone && u.collected > u.lastRun) {
        AfterRunNextFrame(u);
        var r := AfterRunNext(u);
        if r.next == u.next + 1 {
          assert |r.pending| <= |u.pending + {u.i}| <= |u.pending| + 1;
        }
      }
    }
  }

  /** The iterator `makeIterable` builds over an array. A source that has its
      own `next` is taken to be such an iterator too: one over a finite sequence
      of tasks, at some position. */
  class Cursor {
    const items: seq<Task>
    var nextIndex: nat

    ghost predicate Valid()
      reads this
    {
      nextIndex <= |items|
    }

    constructor (items: seq<Task>)
      ensures this.items == items && nextIndex == 0 && Valid()
    {
      this.items := items;
      nextIndex := 0;
    }

    /** `next()`: the next item, or `None` for `{done: true}`. */
    method Next() returns (r: Option<Task>)
      requires Valid()
      modifies this
      ensures Valid()
      ensures old(nextIndex) < |items| ==> r == Some(items[old(nextIndex)]) && nextIndex == old(nextIndex) + 1
      ensures old(nextIndex) == |items| ==> r == None && nextIndex == old(nextIndex)
    {
      if nextIndex < |items| {
        r := Some(items[nextIndex]);
        nextIndex := nextIndex + 1;
      } else {
        r := None;
      }
    }
  }

  /** The `source` argument: an array of tasks, or an object with a `next`. */
  datatype Source = ArraySource(tasks: seq<Task>) | IteratorSource(cursor: Cursor)

  /** `makeIterable(source)`: an iterator is used as it is, an array gets a
      fresh iterator at its start. */
  method MakeIterable(source: Source) returns (it: Cursor)
    ensures source.IteratorSource? ==> it == source.cursor
    ensures source.ArraySource? ==> fresh(it) && it.items == source.tasks && it.nextIndex == 0 && it.Valid()
  {
    if source.IteratorSource? {
      it := source.cursor;
    } else {
      it := new Cursor(source.tasks);
    }
  }

  /** The closure of one `throttledAll` call, its variables updated in place.
      `pending` is bookkeeping of the model: the ids whose promise has not
      settled yet. */
  class Throttled<R> {
    const it: Cursor
    const concurrency: int
    ghost const base: nat
    var i: nat
    var collected: nat
    var lastRun: nat
    var iteratorDone: bool
    var error: bool
    var responses: map<nat, R>
    var outcome: Option<Settlement<R>>
    ghost var pending: set<nat>

    ghost function State(): Run<R>
      reads this, it
    {
      Run(it.items, it.nextIndex, base, concurrency, i, collected, lastRun, iteratorDone, error,
          responses, outcome, pending)
    }

    constructor (it: Cursor, concurrency: int)
      requires it.Valid()
      ensures this.it == it && this.concurrency == concurrency
      ensures State() == Init(it.items, it.nextIndex, concurrency)
    {
      this.it := it;
      this.concurrency := concurrency;
      base := it.nextIndex;
      i, collected, lastRun := 0, 0, 0;
      iteratorDone, error := false, false;
      responses, outcome := map[], None;
      pending := {};
    }

    /** `didError(e)`: the first settlement wins. */
    method DidError(e: Exception)
      modifies this
      ensures State() == AfterError(old(State()), e)
    {
      error := true;
      if outcome.None? {
        outcome := Some(RejectedWith(e));
      }
    }

    /** `runner(id, fn)`: a task that throws rejects at once; otherwise its
        promise is pending. */
    method Runner(id: nat, task: Task)
      modifies this
      ensures State() == AfterRunner(old(State()), id, task)
    {
      lastRun := id;
      if task.throws.Some? {
        DidError(task.throws.value);
      } else {
        pending := pending + {id};
      }
    }

    /** `runNext()`. */
    method RunNext()
      requires it.Valid()
      modifies this, it
      ensures it.Valid() && State() == AfterRunNext(old(State()))
    {
      if error || iteratorDone {
        return;
      }
      var next := it.Next();
      if next.None? {
        iteratorDone := true;
        return;
      }
      var id := i;
      i := i + 1;
      Runner(id, next.value);
    }

    /** `didSucceed(id, result)`. */
    method DidSucceed(id: nat, result: R)
      requires it.Valid()
      modifies this, it
      ensures it.Valid() && State() == AfterSuccess(old(State()), id, result)
    {
      collected := collected + 1;
      responses := responses[id := result];
      if iteratorDone && collected > lastRun {
        if outcome.None? {
          outcome := Some(Resolved(responses));
        }
      } else {
        RunNext();
      }
    }

    /** The promise of the pending task `c.id` settling: `then` calls
        `didSucceed`, `catch` calls `didError`. */
    method Deliver(c: Completion<R>)
      requires it.Valid() && c.id in pending
      modifies this, it
      ensures it.Valid() && State() == AfterDelivery(old(State()), c)
    {
      pending := pending - {c.id};
      match c
      case Succeeded(id, result) => DidSucceed(id, result);
      case Failed(_, e) => DidError(e);
    }

    /** The starting loop `for (ii = 0; ii < concurrency; ii++) runNext()`. */
    method Start()
      requires it.Valid()
      modifies this, it
      ensures it.Valid() && State() == AfterRounds(old(State()), Rounds(concurrency))
    {
      ghost var s0 := State();
      var ii := 0;
      while ii < concurrency
        invariant 0 <= ii <= Rounds(concurrency)
        invariant it.Valid() && State() == AfterRounds(s0, ii)
      {
        RunNext();
        assert State() == AfterRounds(s0, ii + 1) by {
          AfterRoundsStep(s0, ii);
        }
        ii := ii + 1;
      }
      assert ii == Rounds(concurrency);
    }
  }

  /** `throttledAll(source, concurrency)` up to the return of its executor:
      `None` stands for an omitted `concurrency`. */
  method ThrottledAll<R>(source: Source, concurrency: Option<int>) returns (t: Throttled<R>)
    requires source.IteratorSource? ==> source.cursor.Valid()
    modifies if source.IteratorSource? then {source.cursor} else {}
    ensures fresh(t) && t.it.Valid()
    ensures source.IteratorSource? ==> t.it == source.cursor
    ensures source.IteratorSource? ==>
      t.State() == Started(source.cursor.items, old(source.cursor.nextIndex), concurrency.GetOr(DefaultConcurrency))
    ensures source.ArraySource? ==> t.State() == Started(source.tasks, 0, concurrency.GetOr(DefaultConcurrency))
  {
    var it := MakeIterable(source);
    t := new Throttled(it, concurrency.GetOr(DefaultConcurrency));
    t.Start();
  }
}
