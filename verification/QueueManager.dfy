/** The manager of attempts: it owns the member cache object, the wait group and the writes
    that reach the store, and it ends attempts by leave, by timeout and by report. */
module QueueManager {
  import opened Options
  import opened LruReference
  import opened LruGeneration
  import opened LruRefinement
  import opened LruCache
  import opened Attempts
  import opened AttemptLifecycle

  /** What the manager asks of a queue. */
  datatype Queue = Queue(processingAutosave: bool, prolongationTimeoutRetry: bool)

  /** A write that succeeded: a schema result, or an agent's final report. */
  datatype Write = SchemaResult(id: int, callback: Callback) | CallbackReporting(id: int, callback: Callback)

  class Manager {
    const membersCache: Cache<int, Attempt>
    var wg: int
    var writes: seq<Write>
    ghost var life: Life<Attempt>

    ghost predicate Valid()
      reads this`wg, this`life, membersCache, membersCache.repr
    {
      && this !in membersCache.repr
      && membersCache.Valid() && membersCache.defaultExpiry == 0
      && Tracks(membersCache.view, life.members)
      && wg == life.waiting && Balanced(life)
      && AllFiled(life)
    }

    /** Cached attempts are filed under their own ids, and are no part of the cache itself. */
    ghost predicate AllFiled(s: Life<Attempt>)
      reads membersCache
    {
      forall k :: k in s.members.cells ==>
        s.members.cells[k].value.id == k && s.members.cells[k].value !in membersCache.repr
    }

    lemma StillFiled(e: Event<Attempt>)
      requires AllFiled(life) && (e.Create? ==> e.attempt.id == e.id && e.attempt !in membersCache.repr)
      ensures AllFiled(LifeStep(life, e))
    {
      forall k | k in LifeStep(life, e).members.cells
        ensures LifeStep(life, e).members.cells[k].value.id == k
        ensures LifeStep(life, e).members.cells[k].value !in membersCache.repr
      {
        StepKeepsAttempts(life, e, k);
      }
    }

    constructor (maxMemberCache: int)
      ensures Valid() && fresh(membersCache.repr) && life == Start(maxMemberCache) && writes == []
    {
      membersCache := new Cache(maxMemberCache, 0);
      wg := 0;
      writes := [];
      life := Start(maxMemberCache);
    }

    method GetAttempt(id: int, now: int) returns (attempt: Option<Attempt>)
      requires Valid()
      modifies this`life, membersCache.repr
      ensures Valid() && fresh(membersCache.repr - old(membersCache.repr))
      ensures life == LifeStep(old(life), Find(id, now))
      ensures attempt.Some? <==> id in old(life).members.cells
      ensures attempt.Some? ==> attempt.value == old(life).members.cells[id].value
    {
      StepTracks<int, Attempt>(membersCache.view, life.members, Get(id, now));
      StepBalanced(life, Find(id, now));
      attempt := membersCache.Get(id, now);
      StillFiled(Find(id, now));
      life := LifeStep(life, Find(id, now));
    }

    method CreateAttempt(id: int, now: int) returns (attempt: Attempt)
      requires Valid()
      modifies this`life, this`wg, membersCache.repr
      ensures Valid() && fresh(membersCache.repr - old(membersCache.repr))
      ensures fresh(attempt) && attempt !in membersCache.repr && attempt.Valid() && attempt.id == id
      ensures attempt.draft == None
      ensures life == LifeStep(old(life), Create(id, attempt, now))
    {
      attempt := new Attempt(id);
      Enroll(attempt, now);
    }

    method Enroll(attempt: Attempt, now: int)
      requires Valid() && attempt !in membersCache.repr
      modifies this`life, this`wg, membersCache.repr
      ensures Valid() && fresh(membersCache.repr - old(membersCache.repr))
      ensures life == LifeStep(old(life), Create(attempt.id, attempt, now))
    {
      StepTracks(membersCache.view, life.members, Add(attempt.id, attempt, 0, now));
      StepBalanced(life, Create(attempt.id, attempt, now));
      membersCache.AddWithExpiresInSecs(attempt.id, attempt, membersCache.defaultExpiry, now);
      wg := wg + 1;
      StillFiled(Create(attempt.id, attempt, now));
      life := LifeStep(life, Create(attempt.id, attempt, now));
    }

    /** None stands for the panic on an id that is still cached. */
    method CreateAttemptIfNotExists(id: int, now: int) returns (attempt: Option<Attempt>)
      requires Valid()
      modifies this`life, this`wg, membersCache.repr
      ensures Valid() && fresh(membersCache.repr - old(membersCache.repr))
      ensures attempt.None? <==> id in old(life).members.cells
      ensures life.overwritten == old(life).overwritten
      ensures attempt.Some? ==> life == LifeStep(LifeStep(old(life), Find(id, now)), Create(id, attempt.value, now))
    {
      var cached := GetAttempt(id, now);
      if cached.Some? {
        return None;
      }
      var created := CreateAttempt(id, now);
      return Some(created);
    }

    /** The end of a leave: the attempt is uncached and the wait group counts down. */
    method RemoveMember(id: int)
      requires Valid() && id in life.members.cells
      modifies this`life, this`wg, membersCache.repr
      ensures Valid() && fresh(membersCache.repr - old(membersCache.repr))
      ensures life == old(life).(members := Forget(old(life).members, id), waiting := old(life).waiting - 1)
    {
      StepTracks<int, Attempt>(membersCache.view, life.members, Remove(id));
      DropOne(life.members.cells, id);
      membersCache.Remove(id);
      wg := wg - 1;
      life := life.(members := Forget(life.members, id), waiting := life.waiting - 1);
    }

    method SaveDraft(attempt: Attempt, queue: Queue, writeOk: bool)
      modifies this`writes
      ensures writes == old(writes) +
                (if queue.processingAutosave && attempt.draft.Some? && writeOk
                 then [SchemaResult(attempt.id, attempt.draft.value)] else [])
    {
      if queue.processingAutosave && attempt.draft.Some? && writeOk {
        writes := writes + [SchemaResult(attempt.id, attempt.draft.value)];
      }
    }

    method LeavingMember(attempt: Attempt, queue: Queue, writeOk: bool, now: int)
      requires Valid() && attempt !in membersCache.repr
      modifies this, attempt`result, membersCache.repr
      ensures Valid() && fresh(membersCache.repr - old(membersCache.repr))
      ensures life == LifeStep(old(life), Leave(attempt.id, now))
      ensures attempt.result == if old(attempt.result) == "" then "abandoned" else old(attempt.result)
      ensures writes == old(writes) +
                (if attempt.id in old(life).members.cells && queue.processingAutosave && attempt.draft.Some? && writeOk
                 then [SchemaResult(attempt.id, attempt.draft.value)] else [])
    {
      if attempt.result == "" {
        attempt.result := "abandoned";
      }
      Uncache(attempt, queue, writeOk, now);
    }

    /** A cached attempt has its draft saved and is then removed. */
    method Uncache(attempt: Attempt, queue: Queue, writeOk: bool, now: int)
      requires Valid() && attempt !in membersCache.repr
      modifies this, membersCache.repr
      ensures Valid() && fresh(membersCache.repr - old(membersCache.repr))
      ensures life == LifeStep(old(life), Leave(attempt.id, now))
      ensures writes == old(writes) +
                (if attempt.id in old(life).members.cells && queue.processingAutosave && attempt.draft.Some? && writeOk
                 then [SchemaResult(attempt.id, attempt.draft.value)] else [])
    {
      LeaveInTwo(life, attempt.id, now);
      var cached := GetAttempt(attempt.id, now);
      if cached.None? {
        return;
      }
      SaveDraft(attempt, queue, writeOk);
      RemoveMember(attempt.id);
    }

    /** Ends an attempt whose processing timed out. `schema` is the after-schema answer, if
        the queue has one, and `stored` the result the store answers. The answer, or else the
        timeout result if there is no draft, is written at once, and the attempt leaves if that
        succeeds. With a draft and no answer, the attempt leaves, and the draft is written if
        the attempt is cached and its queue saves drafts. */
    method TimeoutLeavingMember(attempt: Attempt, queue: Queue, schema: Option<Callback>, writeOk: bool, draftOk: bool,
          stored: Option<string>, now: int)
      requires Valid() && attempt !in membersCache.repr
      modifies this, attempt, membersCache.repr
      ensures Valid() && fresh(membersCache.repr - old(membersCache.repr))
      ensures schema.Some? && writeOk ==> writes == old(writes) + [SchemaResult(attempt.id, schema.value)]
      ensures schema.None? && old(attempt.draft).None? && writeOk ==>
                var status := if queue.prolongationTimeoutRetry then "timeout" else "canceled_by_timeout";
                writes == old(writes) + [SchemaResult(attempt.id, Callback(status, ""))]
      ensures schema.None? && old(attempt.draft).Some? ==>
                var saved := attempt.id in old(life).members.cells && queue.processingAutosave && draftOk;
                writes == old(writes) + if saved then [SchemaResult(attempt.id, old(attempt.draft).value)] else []
      ensures var direct := schema.Some? || old(attempt.draft).None?;
              && (direct && !writeOk ==>
                    writes == old(writes) && life == old(life) && attempt.result == old(attempt.result))
              && (!direct || writeOk ==> life == LifeStep(old(life), Leave(attempt.id, now)))
              && (direct && writeOk ==>
                    attempt.result == if stored.Some? && stored.value != "" then stored.value else "abandoned")
      ensures writeOk && draftOk ==>
                (|writes| == |old(writes)| + 1 <==>
                 || schema.Some? || old(attempt.draft).None?
                 || (attempt.id in old(life).members.cells && queue.processingAutosave))
    {
      var result := Callback(if queue.prolongationTimeoutRetry then "timeout" else "canceled_by_timeout", "");
      if schema.Some? {
        result := schema.value;
        attempt.DropDraftResult();
      }
      if attempt.draft.None? {
        if !writeOk {
          return;
        }
        writes := writes + [SchemaResult(attempt.id, result)];
        attempt.result := if stored.Some? then stored.value else "abandoned";
      }
      LeavingMember(attempt, queue, draftOk, now);
    }

    /** A report without a status counts as abandoned. A draft is kept on the cached attempt and
        nothing is written. A final report discards any draft, is written once, with the status
        the schema answers if it does (`answered`), and ends the attempt: nothing else is
        written for it. If the rules or the write fail, the attempt stays. */
    method ReportingAttempt(id: int, result: Callback, draft: bool, queue: Queue, rulesOk: bool, answered: string,
          writeOk: bool, now: int)
        returns (attempt: Option<Attempt>)
      requires Valid()
      modifies this, membersCache.repr, if id in life.members.cells then {life.members.cells[id].value} else {}
      ensures Valid() && fresh(membersCache.repr - old(membersCache.repr))
      ensures attempt.Some? <==> id in old(life).members.cells
      ensures attempt.Some? ==> attempt.value == old(life).members.cells[id].value
      ensures attempt.Some? && draft ==>
                && attempt.value.draft ==
                   Some(Callback(if result.status == "" then "abandoned" else result.status, result.description))
                && writes == old(writes) && life == LifeStep(old(life), Find(id, now))
      ensures attempt.Some? && !draft ==> attempt.value.draft == None
      ensures attempt.Some? && !draft && rulesOk && writeOk ==>
                var status := if answered != "" then answered
                              else if result.status != "" then result.status else "abandoned";
                && writes == old(writes) + [CallbackReporting(id, Callback(status, result.description))]
                && life == LifeStep(LifeStep(old(life), Find(id, now)), Leave(id, now))
      ensures attempt.Some? && !draft && !(rulesOk && writeOk) ==>
                writes == old(writes) && life == LifeStep(old(life), Find(id, now))
      ensures attempt.None? ==>
                var status := if result.status != "" then result.status else "abandoned";
                && life == LifeStep(old(life), Find(id, now))
                && writes == old(writes) +
                             if writeOk then [CallbackReporting(id, Callback(status, result.description))] else []
    {
      var named := if result.status == "" then result.(status := "abandoned") else result;
      attempt := GetAttempt(id, now);
      if attempt.Some? && draft {
        attempt.value.UseDraft(named);
        return;
      }
      if attempt.None? {
        if writeOk {
          writes := writes + [CallbackReporting(id, named)];
        }
        return;
      }
      var ruled := if answered != "" then named.(status := answered) else named;
      FinalReport(attempt.value, ruled, queue, rulesOk, writeOk, now);
    }

    /** The report of an attempt that is still cached. */
    method FinalReport(attempt: Attempt, result: Callback, queue: Queue, rulesOk: bool, writeOk: bool, now: int)
      requires Valid() && attempt !in membersCache.repr
      modifies this, attempt, membersCache.repr
      ensures Valid() && fresh(membersCache.repr - old(membersCache.repr)) && attempt.draft == None
      ensures rulesOk && writeOk ==> writes == old(writes) + [CallbackReporting(attempt.id, result)]
      ensures rulesOk && writeOk ==> life == LifeStep(old(life), Leave(attempt.id, now))
      ensures !rulesOk || !writeOk ==> writes == old(writes) && life == old(life)
    {
      attempt.DropDraftResult();
      if !rulesOk || !writeOk {
        return;
      }
      writes := writes + [CallbackReporting(attempt.id, result)];
      LeavingMember(attempt, queue, true, now);
    }
  }

  /** A draft of a cached attempt survives until its timeout: in an autosave queue, with
      successful writes, the two calls persist exactly one schema result, the schema's answer
      if there is one and the draft otherwise, and the attempt has left. */
  method DraftThenTimeout(m: Manager, id: int, result: Callback, queue: Queue, schema: Option<Callback>, now: int,
        later: int)
    requires m.Valid() && id in m.life.members.cells && queue.processingAutosave
    modifies m, m.membersCache.repr, m.life.members.cells[id].value
    ensures m.Valid() && id !in m.life.members.cells && m.wg == old(m.wg) - 1
    ensures var draft := Callback(if result.status == "" then "abandoned" else result.status, result.description);
            m.writes == old(m.writes) + [SchemaResult(id, if schema.Some? then schema.value else draft)]
  {
    var attempt := m.ReportingAttempt(id, result, true, queue, true, "", true, now);
    m.TimeoutLeavingMember(attempt.value, queue, schema, true, true, None, later);
  }

  /** In a queue that does not autosave, a draft keeps the timeout result from being persisted
      and is not persisted either: nothing is. */
  method DraftWithoutAutosave(m: Manager, id: int, result: Callback, queue: Queue, now: int, later: int)
    requires m.Valid() && id in m.life.members.cells && !queue.processingAutosave
    modifies m, m.membersCache.repr, m.life.members.cells[id].value
    ensures m.Valid() && id !in m.life.members.cells && m.wg == old(m.wg) - 1
    ensures m.writes == old(m.writes)
  {
    var attempt := m.ReportingAttempt(id, result, true, queue, true, "", true, now);
    m.TimeoutLeavingMember(attempt.value, queue, None, true, true, None, later);
  }

  /** A final report discards the draft: it alone is persisted, and the attempt has left. */
  method DraftThenReport(m: Manager, id: int, draft: Callback, result: Callback, queue: Queue, now: int, later: int)
    requires m.Valid() && id in m.life.members.cells
    modifies m, m.membersCache.repr, m.life.members.cells[id].value
    ensures m.Valid() && id !in m.life.members.cells
    ensures var report := Callback(if result.status == "" then "abandoned" else result.status, result.description);
            m.writes == old(m.writes) + [CallbackReporting(id, report)]
  {
    var attempt := m.ReportingAttempt(id, draft, true, queue, true, "", true, now);
    attempt := m.ReportingAttempt(id, result, false, queue, true, "", true, later);
  }

  /** The whole life of an attempt that ends by timeout with a draft. */
  method LifeOfADraft(maxMemberCache: int, id: int, result: Callback, queue: Queue, now: int) returns (m: Manager)
    requires maxMemberCache > 0 && queue.processingAutosave
    ensures fresh(m) && m.Valid() && m.wg == 0
    ensures var draft := Callback(if result.status == "" then "abandoned" else result.status, result.description);
            m.writes == [SchemaResult(id, draft)]
  {
    m := new Manager(maxMemberCache);
    var attempt := m.CreateAttempt(id, now);
    assert id in m.life.members.cells;
    DraftThenTimeout(m, id, result, queue, None, now, now);
  }
}
