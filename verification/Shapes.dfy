/** What the shape checks of the three durable files let pass, in terms of what a reader finds. */
module Shapes {
  import opened Prelude
  import opened Lists
  import opened TaskContract
  import J = JournalRecord
  import A = Arbiter
  import T = TaskStore

  // ---- The arbiter -------------------------------------------------------------------------------------

  /** No request and no ticket occurs twice. */
  predicate EntriesDiffer(queue: seq<A.Entry>) {
    forall i, j :: 0 <= i < j < |queue| ==>
      queue[i].requestId != queue[j].requestId && queue[i].ticket != queue[j].ticket
  }

  lemma OneMoreEntry(front: seq<A.Entry>, last: A.Entry)
    ensures EntriesDiffer(front + [last]) <==>
      EntriesDiffer(front) && forall e :: e in front ==> e.requestId != last.requestId && e.ticket != last.ticket
  {
    var queue := front + [last];
    assert forall i :: 0 <= i < |front| ==> queue[i] == front[i] && front[i] in front;
    if EntriesDiffer(queue) {
      forall e | e in front ensures e.requestId != last.requestId && e.ticket != last.ticket {
        var i :| 0 <= i < |front| && front[i] == e;
        assert queue[i] == e && queue[|front|] == last;
      }
    }
  }

  lemma {:induction false} QueueShapeExactly(queue: seq<A.Entry>)
    ensures A.ValidQueue(queue) <==>
      EntriesDiffer(queue) && forall i :: 0 <= i < |queue| ==> 1 <= queue[i].ticket <= MAX_SAFE_INTEGER
  {
    hide EntriesDiffer;
    if queue == [] {
      assert EntriesDiffer([]) by { NoEntries(); }
    } else {
      var front, last := queue[..|queue| - 1], queue[|queue| - 1];
      QueueShapeExactly(front);
      assert queue == front + [last];
      OneMoreEntry(front, last);
    }
  }

  lemma NoEntries()
    ensures EntriesDiffer([])
  {
  }

  /** A state file of the arbiter is read only with counters in range and a queue of at most a thousand
      entries without double requests or tickets. */
  lemma ArbiterShapeExactly(s: A.State)
    ensures A.ValidState(s) <==>
      && 0 <= s.revision <= MAX_SAFE_INTEGER && 0 <= s.session.epoch <= MAX_SAFE_INTEGER
      && 1 <= s.nextTicket <= MAX_SAFE_INTEGER && 1 <= s.nextFence <= MAX_SAFE_INTEGER
      && (s.active.Some? ==> 1 <= s.active.value.fence <= MAX_SAFE_INTEGER)
      && |s.queue| <= 1000
      && (forall i :: 0 <= i < |s.queue| ==> 1 <= s.queue[i].ticket <= MAX_SAFE_INTEGER)
      && EntriesDiffer(s.queue)
  {
    QueueShapeExactly(s.queue);
  }

  // ---- The journal -------------------------------------------------------------------------------------

  lemma {:induction false} DistinctExactly(outputs: seq<J.ProviderOutput>)
    ensures J.DistinctIndexes(outputs) <==>
      forall i, j :: 0 <= i < j < |outputs| ==> outputs[i].index != outputs[j].index
  {
    if outputs != [] {
      var front, last := outputs[..|outputs| - 1], outputs[|outputs| - 1];
      DistinctExactly(front);
      assert outputs == front + [last];
      assert forall i :: 0 <= i < |front| ==> front[i] == outputs[i] && front[i] in front;
    }
  }

  /** The outputs of a record: one video, or one to four images with different indexes below four. */
  lemma OutputShapeExactly(outputs: seq<J.ProviderOutput>, mode: Media)
    ensures J.ValidOutputs(outputs, mode) <==>
      && (forall i :: 0 <= i < |outputs| ==> 0 <= outputs[i].index < 4 && outputs[i].media == mode)
      && (forall i, j :: 0 <= i < j < |outputs| ==> outputs[i].index != outputs[j].index)
      && ((mode == Image && 1 <= |outputs| <= 4) || (mode == Video && |outputs| == 1))
  {
    DistinctExactly(outputs);
    assert forall i :: 0 <= i < |outputs| ==> outputs[i] in outputs;
  }

  predicate InRange(r: J.Record) {
    && 1 <= r.version <= MAX_SAFE_INTEGER
    && (r.fence.Some? ==> 1 <= r.fence.value <= MAX_SAFE_INTEGER)
    && (r.account.Some? ==> 0 <= r.account.value.epoch <= MAX_SAFE_INTEGER)
    && (r.queueTicket.Some? ==> 1 <= r.queueTicket.value <= MAX_SAFE_INTEGER)
    && (r.retryCount.Some? ==> 0 <= r.retryCount.value <= 1000000)
  }

  /** A record of a task: before it is accepted it has no receipt and afterwards it has one; only a
      waiting one has a queue lease, only a pending one a reservation, and one that permits a spawn a
      fence; and only a completed success has outputs. */
  lemma TaskRecordShapeExactly(r: J.Record)
    requires r.task.Some?
    ensures J.ValidRecord(r) <==>
      && InRange(r) && r.task.value.mode != Audio
      && (r.state != J.Queued ==> r.queueLease.None?)
      && (r.state != J.Pending ==> r.reservation.NoReservation?)
      && (r.reservation.Reservation? && r.reservation.phase == J.SpawnPermitted ==> r.fence.Some?)
      && (r.state == J.Queued || r.state == J.Pending ==> r.submitId.None?)
      && (r.state == J.Accepted || r.state == J.Succeeded ==> r.submitId.Some?)
      && (r.outputs.Some? ==>
            && r.state == J.Succeeded && r.officialStatus == Some(StatusCompleted)
            && J.ValidOutputs(r.outputs.value, r.task.value.mode))
  {
  }

  /** A record of the older interface is an intent, an acceptance or an uncertainty, is never polled,
      and has no code but the warning about a failed clean-up. */
  lemma RunRecordShapeExactly(r: J.Record)
    requires r.task.None?
    ensures J.ValidRecord(r) <==>
      && InRange(r) && r.queueLease.None?
      && (r.state == J.Pending || r.state == J.Accepted || r.state == J.Unknown)
      && (r.state != J.Pending ==> r.reservation.NoReservation?)
      && (r.reservation.Reservation? && r.reservation.phase == J.SpawnPermitted ==> r.fence.Some?)
      && (r.state == J.Pending ==> r.submitId.None?) && (r.state == J.Accepted ==> r.submitId.Some?)
      && r.nextPollAt.None? && r.pollLease.None? && r.retryCount.None? && r.lastObservedAt.None? && r.outputs.None?
      && (r.errorCode.Some? ==> r.state == J.Accepted && r.errorCode == Some(CleanupFailed))
  {
  }

  // ---- The store ---------------------------------------------------------------------------------------

  /** A stored task has an outcome exactly at the end of its lifecycle, at most 32 outputs with
      different indexes, and codes that are safe to show. */
  lemma StoredTaskShapeExactly(t: T.StoredTask)
    ensures T.ValidStoredTask(t) <==>
      && 1 <= t.version <= MAX_SAFE_INTEGER && 1 <= t.journalVersion <= MAX_SAFE_INTEGER
      && (t.lifecycle == Terminal <==> t.outcome.Some?)
      && t.mode != Some(Audio)
      && (t.lastSyncError.Some? ==> SafeErrorCode(t.lastSyncError.value))
      && (t.context.Scoped? && BatchIndex in t.context.fields ==> t.context.fields[BatchIndex] <= MAX_SAFE_INTEGER)
      && (t.context.Scoped? && BatchCount in t.context.fields ==> 1 <= t.context.fields[BatchCount] <= MAX_SAFE_INTEGER)
      && |t.outputs| <= 32
      && (forall i :: 0 <= i < |t.outputs| ==>
            && 0 <= t.outputs[i].index <= MAX_SAFE_INTEGER
            && (t.outputs[i].errorCode.Some? ==> SafeErrorCode(t.outputs[i].errorCode.value)))
      && (forall i, j :: 0 <= i < j < |t.outputs| ==> t.outputs[i].index != t.outputs[j].index)
  {
    UniqueExactly(t.outputs, T.OutputIndex);
    assert forall i :: 0 <= i < |t.outputs| ==> t.outputs[i] in t.outputs;
  }

  lemma {:induction false} UniqueExactly<X, K>(s: seq<X>, key: X -> K)
    ensures Unique(s, key) <==> forall i, j :: 0 <= i < j < |s| ==> key(s[i]) != key(s[j])
  {
    if s != [] {
      var front, last := s[..|s| - 1], s[|s| - 1];
      UniqueExactly(front, key);
      assert s == front + [last];
      assert forall i :: 0 <= i < |front| ==> front[i] == s[i] && front[i] in front;
    }
  }

  /** A code is safe to show when it is written in small letters, digits and underscores, begins with a
      letter, and has 3 to 81 characters; the named ones all are. */
  lemma SafeCodesExactly(code: ErrorCode)
    ensures SafeErrorCode(code) <==>
      (code.OtherCode? ==>
         && 3 <= |code.text| <= 81 && 'a' <= code.text[0] <= 'z'
         && forall i :: 0 < i < |code.text| ==>
              'a' <= code.text[i] <= 'z' || '0' <= code.text[i] <= '9' || code.text[i] == '_')
  {
    if code.OtherCode? && 3 <= |code.text| {
      var tail := code.text[1..];
      assert forall i :: 0 < i < |code.text| ==> code.text[i] == tail[i - 1] && tail[i - 1] in tail;
      assert forall c :: c in tail ==> exists i :: 0 <= i < |tail| && tail[i] == c && code.text[i + 1] == c;
    }
  }
}
