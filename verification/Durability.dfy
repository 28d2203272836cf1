/** The three durable files together with their own recovery gates: a step of the arbiter, the
    journal or the store that is interrupted anywhere has either happened or not. */
module Durability {
  import opened Prelude
  import opened FileReplacement
  import A = Arbiter
  import AR = ArbiterRuns
  import TC = TaskContract
  import JR = JournalRecord
  import J = Journal
  import S = RuntimeSteps
  import Protocol = SubmissionProtocol
  import Harmless = HarmlessSteps
  import Safety = SubmissionSafety
  import T = TaskStore
  import G = StoreGate
  import Steps = StoreSteps
  import SR = StoreRuns

  /** A recovered directory that holds `image`; a missing file stands for the empty state. */
  ghost predicate Holds<T>(f: Files<T>, image: T, empty: T) {
    Clean(f) && (f.primary == Some(image) || (f.primary.None? && image == empty))
  }

  /** Replace the file by `after` with any mishap, recover through any number of mishaps: the file
      is the old or the new one, and the new one if the writer was told so. */
  ghost predicate AllOrNothing<T>(
    dialect: Dialect, f: Files<T>, after: T, fates: ReplaceFates, gate: (T, T) -> bool, attempts: seq<RecoverFates>)
  {
    var written := Replace(dialect, f, after, fates);
    var s := RecoverAll(written.files, gate, attempts);
    && s.status == Ran
    && Clean(s.files)
    && (s.files.primary == f.primary || s.files.primary == Some(after))
    && (written.status == Ran ==> s.files.primary == Some(after))
  }

  // ---- The arbiter -------------------------------------------------------------------------------------

  lemma ArbiterStepIsAtomic(
    w: AR.World, a: AR.Action, f: Files<A.State>, fates: ReplaceFates, attempts: seq<RecoverFates>)
    requires !a.Tick? && Holds(f, w.state, A.EMPTY)
    ensures
      var after := AR.Section(w, a).state;
      AllOrNothing(ArbiterDialect, f, after, fates, A.Gate, attempts)
  {
    AR.SectionPassesGate(w, a);
    ReplacementIsCrashAtomic(ArbiterDialect, f, AR.Section(w, a).state, fates, A.Gate, attempts);
  }

  // ---- The store ---------------------------------------------------------------------------------------

  lemma {:induction false} StoreStepIsAtomic(
    now: int, cap: T.Capacity, leaseMs: int, actions: seq<SR.Action>, a: SR.Action,
    f: Files<T.Disk>, fates: ReplaceFates, attempts: seq<RecoverFates>)
    requires T.ValidLease(leaseMs)
    requires Holds(f, SR.Run(SR.Init(now, cap, leaseMs), actions).disk, T.EMPTY_DISK)
    ensures
      var after := SR.Step(SR.Run(SR.Init(now, cap, leaseMs), actions), a).disk;
      AllOrNothing(JournalDialect, f, after, fates, G.Gate, attempts)
  {
    var w := SR.Run(SR.Init(now, cap, leaseMs), actions);
    SR.EveryWriteIsExplained(now, cap, leaseMs, actions, a);
    ReplacementIsCrashAtomic(JournalDialect, f, SR.Step(w, a).disk, fates, G.Gate, attempts);
  }

  // ---- The journal -------------------------------------------------------------------------------------

  lemma OtherStepKeepsTicket(w: Protocol.World, a: Protocol.Action)
    requires Protocol.Enabled(w, a) && Protocol.Effect(w, a).Ok? && !Harmless.HarmlessStep(a)
    ensures w.journal.nextTicket <= Protocol.Effect(w, a).value.nextTicket
  {
    var j := w.journal;
    match a
    case DoEnqueue(k, hash, task, ownerId, leaseMs) => Safety.EnqueueShape(j, k, hash, task, ownerId, w.now, leaseMs);
    case DoReserve(c, leaseMs) =>
      if Protocol.Effect(w, a) != Ok(j) { Safety.ReserveShape(j, c, w.now, leaseMs, w.maxActive); }
    case DoRunBegin(_, k, hash) => Safety.RunBeginShape(j, k, hash, w.now, w.maxActive);
    case DoRunAbandon(id) => Safety.RemovalShape(j, w.attempts[id].claim.key);
    case DoFail(id, known, code) => FailKeepsTicket(j, w.attempts[id].claim, known, w.attempts[id].spawned, code, w.now);
  }

  lemma FailKeepsTicket(
    j: J.Journal, c: S.Claim, known: Option<int>, spawned: bool, code: TC.ErrorCode, now: int)
    requires S.CommitFailure(j, c, known, spawned, code, now).Ok?
    ensures j.nextTicket <= S.CommitFailure(j, c, known, spawned, code, now).value.nextTicket
  {
    if spawned {
      J.PersistOneInverse(j, c.key, S.UncertainRecord(j.records[c.key], code, now), S.LoadedTicket(j));
    } else {
      Safety.RemovalShape(j, c.key);
    }
  }

  lemma TicketNeverFalls(w: Protocol.World, a: Protocol.Action)
    requires Protocol.Inv(w)
    ensures w.journal.nextTicket <= Protocol.Step(w, a).journal.nextTicket
  {
    if Protocol.Enabled(w, a) && Protocol.Effect(w, a).Ok? {
      if Harmless.HarmlessStep(a) {
        Harmless.HarmlessStepIsPointwise(w, a);
      } else {
        OtherStepKeepsTicket(w, a);
      }
    }
  }

  lemma GateIsReflexive(j: J.Journal)
    ensures J.Gate(j, j)
  {
    forall k | k in j.records ensures JR.Progresses(j.records[k], j.records[k]) {
      JR.ProgressIsReflexive(j.records[k]);
    }
  }

  /** Recovery accepts what a step of the protocol wrote exactly when the step removed no record. */
  lemma JournalStepPassesGateExactly(w: Protocol.World, a: Protocol.Action)
    requires Protocol.Inv(w)
    ensures
      var k := Protocol.Step(w, a).journal;
      J.Gate(w.journal, k) <==> w.journal.records.Keys <= k.records.Keys
  {
    var j, k := w.journal, Protocol.Step(w, a).journal;
    TicketNeverFalls(w, a);
    assert J.Written(j, k);
    WritesPassGateExactly(j, k);
  }

  lemma WritesPassGateExactly(j: J.Journal, k: J.Journal)
    requires J.Written(j, k) && j.nextTicket <= k.nextTicket
    ensures J.Gate(j, k) <==> j.records.Keys <= k.records.Keys
  {
    hide J.Gate, J.Writable, J.ValidJournal;
    if k == j {
      GateIsReflexive(j);
    } else {
      var payload :| J.Persist(j, payload) == Ok(k);
      J.GateAcceptsWrites(j, payload);
      assert k.records.Keys == payload.records.Keys;
    }
  }

  lemma {:induction false} JournalStepIsAtomic(
    now: int, maxActive: nat, actions: seq<Protocol.Action>, a: Protocol.Action,
    f: Files<J.Journal>, fates: ReplaceFates, attempts: seq<RecoverFates>)
    requires
      var w := Protocol.Run(Protocol.Init(now, maxActive), actions);
      Holds(f, w.journal, J.EMPTY_JOURNAL) && w.journal.records.Keys <= Protocol.Step(w, a).journal.records.Keys
    ensures
      var after := Protocol.Step(Protocol.Run(Protocol.Init(now, maxActive), actions), a).journal;
      AllOrNothing(JournalDialect, f, after, fates, J.Gate, attempts)
  {
    Safety.InitInv(now, maxActive);
    Safety.RunKeepsInv(Protocol.Init(now, maxActive), actions);
    var w := Protocol.Run(Protocol.Init(now, maxActive), actions);
    JournalStepPassesGateExactly(w, a);
    ReplacementIsCrashAtomic(JournalDialect, f, Protocol.Step(w, a).journal, fates, J.Gate, attempts);
  }

  /** The exception is real: when a step that gives a key back is interrupted after the new primary
      has arrived and before the backup is gone, no later recovery gets past the gate. */
  lemma {:induction false} RemovalCanBlockRecovery(w: Protocol.World, a: Protocol.Action, attempts: seq<RecoverFates>)
    requires Protocol.Inv(w) && !(w.journal.records.Keys <= Protocol.Step(w, a).journal.records.Keys)
    ensures
      var written := Replace(JournalDialect, Files(Some(w.journal), None, None), Protocol.Step(w, a).journal, LEAVES_BOTH);
      && written.status == Crashed
      && RecoverAll(written.files, J.Gate, attempts) == FileReplacement.Step(written.files, Rejected)
  {
    JournalStepPassesGateExactly(w, a);
    RejectedWriteCanWedge(w.journal, Protocol.Step(w, a).journal, J.Gate, attempts);
  }
}
