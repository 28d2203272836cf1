/** The submission journal: versions, the write path, and the gate recovery applies. */
module Journal {
  import opened Prelude
  import opened JournalRecord

  /** A journal file. A missing file reads as the empty journal. */
  datatype Journal = Journal(records: map<Id, Record>, nextTicket: int)

  datatype Error = StateInvalid | IdempotencyConflict | ReplayForbidden | CliFenced | AccountChanged
                 | TaskNotFound | CapacityFull

  const EMPTY_JOURNAL := Journal(map[], 1)

  const MAX_RECORDS := 10000

  predicate ValidJournal(j: Journal) {
    && |j.records| <= MAX_RECORDS
    && 1 <= j.nextTicket <= MAX_SAFE_INTEGER
    && forall k :: k in j.records ==> ValidRecord(j.records[k])
  }

  predicate RemovableBeforeSpawn(r: Record) {
    r.state == Pending && r.submitId.None?
  }

  /** The version a record is written with: 1 when new, kept when nothing changed, else bumped. */
  function NextVersion(previous: Journal, k: Id, r: Record): int {
    if k !in previous.records then 1
    else if SameRecord(previous.records[k], r) then previous.records[k].version
    else previous.records[k].version + 1
  }

  function Versioned(previous: Journal, payload: Journal): Journal {
    payload.(records := map k | k in payload.records ::
               payload.records[k].(version := NextVersion(previous, k, payload.records[k])))
  }

  /** Every rewritten record progresses and only pre-spawn intents disappear. */
  predicate Writable(previous: Journal, payload: Journal) {
    && (forall k :: k in payload.records && k in previous.records ==> Progresses(previous.records[k], payload.records[k]))
    && (forall k :: k in previous.records && k !in payload.records ==> RemovableBeforeSpawn(previous.records[k]))
  }

  /** `persistRuntimeDiskState`: gate, version, shape check, write. */
  function Persist(previous: Journal, payload: Journal): Result<Journal, Error> {
    if Writable(previous, payload) && ValidJournal(Versioned(previous, payload))
    then Ok(Versioned(previous, payload)) else Err(StateInvalid)
  }

  /** The journal is left alone or written through the gate. */
  ghost predicate Written(j: Journal, k: Journal) {
    k == j || exists payload :: Persist(j, payload) == Ok(k)
  }

  /** The gate recovery applies to a left-over backup and the primary beside it. */
  predicate Gate(previous: Journal, current: Journal) {
    && previous.nextTicket <= current.nextTicket
    && forall k :: k in previous.records ==>
         && k in current.records
         && var p, q := previous.records[k], current.records[k];
         && Progresses(p, q)
         && p.version <= q.version
         && (p.version == q.version ==> SameRecord(p, q))
  }

  // ---- The write path against the recovery gate ----------------------------------------------

  lemma VersionDoesNotAffectProgress(p: Record, q: Record, version: int)
    ensures Progresses(p, q.(version := version)) == Progresses(p, q)
  {
  }

  /** A write that was accepted is accepted again by recovery, exactly when it removed no record
      and did not lower the ticket counter. */
  lemma GateAcceptsWrites(previous: Journal, payload: Journal)
    requires Persist(previous, payload).Ok?
    ensures Gate(previous, Persist(previous, payload).value) <==>
      previous.records.Keys <= payload.records.Keys && previous.nextTicket <= payload.nextTicket
  {
    var current := Versioned(previous, payload);
    if previous.records.Keys <= payload.records.Keys {
      forall k | k in previous.records
        ensures k in current.records
        ensures Progresses(previous.records[k], current.records[k])
        ensures previous.records[k].version <= current.records[k].version
        ensures previous.records[k].version == current.records[k].version ==>
          SameRecord(previous.records[k], current.records[k])
      {
        VersionDoesNotAffectProgress(previous.records[k], payload.records[k], current.records[k].version);
      }
    }
  }

  /** No record whose submission is uncertain although its receipt is known. */
  ghost predicate NoUncertainReceipt(j: Journal) {
    forall k :: k in j.records ==> !UncertainWithReceipt(j.records[k])
  }

  lemma GateIsTransitive(a: Journal, b: Journal, c: Journal)
    requires ValidJournal(a) && NoUncertainReceipt(a) && NoUncertainReceipt(b)
    requires Gate(a, b) && Gate(b, c)
    ensures Gate(a, c)
  {
    forall k | k in a.records
      ensures
        && k in c.records
        && Progresses(a.records[k], c.records[k])
        && a.records[k].version <= c.records[k].version
        && (a.records[k].version == c.records[k].version ==> SameRecord(a.records[k], c.records[k]))
    {
      ProgressIsTransitive(a.records[k], b.records[k], c.records[k]);
    }
  }

  // ---- Writes of one record --------------------------------------------------------------------

  lemma OneWriteIsWritable(j: Journal, k: Id, r: Record, ticket: int)
    ensures Writable(j, Journal(j.records[k := r], ticket)) <==> (k in j.records ==> Progresses(j.records[k], r))
  {
    var payload := Journal(j.records[k := r], ticket);
    assert payload.records[k] == r;
    forall i | i in j.records && i != k ensures Progresses(j.records[i], payload.records[i]) {
      ProgressIsReflexive(j.records[i]);
    }
  }

  lemma OneWriteVersioned(j: Journal, k: Id, r: Record, ticket: int)
    ensures Versioned(j, Journal(j.records[k := r], ticket)) ==
      Journal(j.records[k := r.(version := NextVersion(j, k, r))], ticket)
  {
    var payload := Journal(j.records[k := r], ticket);
    var next := j.records[k := r.(version := NextVersion(j, k, r))];
    assert Versioned(j, payload).records == next by {
      forall i | i in next ensures Versioned(j, payload).records[i] == next[i] {
        assert i != k ==> SameRecord(j.records[i], payload.records[i]);
      }
    }
  }

  lemma OneWriteIsValid(j: Journal, k: Id, r: Record, ticket: int)
    requires ValidJournal(j) && 1 <= ticket <= MAX_SAFE_INTEGER
    requires k !in j.records ==> |j.records| < MAX_RECORDS
    ensures ValidJournal(Journal(j.records[k := r], ticket)) <==> ValidRecord(r)
  {
    var next := j.records[k := r];
    assert next[k] == r;
    assert |next| <= MAX_RECORDS by {
      assert next.Keys == j.records.Keys + {k};
      assert |next| == |next.Keys| && |j.records| == |j.records.Keys|;
    }
  }

  /** A write of one record is accepted exactly when it progresses and its shape is valid; all
      other records keep their image and version. */
  lemma PersistOne(j: Journal, k: Id, r: Record, ticket: int)
    requires ValidJournal(j) && 1 <= ticket <= MAX_SAFE_INTEGER
    requires k !in j.records ==> |j.records| < MAX_RECORDS
    ensures
      var stamped := r.(version := NextVersion(j, k, r));
      Persist(j, Journal(j.records[k := r], ticket)) ==
        if (k in j.records ==> Progresses(j.records[k], r)) && ValidRecord(stamped)
        then Ok(Journal(j.records[k := stamped], ticket)) else Err(StateInvalid)
  {
    OneWriteIsWritable(j, k, r, ticket);
    OneWriteVersioned(j, k, r, ticket);
    OneWriteIsValid(j, k, r.(version := NextVersion(j, k, r)), ticket);
  }

  /** What an accepted write of one record has done, whatever the journal. */
  lemma PersistOneInverse(j: Journal, k: Id, r: Record, ticket: int)
    requires Persist(j, Journal(j.records[k := r], ticket)).Ok?
    ensures k in j.records ==> Progresses(j.records[k], r)
    ensures Persist(j, Journal(j.records[k := r], ticket)).value ==
      Journal(j.records[k := r.(version := NextVersion(j, k, r))], ticket)
  {
    OneWriteIsWritable(j, k, r, ticket);
    OneWriteVersioned(j, k, r, ticket);
  }

  lemma RemovalVersioned(j: Journal, k: Id, ticket: int)
    ensures Versioned(j, Journal(j.records - {k}, ticket)) == Journal(j.records - {k}, ticket)
  {
    var payload := Journal(j.records - {k}, ticket);
    assert Versioned(j, payload).records == payload.records by {
      forall i | i in payload.records ensures Versioned(j, payload).records[i] == payload.records[i] {
        assert SameRecord(j.records[i], payload.records[i]);
      }
    }
  }

  lemma RemovalIsWritable(j: Journal, k: Id, ticket: int)
    ensures Writable(j, Journal(j.records - {k}, ticket)) <==> (k in j.records ==> RemovableBeforeSpawn(j.records[k]))
  {
    var payload := Journal(j.records - {k}, ticket);
    forall i | i in payload.records ensures Progresses(j.records[i], payload.records[i]) {
      ProgressIsReflexive(j.records[i]);
    }
  }

  lemma RemovalIsValid(j: Journal, k: Id, ticket: int)
    requires ValidJournal(j) && 1 <= ticket <= MAX_SAFE_INTEGER
    ensures ValidJournal(Journal(j.records - {k}, ticket))
  {
    var next := j.records - {k};
    assert |next| <= MAX_RECORDS by {
      assert next.Keys == j.records.Keys - {k};
      assert |next| == |next.Keys| && |j.records| == |j.records.Keys|;
    }
  }

  /** A removal is accepted exactly when the record is a pre-spawn intent. */
  lemma PersistRemoval(j: Journal, k: Id, ticket: int)
    requires ValidJournal(j) && 1 <= ticket <= MAX_SAFE_INTEGER
    ensures Persist(j, Journal(j.records - {k}, ticket)) ==
      if k in j.records ==> RemovableBeforeSpawn(j.records[k])
      then Ok(Journal(j.records - {k}, ticket)) else Err(StateInvalid)
  {
    RemovalVersioned(j, k, ticket);
    RemovalIsWritable(j, k, ticket);
    RemovalIsValid(j, k, ticket);
  }

  // ---- The journal file ------------------------------------------------------------------------

  /** The journal file on disk, rewritten as a whole under the state lock. */
  class JournalFile {
    var image: Journal

    constructor ()
      ensures image == EMPTY_JOURNAL
    {
      image := EMPTY_JOURNAL;
    }

    /** Walks the records to be written, checks each against its predecessor and stamps its
        version in place; then looks for records that disappeared. */
    method AssignJournalVersions(payload: Journal) returns (stamped: Result<Journal, Error>)
      ensures stamped.Ok? <==> Writable(image, payload)
      ensures stamped.Ok? ==> stamped.value == Versioned(image, payload)
    {
      hide Progresses, RemovableBeforeSpawn;
      var records := payload.records;
      var todo := payload.records.Keys;
      while todo != {}
        invariant todo <= payload.records.Keys == records.Keys
        invariant forall k :: k in todo ==> records[k] == payload.records[k]
        invariant forall k :: k in payload.records && k !in todo ==>
                    && records[k] == payload.records[k].(version := NextVersion(image, k, payload.records[k]))
                    && (k in image.records ==> Progresses(image.records[k], payload.records[k]))
      {
        var k :| k in todo;
        var r := records[k];
        if k in image.records && !Progresses(image.records[k], r) {
          return Err(StateInvalid);
        }
        records := records[k := r.(version := NextVersion(image, k, r))];
        todo := todo - {k};
      }
      todo := image.records.Keys;
      while todo != {}
        invariant todo <= image.records.Keys
        invariant forall k :: k in image.records && k !in todo && k !in payload.records ==>
                    RemovableBeforeSpawn(image.records[k])
      {
        var k :| k in todo;
        if k !in payload.records && !RemovableBeforeSpawn(image.records[k]) {
          return Err(StateInvalid);
        }
        todo := todo - {k};
      }
      assert records == Versioned(image, payload).records;
      return Ok(payload.(records := records));
    }

    method PersistState(payload: Journal) returns (result: Result<Journal, Error>)
      modifies this
      ensures result == Persist(old(image), payload)
      ensures image == if result.Ok? then result.value else old(image)
    {
      var stamped := AssignJournalVersions(payload);
      if stamped.Err? || !ValidJournal(stamped.value) {
        return Err(StateInvalid);
      }
      image := stamped.value;
      return Ok(image);
    }
  }
}
