/** Which appends succeed, and what they persist, in terms of the attempt alone. */
module Progress {
  import opened Outcomes
  import opened Text
  import opened Host
  import opened Journal
  import opened JournalFile
  import opened Durable
  import opened Crashes
  import Lists

  // ---- What is written for an attempt ----

  /** The attempt's record with its defaults, as the reducer sees it; n records came before. */
  function Completed(cfg: Settings, a: Attempt, n: nat): Record {
    Record(cfg.schema, SCHEMA_VERSION,
           if a.record.eventVersion == 0 then 1 else a.record.eventVersion,
           if a.record.eventID == "" then a.newID else a.record.eventID,
           a.record.sourceEventID,
           n + 1,
           if a.record.timestamp == 0 then a.now else a.record.timestamp,
           TrimSpace(a.record.sessionID),
           a.record.conversation,
           a.record.event,
           a.record.turnID,
           if a.record.data == Absent then NO_FIELDS else a.record.data)
  }

  /** The reducer's record under the envelope of the record it was given. */
  function Normalized(given: Record, back: Record): Record {
    Record(given.schema, given.schemaVersion, given.eventVersion, given.eventID, given.sourceEventID, given.sequence,
           given.timestamp, TrimSpace(back.sessionID), back.conversation, back.event, back.turnID,
           if back.data == Absent then NO_FIELDS else back.data)
  }

  /** What would be persisted, when the reducer accepts it and keeps the session. */
  function Persisted(cfg: Settings, state: Raw, given: Record): Option<Record> {
    match cfg.reducer
    case None => Some(given)
    case Some(reduce) =>
      match reduce(state, given)
      case None => None
      case Some((_, back)) =>
        if TrimSpace(back.sessionID) == given.sessionID && back.event != Extension("") then Some(Normalized(given, back))
        else None
  }

  /** What the caller has to get right. */
  predicate Addressable(cfg: Settings, r: Record) {
    && TrimSpace(r.sessionID) != "" && r.event != Extension("")
    && (r.schema == "" || r.schema == cfg.schema)
    && (r.schemaVersion == 0 || r.schemaVersion == 1)
  }

  /** What the disk has to get right: opening, unless a writer is open, then writing and syncing. */
  predicate DiskServes(s: Store, disk: Disk) {
    match disk
    case Works => true
    case OpenFails(_) => s.writer.Some?
    case WriteStops(_) => false
    case SyncFails => false
  }

  predicate Encodes(cfg: Settings, r: Option<Record>) {
    r.Some? && cfg.codec.encode(r.value).Some?
  }

  // ---- Appends succeed exactly then ----

  lemma EnvelopeIsCompleted(cfg: Settings, a: Attempt, n: nat)
    ensures Enveloped(cfg, a).Ok? <==> Addressable(cfg, a.record)
    ensures Enveloped(cfg, a).Ok? ==> Enveloped(cfg, a).value.(sequence := n + 1) == Completed(cfg, a, n)
  {
  }

  lemma OpeningServes(cfg: Settings, s: Store, records: seq<Record>, disk: Disk)
    requires Holds(cfg, s, records)
    ensures var (s1, w) := Opened(cfg, s, disk);
            && (w.Ok? <==> !disk.OpenFails? || s.writer.Some?)
            && (w.Ok? ==> Some(w.value) == Some(Writer(|records|, Replayed(cfg, records).value)))
  {
    OpeningHolds(cfg, s, records, disk);
  }

  lemma ReducedIsPersisted(cfg: Settings, state: Raw, sent: Record)
    requires sent.sessionID != "" && sent.event != Extension("")
    requires sent.schema == cfg.schema && sent.schemaVersion == SCHEMA_VERSION && sent.data != Absent
    ensures Reduced(cfg, state, sent).Ok? <==> Persisted(cfg, state, sent).Some?
    ensures Reduced(cfg, state, sent).Ok? ==> Some(Reduced(cfg, state, sent).value.1) == Persisted(cfg, state, sent)
  {
  }

  lemma PreparedIsPersisted(cfg: Settings, w: Writer, sent: Record)
    requires sent.sessionID != "" && sent.event != Extension("")
    requires sent.schema == cfg.schema && sent.schemaVersion == SCHEMA_VERSION && sent.data != Absent
    ensures var given := sent.(sequence := w.seqNo + 1);
            && (Prepared(cfg, w, sent).Ok? <==> Encodes(cfg, Persisted(cfg, w.state, given)))
            && (Prepared(cfg, w, sent).Ok? ==> Some(Prepared(cfg, w, sent).value.1) == Persisted(cfg, w.state, given))
  {
    ReducedIsPersisted(cfg, w.state, sent.(sequence := w.seqNo + 1));
  }

  lemma WritingServes(s: Store, w: Writer, next: Raw, record: Record, line: seq<byte>, disk: Disk)
    ensures Written(s, w, next, record, line, disk).1 ==
            if disk.WriteStops? || disk == SyncFails then Err(WriteFailed) else Ok(record)
  {
  }

  /**
   Over a journal of n records, an append is acknowledged if and only if the caller, the disk, the reducer
   and the codec all do their part; and what is acknowledged is the completed, normalized record.
   */
  lemma AppendSucceedsExactly(cfg: Settings, s: Store, records: seq<Record>, a: Attempt)
    requires Holds(cfg, s, records)
    ensures var persisted := Persisted(cfg, Replayed(cfg, records).value, Completed(cfg, a, |records|));
            && (Appended(cfg, s, a).1.Ok?
                <==> Addressable(cfg, a.record) && DiskServes(s, a.disk) && Encodes(cfg, persisted))
            && (Appended(cfg, s, a).1.Ok? ==> Some(Appended(cfg, s, a).1.value) == persisted)
  {
    EnvelopeIsCompleted(cfg, a, |records|);
    OpeningServes(cfg, s, records, a.disk);
    if Enveloped(cfg, a).Ok? && Opened(cfg, s, a.disk).1.Ok? {
      var (s1, w) := Opened(cfg, s, a.disk);
      var sent := Enveloped(cfg, a).value;
      PreparedIsPersisted(cfg, w.value, sent);
      if Prepared(cfg, w.value, sent).Ok? {
        var (next, record, line) := Prepared(cfg, w.value, sent).value;
        WritingServes(s1, w.value, next, record, line, a.disk);
      }
    }
  }

  /** What the caller got wrong is refused before the file is touched. */
  lemma BadRecordsTouchNothing(cfg: Settings, s: Store, a: Attempt)
    requires !Addressable(cfg, a.record)
    ensures Appended(cfg, s, a).0 == s && Appended(cfg, s, a).1.Err?
    ensures Appended(cfg, s, a).1.error ==
            if TrimSpace(a.record.sessionID) == "" || a.record.event == Extension("") then MissingIdentity
            else if a.record.schema != "" && a.record.schema != cfg.schema then WrongSchema
            else WrongSchemaVersion
  {
  }

  /** Over an unreadable file nothing is appended; the fault is reported, and only its torn tail is repaired. */
  lemma UnreadableFilesRefuse(cfg: Settings, s: Store, a: Attempt, fault: ReadError)
    requires Addressable(cfg, a.record) && s.writer == None && !a.disk.OpenFails?
    requires ReadAll(cfg.codec, cfg.schema, cfg.session, s.file) == Err(fault)
    ensures Appended(cfg, s, a).1 == Err(ReadFailed(fault))
    ensures Appended(cfg, s, a).0 == Store(Kept(s.file), true, None)
  {
    EnvelopeIsCompleted(cfg, a, 0);
    RepairIsInvisible(cfg.codec, cfg.schema, cfg.session, s.file, 0, 0, 0);
  }

  // ---- The runtime's records ----

  /** The runtime's drafts, in a store without a reducer. */
  lemma DraftsAreAppended(cfg: Settings, s: Store, records: seq<Record>, a: Attempt, sessionID: string,
                          event: EventName, turnID: string, source: string, data: Data)
    requires Holds(cfg, s, records) && cfg.reducer == None
    requires a.record == Draft(sessionID, event, turnID, source, data)
    requires TrimSpace(sessionID) != "" && event != Extension("")
    ensures Appended(cfg, s, a).1.Ok?
            <==> DiskServes(s, a.disk) && cfg.codec.encode(Completed(cfg, a, |records|)).Some?
    ensures Appended(cfg, s, a).1.Ok? ==>
              var r := Appended(cfg, s, a).1.value;
              && r.sessionID == TrimSpace(sessionID) && r.event == event && r.turnID == turnID
              && r.sourceEventID == source && r.data == (if data == Absent then NO_FIELDS else data)
              && r.sequence == |records| + 1
  {
    AppendSucceedsExactly(cfg, s, records, a);
  }

  /** Attempts that the caller gets right, on a disk that works. */
  predicate Serviceable(cfg: Settings, ops: seq<Op>) {
    forall i :: 0 <= i < |ops| && ops[i].Append? ==>
      Addressable(cfg, ops[i].attempt.record) && ops[i].attempt.disk == Works
  }

  ghost predicate EncodesAll(cfg: Settings) {
    forall r :: cfg.codec.encode(r).Some?
  }

  /** On a disk that works, every record the caller gets right is acknowledged, over any restarts. */
  lemma {:induction false} WorkingStoresAcknowledge(cfg: Settings, s: Store, records: seq<Record>, ops: seq<Op>)
    requires Sound(cfg) && cfg.reducer == None && EncodesAll(cfg)
    requires AllAddressed(cfg, ops) && Serviceable(cfg, ops) && Holds(cfg, s, records)
    ensures AllAcknowledged(ops, Run(cfg, s, ops).1)
    decreases |ops|
  {
    if ops != [] {
      var (s1, report) := OpApplied(cfg, s, ops[0]);
      OpHolds(cfg, s, records, ops[0]);
      if ops[0].Append? {
        AppendSucceedsExactly(cfg, s, records, ops[0].attempt);
      }
      WorkingStoresAcknowledge(cfg, s1, records + Listed(report.landed), ops[1..]);
      AcknowledgedFirst(ops, report, Run(cfg, s1, ops[1..]).1);
    }
  }

  lemma AcknowledgedFirst(ops: seq<Op>, report: Report, reports: seq<Report>)
    requires ops != [] && AllAcknowledged(ops[1..], reports)
    requires ops[0].Append? ==> report.acknowledged.Some?
    ensures AllAcknowledged(ops, [report] + reports)
  {
    assert forall i :: 0 < i < |ops| ==> ops[i] == ops[1..][i - 1] && ([report] + reports)[i] == reports[i - 1];
  }
}
