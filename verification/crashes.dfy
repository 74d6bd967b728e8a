/** What a journal guarantees over any sequence of appends, failures and restarts. */
module Crashes {
  import opened Outcomes
  import opened Text
  import opened Journal
  import opened JournalFile
  import opened Durable
  import Lists

  /** The attempt is for this session's file. */
  predicate Addressed(cfg: Settings, a: Attempt) {
    TrimSpace(a.record.sessionID) == cfg.session
  }

  ghost predicate Sound(cfg: Settings) {
    Lawful(cfg.codec) && Deterministic(cfg)
  }

  predicate Numbered(records: seq<Record>) {
    forall i :: 0 <= i < |records| ==> records[i].sequence == i + 1
  }

  /**
   The file holds exactly these records, numbered from 1 without a gap, whatever torn line may follow
   them; and an open writer's cache agrees with the file.
   */
  predicate Holds(cfg: Settings, s: Store, records: seq<Record>) {
    && ReadAll(cfg.codec, cfg.schema, cfg.session, s.file) == Ok(records)
    && Numbered(records)
    && Replayed(cfg, records).Some?
    && (!s.created ==> s.file == [] && s.writer == None)
    && (s.writer.Some? ==>
          Terminated(s.file) && s.writer.value == Writer(|records|, Replayed(cfg, records).value))
  }

  // ---- One append ----

  lemma NumberedSequences(records: seq<Record>)
    requires Numbered(records)
    ensures LastSequenceOf(records) == |records| && Window(records, 0, 0) == records
  {
    OpenWindowIsAll(records);
  }

  /** Opening keeps the records and leaves a writer whose cache agrees with them. */
  lemma OpeningHolds(cfg: Settings, s: Store, records: seq<Record>, disk: Disk)
    requires Holds(cfg, s, records)
    ensures var (s1, w) := Opened(cfg, s, disk);
            && Holds(cfg, s1, records)
            && (w.Ok? ==> s1.writer == Some(w.value))
            && (w.Err? ==> w.error == OpenFailed && s1.writer == None)
  {
    RepairKeepsLines(s.file);
    RepairIsExact(s.file);
    NumberedSequences(records);
  }

  lemma {:induction false} ScanAppends(c: Codec, schema: string, session: string, lines: seq<seq<byte>>,
                                       line: seq<byte>, number: nat, last: Option<nat>, records: seq<Record>)
    requires Scan(c, schema, session, lines, number, last) == Ok(records)
    requires c.decode(line).Some?
    requires var before := if records == [] then last else Some(records[|records| - 1].sequence);
             Fault(c, schema, session, line, number + |lines|, before) == None
    ensures Scan(c, schema, session, lines + [line], number, last) == Ok(records + [c.decode(line).value])
    decreases |lines|
  {
    if lines == [] {
      assert lines + [line] == [line];
      assert [line][1..] == [];
      var r := c.decode(line).value;
      assert records + [r] == [r] + [];
    } else {
      assert (lines + [line])[0] == lines[0] && (lines + [line])[1..] == lines[1..] + [line];
      var first := c.decode(lines[0]).value;
      var rest := records[1..];
      assert records == [first] + rest;
      ScanAppends(c, schema, session, lines[1..], line, number + 1, Some(first.sequence), rest);
      assert [first] + (rest + [c.decode(line).value]) == records + [c.decode(line).value];
    }
  }

  lemma {:induction false} LineEndOfLine(body: seq<byte>)
    requires NEWLINE !in body
    ensures LineEnd(body + [NEWLINE]) == |body|
  {
    if body != [] {
      assert (body + [NEWLINE])[1..] == body[1..] + [NEWLINE];
      LineEndOfLine(body[1..]);
    }
  }

  /** One whole line behind a terminated file is one more record. */
  lemma WholeLineLands(cfg: Settings, file: seq<byte>, records: seq<Record>, record: Record)
    requires Lawful(cfg.codec) && cfg.codec.encode(record).Some?
    requires Terminated(file) && ReadAll(cfg.codec, cfg.schema, cfg.session, file) == Ok(records)
    requires Numbered(records) && record.sequence == |records| + 1
    requires record.schema == cfg.schema && record.schemaVersion == SCHEMA_VERSION && record.sessionID == cfg.session
    ensures var line := cfg.codec.encode(record).value + [NEWLINE];
            Terminated(file + line)
            && ReadAll(cfg.codec, cfg.schema, cfg.session, file + line) == Ok(records + [record])
  {
    var body := cfg.codec.encode(record).value;
    var line := body + [NEWLINE];
    LineEndOfLine(body);
    assert line[..|body| + 1] == line && line[|body| + 1..] == [];
    assert Lines(line) == [line];
    LinesConcat(file, line);
    ScanAppends(cfg.codec, cfg.schema, cfg.session, Lines(file), line, 1, None, records);
  }

  /** A torn line changes nothing that can be read. */
  lemma TornLineIsInvisible(cfg: Settings, file: seq<byte>, body: seq<byte>, kept: nat)
    requires NEWLINE !in body && kept <= |body| && Terminated(file)
    ensures ReadAll(cfg.codec, cfg.schema, cfg.session, file + (body + [NEWLINE])[..kept])
            == ReadAll(cfg.codec, cfg.schema, cfg.session, file)
  {
    var torn := (body + [NEWLINE])[..kept];
    assert torn == body[..kept];
    LinesConcat(file, torn);
    NoNewlineNoLines(torn);
    assert Lines(file) + [] == Lines(file);
  }

  /** The record whose whole line an append puts into the file, acknowledged or not. */
  function Landing(cfg: Settings, s: Store, a: Attempt): Option<Record> {
    match Enveloped(cfg, a)
    case Err(_) => None
    case Ok(sent) =>
      match Opened(cfg, s, a.disk).1
      case Err(_) => None
      case Ok(w) =>
        match Prepared(cfg, w, sent)
        case Err(_) => None
        case Ok((_, record, line)) =>
          if a.disk.WriteStops? && a.disk.kept < |line| then None else Some(record)
  }

  function Listed(r: Option<Record>): seq<Record> {
    match r case Some(record) => [record] case None => []
  }

  lemma PreparedRecords(cfg: Settings, w: Writer, sent: Record, records: seq<Record>)
    requires Sound(cfg) && Prepared(cfg, w, sent).Ok?
    requires sent.schema == cfg.schema && sent.schemaVersion == SCHEMA_VERSION && sent.sessionID == cfg.session
    requires w.seqNo == |records| && Replayed(cfg, records) == Some(w.state)
    ensures var (next, record, line) := Prepared(cfg, w, sent).value;
            && cfg.codec.encode(record).Some? && line == cfg.codec.encode(record).value + [NEWLINE]
            && record.sequence == |records| + 1 && record.schema == cfg.schema
            && record.schemaVersion == SCHEMA_VERSION && record.sessionID == cfg.session
            && Replayed(cfg, records + [record]) == Some(next)
  {
    var (next, record, line) := Prepared(cfg, w, sent).value;
    assert (records + [record])[..|records|] == records;
    assert Reduced(cfg, w.state, sent.(sequence := w.seqNo + 1)) == Ok((next, record));
  }

  /** Each append adds the record of its whole line, if it wrote one, and never acknowledges another. */
  lemma AppendHolds(cfg: Settings, s: Store, records: seq<Record>, a: Attempt)
    requires Sound(cfg) && Addressed(cfg, a) && Holds(cfg, s, records)
    ensures var (s', r) := Appended(cfg, s, a);
            && Holds(cfg, s', records + Listed(Landing(cfg, s, a)))
            && (r.Ok? ==> Landing(cfg, s, a) == Some(r.value))
  {
    Lists.Nil(records);
    var enveloped := Enveloped(cfg, a);
    if enveloped.Ok? {
      OpeningHolds(cfg, s, records, a.disk);
      var (s1, w) := Opened(cfg, s, a.disk);
      if w.Ok? && Prepared(cfg, w.value, enveloped.value).Ok? {
        PreparedHolds(cfg, s1, records, w.value, enveloped.value, a.disk);
      }
    }
  }

  lemma PreparedHolds(cfg: Settings, s: Store, records: seq<Record>, w: Writer, sent: Record, disk: Disk)
    requires Sound(cfg) && Holds(cfg, s, records) && s.writer == Some(w) && Prepared(cfg, w, sent).Ok?
    requires sent.schema == cfg.schema && sent.schemaVersion == SCHEMA_VERSION && sent.sessionID == cfg.session
    ensures var (next, record, line) := Prepared(cfg, w, sent).value;
            Holds(cfg, Written(s, w, next, record, line, disk).0,
                  records + if disk.WriteStops? && disk.kept < |line| then [] else [record])
  {
    PreparedRecords(cfg, w, sent, records);
    var (next, record, line) := Prepared(cfg, w, sent).value;
    WriteHolds(cfg, s, records, w, next, record, disk);
  }

  lemma WriteHolds(cfg: Settings, s: Store, records: seq<Record>, w: Writer, next: Raw, record: Record, disk: Disk)
    requires Lawful(cfg.codec) && Holds(cfg, s, records) && s.writer == Some(w)
    requires cfg.codec.encode(record).Some? && record.sequence == |records| + 1
    requires record.schema == cfg.schema && record.schemaVersion == SCHEMA_VERSION && record.sessionID == cfg.session
    requires Replayed(cfg, records + [record]) == Some(next)
    ensures var line := cfg.codec.encode(record).value + [NEWLINE];
            var landed := !(disk.WriteStops? && disk.kept < |line|);
            Holds(cfg, Written(s, w, next, record, line, disk).0, records + if landed then [record] else [])
  {
    var body := cfg.codec.encode(record).value;
    var line := body + [NEWLINE];
    if disk.WriteStops? && disk.kept < |line| {
      TornLineIsInvisible(cfg, s.file, body, disk.kept);
      assert records + [] == records;
    } else {
      assert line[..|line|] == line;
      WholeLineLands(cfg, s.file, records, record);
    }
  }

  /**
   Whatever the reducer returns, an acknowledged record keeps the caller's identifiers and time, or
   the defaults for those it left out.
   */
  lemma EnvelopesAreKept(cfg: Settings, s: Store, a: Attempt)
    requires Appended(cfg, s, a).1.Ok?
    ensures var r, sent := Appended(cfg, s, a).1.value, a.record;
            && r.sessionID == TrimSpace(sent.sessionID) != ""
            && r.schema == cfg.schema && r.schemaVersion == SCHEMA_VERSION
            && r.sourceEventID == sent.sourceEventID
            && r.eventID == (if sent.eventID == "" then a.newID else sent.eventID)
            && r.eventVersion == (if sent.eventVersion == 0 then 1 else sent.eventVersion)
            && r.timestamp == (if sent.timestamp == 0 then a.now else sent.timestamp)
            && r.data != Absent
  {
  }

  // ---- Runs ----

  /** An append, or the end of the process and a new start. */
  datatype Op = Append(attempt: Attempt) | Restart

  /** What became of one operation. */
  datatype Report = Report(acknowledged: Option<Record>, landed: Option<Record>)

  function OpApplied(cfg: Settings, s: Store, op: Op): (Store, Report) {
    match op
    case Restart => (s.(writer := None), Report(None, None))
    case Append(a) =>
      var (s', r) := Appended(cfg, s, a);
      (s', Report(if r.Ok? then Some(r.value) else None, Landing(cfg, s, a)))
  }

  function Run(cfg: Settings, s: Store, ops: seq<Op>): (Store, seq<Report>)
    decreases |ops|
  {
    if ops == [] then (s, [])
    else
      var (s1, report) := OpApplied(cfg, s, ops[0]);
      var (s2, reports) := Run(cfg, s1, ops[1..]);
      (s2, [report] + reports)
  }

  /** The landed records, in the order of the operations; each operation contributes at most one. */
  function LandedIn(reports: seq<Report>): seq<Record> {
    if reports == [] then [] else Listed(reports[0].landed) + LandedIn(reports[1..])
  }

  predicate AllAddressed(cfg: Settings, ops: seq<Op>) {
    forall i :: 0 <= i < |ops| && ops[i].Append? ==> Addressed(cfg, ops[i].attempt)
  }

  /** Only landed records are acknowledged. */
  predicate Honest(reports: seq<Report>) {
    forall i :: 0 <= i < |reports| && reports[i].acknowledged.Some? ==> reports[i].landed == reports[i].acknowledged
  }

  predicate AllAcknowledged(ops: seq<Op>, reports: seq<Report>) {
    |ops| == |reports| && forall i :: 0 <= i < |ops| && ops[i].Append? ==> reports[i].acknowledged.Some?
  }

  lemma OpHolds(cfg: Settings, s: Store, records: seq<Record>, op: Op)
    requires Sound(cfg) && Holds(cfg, s, records) && (op.Append? ==> Addressed(cfg, op.attempt))
    ensures var (s1, report) := OpApplied(cfg, s, op);
            Holds(cfg, s1, records + Listed(report.landed)) && Honest([report])
  {
    if op.Append? {
      AppendHolds(cfg, s, records, op.attempt);
    } else {
      assert records + [] == records;
    }
  }

  lemma LandedFirst(report: Report, reports: seq<Report>, records: seq<Record>)
    ensures records + LandedIn([report] + reports) == records + Listed(report.landed) + LandedIn(reports)
    ensures Honest([report] + reports) <==> Honest([report]) && Honest(reports)
  {
    var all := [report] + reports;
    assert all[1..] == reports;
    assert forall i :: 0 <= i < |reports| ==> reports[i] == all[i + 1];
    assert all[0] == [report][0];
  }

  lemma {:induction false} RunHolds(cfg: Settings, s: Store, records: seq<Record>, ops: seq<Op>)
    requires Sound(cfg) && AllAddressed(cfg, ops) && Holds(cfg, s, records)
    ensures var (s', reports) := Run(cfg, s, ops);
            Holds(cfg, s', records + LandedIn(reports)) && |reports| == |ops| && Honest(reports)
    decreases |ops|
  {
    if ops == [] {
      assert records + [] == records;
    } else {
      OpHolds(cfg, s, records, ops[0]);
      var (s1, report) := OpApplied(cfg, s, ops[0]);
      RunHolds(cfg, s1, records + Listed(report.landed), ops[1..]);
      LandedFirst(report, Run(cfg, s1, ops[1..]).1, records);
    }
  }

  const EMPTY := Store([], false, None)

  lemma EmptyHolds(cfg: Settings)
    ensures Holds(cfg, EMPTY, [])
  {
    assert Lines([]) == [];
  }

  /** After any run the file holds exactly the landed records. */
  lemma JournalHolds(cfg: Settings, ops: seq<Op>)
    requires Sound(cfg) && AllAddressed(cfg, ops)
    ensures var (s, reports) := Run(cfg, EMPTY, ops);
            Holds(cfg, s, LandedIn(reports)) && |reports| == |ops| && Honest(reports)
  {
    EmptyHolds(cfg);
    RunHolds(cfg, EMPTY, [], ops);
    Lists.Nil(LandedIn(Run(cfg, EMPTY, ops).1));
  }

  /** Without a file there are no records and no writer. */
  lemma NoFileNoRecords(cfg: Settings, s: Store, records: seq<Record>)
    requires Holds(cfg, s, records) && !s.created
    ensures records == []
  {
  }

  /**
   Crash durability: after any appends, write failures, sync failures and restarts, the readable
   records are exactly those whose whole line was written, in order and once each, numbered from 1
   without a gap, and every acknowledged record is one of them.
   */
  lemma AcknowledgedRecordsSurvive(cfg: Settings, ops: seq<Op>)
    requires Sound(cfg) && AllAddressed(cfg, ops)
    ensures var (s, reports) := Run(cfg, EMPTY, ops);
            && ReadFrom(cfg, s, 0, 0, 0) == (if s.created then Ok(LandedIn(reports)) else Err(NoSuchFile))
            && (!s.created ==> LandedIn(reports) == [])
            && Numbered(LandedIn(reports)) && |reports| == |ops|
            && Honest(reports)
  {
    JournalHolds(cfg, ops);
    var (s, reports) := Run(cfg, EMPTY, ops);
    NumberedSequences(LandedIn(reports));
    if !s.created {
      NoFileNoRecords(cfg, s, LandedIn(reports));
    }
  }

  /** LastSequence answers the same with and without an open writer; without a file there is no writer. */
  lemma LastSequenceAgrees(cfg: Settings, ops: seq<Op>)
    requires Sound(cfg) && AllAddressed(cfg, ops)
    ensures var (s, reports) := Run(cfg, EMPTY, ops);
            var read := ReadFrom(cfg, s, 0, 0, 1);
            && (s.created <==> read.Ok?)
            && (s.created ==> LastSequenceOf(read.value) == |LandedIn(reports)|)
            && (s.writer.Some? ==> s.created && s.writer.value.seqNo == |LandedIn(reports)|)
  {
    JournalHolds(cfg, ops);
    var (s, reports) := Run(cfg, EMPTY, ops);
    NumberedSequences(LandedIn(reports));
  }

  /**
   The writer's cache agrees with the file: an open writer's sequence is the last one in the file, its
   state is the reducer replayed over the file, and closing and reopening finds the same writer.
   */
  lemma WriterCacheAgrees(cfg: Settings, ops: seq<Op>)
    requires Sound(cfg) && AllAddressed(cfg, ops)
    ensures var s := Run(cfg, EMPTY, ops).0;
            s.writer.Some? ==>
              && Entries(cfg, s.file).Ok?
              && s.writer.value.seqNo == LastSequenceOf(Entries(cfg, s.file).value)
              && Some(s.writer.value.state) == Replayed(cfg, Entries(cfg, s.file).value)
              && Opened(cfg, s.(writer := None), Works) == (s, Ok(s.writer.value))
  {
    JournalHolds(cfg, ops);
    var (s, reports) := Run(cfg, EMPTY, ops);
    NumberedSequences(LandedIn(reports));
    if s.writer.Some? {
      assert Kept(s.file) == s.file;
    }
  }
}
