/** Appending to a session's journal, with crashes (journal/store.go). */
module Durable {
  import opened Outcomes
  import opened Text
  import opened Host
  import opened Journal
  import opened JournalFile

  /** The reducer's opaque state (raw JSON). */
  type Raw = string

  /** A store's settings for one session. A missing reducer leaves state and record alone. */
  datatype Settings = Settings(schema: string, session: string, codec: Codec,
                               reducer: Option<(Raw, Record) -> Option<(Raw, Record)>>)

  datatype Writer = Writer(seqNo: nat, state: Raw)

  /** The file on disk, once it was created, and the cached writer, if one is open. */
  datatype Store = Store(file: seq<byte>, created: bool, writer: Option<Writer>)

  datatype AppendError =
    | MissingIdentity | WrongSchema | WrongSchemaVersion
    | OpenFailed | ReadFailed(cause: ReadError) | ReplayRejected
    | Reduction | ReducerLostIdentity | ReducerMovedSession
    | Encoding | WriteFailed

  /**
   What the disk does to one append: opening may fail at once, behind the creation of the file, or
   behind the repair of its tail; a write may leave any beginning of its line, up to all of it; a sync
   may fail.
   */
  datatype Disk = Works | OpenFails(reached: Stage) | WriteStops(kept: nat) | SyncFails

  datatype Stage = Refused | FileCreated | TailRepaired

  /** What the caller and the store's clock and ID source supply for one append. */
  datatype Attempt = Attempt(record: Record, newID: string, now: int, disk: Disk)

  // ---- Envelope and reduction ----

  predicate Identified(r: Record) {
    r.sessionID != "" && r.event != Extension("")
  }

  /** The record with its envelope defaults, or why it is refused. */
  function Enveloped(cfg: Settings, a: Attempt): Result<Record, AppendError> {
    var r := a.record.(sessionID := TrimSpace(a.record.sessionID));
    if !Identified(r) then Err(MissingIdentity)
    else if r.schema != "" && r.schema != cfg.schema then Err(WrongSchema)
    else if r.schemaVersion != 0 && r.schemaVersion != SCHEMA_VERSION then Err(WrongSchemaVersion)
    else Ok(r.(schema := cfg.schema, schemaVersion := SCHEMA_VERSION,
               eventVersion := if r.eventVersion == 0 then 1 else r.eventVersion,
               eventID := if r.eventID == "" then a.newID else r.eventID,
               timestamp := if r.timestamp == 0 then a.now else r.timestamp,
               data := if r.data == Absent then NO_FIELDS else r.data))
  }

  /** The record the reducer returned, with the envelope it may not change. */
  function Restored(cfg: Settings, sent: Record, normalized: Record): Record {
    normalized.(schema := cfg.schema, schemaVersion := SCHEMA_VERSION, eventVersion := sent.eventVersion,
                eventID := sent.eventID, sourceEventID := sent.sourceEventID, sequence := sent.sequence,
                timestamp := sent.timestamp, sessionID := TrimSpace(normalized.sessionID),
                data := if normalized.data == Absent then NO_FIELDS else normalized.data)
  }

  /** The next state and the record to persist. */
  function Reduced(cfg: Settings, state: Raw, sent: Record): Result<(Raw, Record), AppendError> {
    match cfg.reducer
    case None => Ok((state, sent))
    case Some(reduce) =>
      match reduce(state, sent)
      case None => Err(Reduction)
      case Some((next, normalized)) =>
        var record := Restored(cfg, sent, normalized);
        if !Identified(record) then Err(ReducerLostIdentity)
        else if record.sessionID != sent.sessionID then Err(ReducerMovedSession)
        else Ok((next, record))
  }

  /** The state reached by replaying persisted records. */
  function Replayed(cfg: Settings, records: seq<Record>): Option<Raw>
    decreases |records|
  {
    if records == [] then Some("")
    else
      match (Replayed(cfg, records[..|records| - 1]), cfg.reducer)
      case (None, _) => None
      case (Some(state), None) => Some(state)
      case (Some(state), Some(reduce)) =>
        match reduce(state, records[|records| - 1]) case None => None case Some((next, _)) => Some(next)
  }

  lemma {:induction false} RejectionStays(cfg: Settings, records: seq<Record>, n: nat)
    requires n <= |records| && Replayed(cfg, records[..n]) == None
    ensures Replayed(cfg, records) == None
    decreases |records|
  {
    if n < |records| {
      assert records[..|records| - 1][..n] == records[..n];
      RejectionStays(cfg, records[..|records| - 1], n);
    } else {
      assert records[..n] == records;
    }
  }

  lemma {:induction false} NoReducerNoState(cfg: Settings, records: seq<Record>)
    requires cfg.reducer == None
    ensures Replayed(cfg, records) == Some("")
    decreases |records|
  {
    if records != [] {
      NoReducerNoState(cfg, records[..|records| - 1]);
    }
  }

  /** The documented law of reducers: reducing an already normalized record reaches the same state. */
  ghost predicate Deterministic(cfg: Settings) {
    cfg.reducer.Some? ==>
      forall state, sent :: Reduced(cfg, state, sent).Ok? ==>
        var (next, record) := Reduced(cfg, state, sent).value;
        cfg.reducer.value(state, record).Some? && cfg.reducer.value(state, record).value.0 == next
  }

  // ---- The append as a value ----

  /** The records of the file behind cursor zero. */
  function Entries(cfg: Settings, file: seq<byte>): Result<seq<Record>, ReadError> {
    Reading(cfg.codec, cfg.schema, cfg.session, file, 0, 0, 0)
  }

  /** A read of the store: a session without a file is an error. */
  function ReadFrom(cfg: Settings, s: Store, after: nat, through: nat, tail: nat): Result<seq<Record>, ReadError> {
    if !s.created then Err(NoSuchFile)
    else Reading(cfg.codec, cfg.schema, cfg.session, s.file, after, through, tail)
  }

  function LastSequenceOf(records: seq<Record>): nat {
    if records == [] then 0 else records[|records| - 1].sequence
  }

  /** writerLocked: the open writer, or a new one over the repaired file. */
  function Opened(cfg: Settings, s: Store, disk: Disk): (Store, Result<Writer, AppendError>) {
    if s.writer.Some? then (s, Ok(s.writer.value))
    else if disk.OpenFails? then
      match disk.reached
      case Refused => (s, Err(OpenFailed))
      case FileCreated => (s.(created := true), Err(OpenFailed))
      case TailRepaired => (s.(created := true, file := Kept(s.file)), Err(OpenFailed))
    else
      var repaired := s.(created := true, file := Kept(s.file));
      match Entries(cfg, repaired.file)
      case Err(e) => (repaired, Err(ReadFailed(e)))
      case Ok(records) =>
        match Replayed(cfg, records)
        case None => (repaired, Err(ReplayRejected))
        case Some(state) =>
          var w := Writer(LastSequenceOf(records), state);
          (repaired.(writer := Some(w)), Ok(w))
  }

  /** Writing one line through an open writer. */
  function Written(s: Store, w: Writer, next: Raw, record: Record, line: seq<byte>, disk: Disk):
    (Store, Result<Record, AppendError>)
  {
    match disk
    case WriteStops(kept) =>
      (s.(file := s.file + line[..if kept < |line| then kept else |line|], writer := None), Err(WriteFailed))
    case SyncFails => (s.(file := s.file + line, writer := None), Err(WriteFailed))
    case _ => (s.(file := s.file + line, writer := Some(Writer(record.sequence, next))), Ok(record))
  }

  /** What an append would write: the next state, the record and its line. */
  function Prepared(cfg: Settings, w: Writer, sent: Record): Result<(Raw, Record, seq<byte>), AppendError> {
    match Reduced(cfg, w.state, sent.(sequence := w.seqNo + 1))
    case Err(e) => Err(e)
    case Ok((next, record)) =>
      match cfg.codec.encode(record)
      case None => Err(Encoding)
      case Some(body) => Ok((next, record, body + [NEWLINE]))
  }

  function Appended(cfg: Settings, s: Store, a: Attempt): (Store, Result<Record, AppendError>) {
    match Enveloped(cfg, a)
    case Err(e) => (s, Err(e))
    case Ok(sent) =>
      var (s1, w) := Opened(cfg, s, a.disk);
      match w
      case Err(e) => (s1, Err(e))
      case Ok(w) =>
        match Prepared(cfg, w, sent)
        case Err(e) => (s1, Err(e))
        case Ok((next, record, line)) => Written(s1, w, next, record, line, a.disk)
  }

  // ---- The store as the source has it ----

  class JournalStore {
    const cfg: Settings
    const file: File
    var writer: Option<Writer>

    ghost function View(): Store
      reads this, file
    {
      Store(file.contents, file.created, writer)
    }

    constructor (cfg: Settings)
      ensures this.cfg == cfg && View() == Store([], false, None) && fresh(file)
    {
      this.cfg := cfg;
      file := new File();
      writer := None;
    }

    method WriterLocked(disk: Disk) returns (r: Result<Writer, AppendError>)
      modifies this, file
      ensures (View(), r) == Opened(cfg, old(View()), disk)
    {
      if writer.Some? {
        return Ok(writer.value);
      }
      if disk.OpenFails? && disk.reached == Refused {
        return Err(OpenFailed);
      }
      file.Open();
      if disk.OpenFails? && disk.reached == FileCreated {
        return Err(OpenFailed);
      }
      RepairTornTail(file, 32 * 1024);
      if disk.OpenFails? {
        return Err(OpenFailed);
      }
      var events := ReadFile(0, 0, 0);
      if events.Err? {
        return Err(ReadFailed(events.error));
      }
      var state: Raw := "";
      if cfg.reducer.Some? {
        for i := 0 to |events.value|
          invariant Replayed(cfg, events.value[..i]) == Some(state)
        {
          assert events.value[..i + 1][..i] == events.value[..i];
          var reduced := cfg.reducer.value(state, events.value[i]);
          if reduced == None {
            RejectionStays(cfg, events.value, i + 1);
            return Err(ReplayRejected);
          }
          state := reduced.value.0;
        }
        assert events.value[..|events.value|] == events.value;
      } else {
        NoReducerNoState(cfg, events.value);
      }
      var current := Writer(LastSequenceOf(events.value), state);
      writer := Some(current);
      return Ok(current);
    }

    /** Opening a file that was never created fails; otherwise readJournal reads it. */
    method ReadFile(after: nat, through: nat, tail: nat) returns (r: Result<seq<Record>, ReadError>)
      ensures r == ReadFrom(cfg, View(), after, through, tail)
    {
      if !file.created {
        return Err(NoSuchFile);
      }
      r := ReadJournal(cfg.codec, cfg.schema, cfg.session, file.contents, after, through, tail);
    }

    /** Store.Read: after the exclusive cursor, through the inclusive one. */
    method Read(after: nat, through: nat) returns (r: Result<seq<Record>, ReadError>)
      ensures r == if through != 0 && after > through then Err(InvalidRange)
                   else ReadFrom(cfg, View(), after, through, 0)
    {
      if through != 0 && after > through {
        return Err(InvalidRange);
      }
      r := ReadFile(after, through, 0);
    }

    /** Store.Tail: at most the last `limit` records. */
    method Tail(limit: int) returns (r: Result<seq<Record>, ReadError>)
      ensures limit <= 0 ==> r == Err(InvalidLimit)
      ensures limit > 0 ==> r == match ReadFrom(cfg, View(), 0, 0, 0)
                                 case Err(e) => Err(e)
                                 case Ok(records) => Ok(LastN(records, limit))
    {
      if limit <= 0 {
        return Err(InvalidLimit);
      }
      r := ReadFile(0, 0, limit);
    }

    method Append(a: Attempt) returns (r: Result<Record, AppendError>)
      modifies this, file
      ensures (View(), r) == Appended(cfg, old(View()), a)
    {
      var enveloped := Enveloped(cfg, a);
      if enveloped.Err? {
        return Err(enveloped.error);
      }
      var acquired := WriterLocked(a.disk);
      if acquired.Err? {
        return Err(acquired.error);
      }
      var current := acquired.value;
      var record := enveloped.value.(sequence := current.seqNo + 1);
      var reduced := Reduced(cfg, current.state, record);
      if reduced.Err? {
        return Err(reduced.error);
      }
      var (nextState, normalized) := reduced.value;
      var encoded := cfg.codec.encode(normalized);
      if encoded == None {
        return Err(Encoding);
      }
      var line := encoded.value + [NEWLINE];
      match a.disk {
        case WriteStops(kept) =>
          file.contents := file.contents + line[..if kept < |line| then kept else |line|];
          writer := None;
          return Err(WriteFailed);
        case SyncFails =>
          file.contents := file.contents + line;
          writer := None;
          return Err(WriteFailed);
        case _ =>
          file.contents := file.contents + line;
          writer := Some(Writer(normalized.sequence, nextState));
          return Ok(normalized);
      }
    }

    method LastSequence() returns (r: Result<nat, ReadError>)
      ensures r == match writer
                   case Some(w) => Ok(w.seqNo)
                   case None => match ReadFrom(cfg, View(), 0, 0, 1)
                                case Err(e) => Err(e)
                                case Ok(records) => Ok(LastSequenceOf(records))
    {
      if writer.Some? {
        return Ok(writer.value.seqNo);
      }
      var records := ReadFile(0, 0, 1);
      if records.Err? {
        return Err(records.error);
      }
      return Ok(LastSequenceOf(records.value));
    }

    /** Store.Close, or the end of the process: open writers are forgotten. */
    method Close()
      modifies this
      ensures View() == old(View()).(writer := None)
    {
      writer := None;
    }
  }
}
