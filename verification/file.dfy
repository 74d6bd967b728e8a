/**
 The bytes of a session's journal file (journal/store.go): newline-terminated lines, the repair of
 a torn tail, and reading records through cursors and a ring buffer.
 */
module JournalFile {
  import opened Outcomes
  import opened Journal
  import Lists

  newtype byte = x: int | 0 <= x < 256

  const NEWLINE: byte := 10
  const SCHEMA_VERSION := 1

  /** The line encoding of records; `encode` is None when a record cannot be encoded. */
  datatype Codec = Codec(encode: Record -> Option<seq<byte>>, decode: seq<byte> -> Option<Record>)

  /** Lines hold no newline of their own, and a terminated line decodes to the record it encodes. */
  ghost predicate Lawful(c: Codec) {
    forall r :: c.encode(r).Some? ==>
      NEWLINE !in c.encode(r).value && c.decode(c.encode(r).value + [NEWLINE]) == Some(r)
  }

  predicate Terminated(s: seq<byte>) {
    s == [] || s[|s| - 1] == NEWLINE
  }

  // ---- Torn tails ----

  /** s up to and including its last newline. */
  function Kept(s: seq<byte>): seq<byte> {
    if Terminated(s) then s else Kept(s[..|s| - 1])
  }

  /** Repair is exact: it keeps the longest beginning that is empty or ends in a newline. */
  lemma {:induction false} RepairIsExact(s: seq<byte>)
    ensures Kept(s) <= s && Terminated(Kept(s)) && NEWLINE !in s[|Kept(s)|..]
    ensures forall k :: 0 <= k <= |s| && Terminated(s[..k]) ==> k <= |Kept(s)|
    ensures Kept(Kept(s)) == Kept(s)
  {
    if !Terminated(s) {
      var t := s[..|s| - 1];
      RepairIsExact(t);
      assert s[|Kept(s)|..] == t[|Kept(s)|..] + [s[|s| - 1]];
      forall k | 0 <= k <= |s| && Terminated(s[..k])
        ensures k <= |Kept(s)|
      {
        assert k < |s| ==> t[..k] == s[..k];
        assert s[..|s|] == s;
      }
    }
  }

  lemma {:induction false} KeptUpTo(s: seq<byte>, k: nat)
    requires k <= |s| && Terminated(s[..k]) && NEWLINE !in s[k..]
    ensures Kept(s) == s[..k]
  {
    if k < |s| {
      var t := s[..|s| - 1];
      assert s[|s| - 1] in s[k..];
      assert t[..k] == s[..k];
      assert forall b :: b in t[k..] ==> b in s[k..];
      KeptUpTo(t, k);
    } else {
      assert s[..k] == s;
    }
  }

  class File {
    var created: bool
    var contents: seq<byte>

    constructor ()
      ensures !created && contents == []
    {
      created, contents := false, [];
    }

    /** Opens the file for appending, and creates it if there is none. */
    method Open()
      modifies this`created
      ensures created
    {
      created := true;
    }

    method Truncate(size: nat)
      requires size <= |contents|
      modifies this`contents
      ensures contents == old(contents)[..size]
    {
      contents := contents[..size];
    }
  }

  /** bytes.LastIndexByte: the last position of b in s, or -1. */
  function LastIndexByte(s: seq<byte>, b: byte): (i: int)
    ensures -1 <= i < |s|
    ensures i >= 0 ==> s[i] == b
    ensures forall j :: i < j < |s| ==> s[j] != b
  {
    if s == [] then -1 else if s[|s| - 1] == b then |s| - 1 else LastIndexByte(s[..|s| - 1], b)
  }

  lemma NoneAfterTheLast(chunk: seq<byte>, b: byte)
    ensures b !in chunk[LastIndexByte(chunk, b) + 1..]
  {
  }

  lemma AbsentPast<T>(s: seq<T>, x: T, start: nat, end: nat, k: nat)
    requires start <= k <= end <= |s|
    requires x !in s[start..end][k - start..] && x !in s[end..]
    ensures x !in s[k..]
  {
    assert s[k..] == s[start..end][k - start..] + s[end..];
  }

  lemma TerminatedAt(s: seq<byte>, k: nat)
    requires 0 < k <= |s| && s[k - 1] == NEWLINE
    ensures Terminated(s[..k])
  {
  }

  /** A chunk with a newline shows where the last newline of the file is. */
  lemma NewlineInChunk(s: seq<byte>, start: nat, end: nat, k: nat)
    requires start < k <= end <= |s| && NEWLINE !in s[end..]
    requires s[k - 1] == NEWLINE && NEWLINE !in s[start..end][k - start..]
    ensures Kept(s) == s[..k]
  {
    AbsentPast(s, NEWLINE, start, end, k);
    TerminatedAt(s, k);
    KeptUpTo(s, k);
  }

  lemma NoNewlineInChunk(s: seq<byte>, start: nat, end: nat)
    requires start <= end <= |s| && NEWLINE !in s[end..] && LastIndexByte(s[start..end], NEWLINE) < 0
    ensures NEWLINE !in s[start..]
  {
    assert s[start..] == s[start..end] + s[end..];
  }

  method RepairTornTail(file: File, bufferSize: nat)
    requires bufferSize > 0
    modifies file`contents
    ensures file.contents == Kept(old(file.contents))
  {
    var end := |file.contents|;
    if end == 0 {
      return;
    }
    if file.contents[end - 1] == NEWLINE {
      return;
    }
    var truncateAt := 0;
    while end > 0
      invariant 0 <= end <= |file.contents| && NEWLINE !in file.contents[end..]
      invariant truncateAt == 0 && file.contents == old(file.contents)
    {
      var start := if end - bufferSize > 0 then end - bufferSize else 0;
      var buffer := file.contents[start..end];
      var index := LastIndexByte(buffer, NEWLINE);
      if index >= 0 {
        NoneAfterTheLast(buffer, NEWLINE);
        NewlineInChunk(file.contents, start, end, start + index + 1);
        truncateAt := start + index + 1;
        break;
      }
      NoNewlineInChunk(file.contents, start, end);
      end := start;
    }
    if truncateAt == 0 {
      KeptUpTo(file.contents, 0);
    }
    file.Truncate(truncateAt);
  }

  // ---- Lines ----

  /** The first newline of s, or the length of s. */
  function LineEnd(s: seq<byte>): (i: nat)
    ensures i <= |s| && NEWLINE !in s[..i] && (i < |s| ==> s[i] == NEWLINE)
  {
    if s == [] || s[0] == NEWLINE then 0 else 1 + LineEnd(s[1..])
  }

  /** The complete lines of s, newlines included; an unterminated rest is no line. */
  function Lines(s: seq<byte>): seq<seq<byte>>
    decreases |s|
  {
    var i := LineEnd(s);
    if i == |s| then [] else [s[..i + 1]] + Lines(s[i + 1..])
  }

  lemma {:induction false} LineEndOf(a: seq<byte>, b: seq<byte>)
    ensures LineEnd(a) < |a| ==> LineEnd(a + b) == LineEnd(a)
    ensures LineEnd(a) == |a| ==> LineEnd(a + b) == |a| + LineEnd(b)
  {
    if a == [] {
      assert a + b == b;
    } else {
      assert (a + b)[1..] == a[1..] + b;
      LineEndOf(a[1..], b);
    }
  }

  lemma LineOfTerminated(a: seq<byte>)
    requires Terminated(a) && a != []
    ensures LineEnd(a) < |a| && Terminated(a[LineEnd(a) + 1..])
  {
    assert a[..|a|] == a;
  }

  lemma {:induction false} LinesConcat(a: seq<byte>, b: seq<byte>)
    requires Terminated(a)
    ensures Lines(a + b) == Lines(a) + Lines(b)
    decreases |a|
  {
    if a == [] {
      Lists.Nil(b);
      Lists.Nil(Lines(b));
    } else {
      LineOfTerminated(a);
      LinesConcat(a[LineEnd(a) + 1..], b);
      LineEndOf(a, b);
      FirstLineOf(a, b, LineEnd(a));
    }
  }

  lemma FirstLineOf(a: seq<byte>, b: seq<byte>, i: nat)
    requires i < |a| && i == LineEnd(a) == LineEnd(a + b)
    requires Lines(a[i + 1..] + b) == Lines(a[i + 1..]) + Lines(b)
    ensures Lines(a + b) == Lines(a) + Lines(b)
  {
    assert (a + b)[..i + 1] == a[..i + 1];
    assert (a + b)[i + 1..] == a[i + 1..] + b;
    Lists.Assoc([a[..i + 1]], Lines(a[i + 1..]), Lines(b));
  }

  lemma NoNewlineNoLines(s: seq<byte>)
    requires NEWLINE !in s
    ensures Lines(s) == []
  {
  }

  lemma RepairKeepsLines(s: seq<byte>)
    ensures Lines(Kept(s)) == Lines(s)
  {
    RepairIsExact(s);
    var rest := s[|Kept(s)|..];
    assert s == Kept(s) + rest;
    LinesConcat(Kept(s), rest);
    NoNewlineNoLines(rest);
  }

  // ---- Reading ----

  datatype ReadError =
    | InvalidRange
    | InvalidLimit
    | NoSuchFile
    | Undecodable(line: nat)
    | UnsupportedSchema(line: nat)
    | Collision(line: nat)
    | NonMonotonic(line: nat)

  /** The fault of one line, if any, given the sequence of the line before it. */
  function Fault(c: Codec, schema: string, session: string, line: seq<byte>, number: nat, last: Option<nat>):
    Option<ReadError>
  {
    match c.decode(line)
    case None => Some(Undecodable(number))
    case Some(r) =>
      if r.schema != schema || r.schemaVersion != SCHEMA_VERSION then Some(UnsupportedSchema(number))
      else if r.sessionID != session then Some(Collision(number))
      else if last.Some? && r.sequence <= last.value then Some(NonMonotonic(number))
      else None
  }

  /** All records of the given lines, or the first fault. */
  function Scan(c: Codec, schema: string, session: string, lines: seq<seq<byte>>, number: nat, last: Option<nat>):
    (r: Result<seq<Record>, ReadError>)
    ensures r.Ok? ==> |r.value| == |lines|
    ensures r.Ok? ==> forall i :: 0 <= i < |lines| ==> last.Some? ==> last.value < r.value[i].sequence
    ensures r.Ok? ==> forall i, j :: 0 <= i < j < |lines| ==> r.value[i].sequence < r.value[j].sequence
    decreases |lines|
  {
    if lines == [] then Ok([])
    else
      var fault := Fault(c, schema, session, lines[0], number, last);
      if fault.Some? then Err(fault.value)
      else
        var record := c.decode(lines[0]).value;
        match Scan(c, schema, session, lines[1..], number + 1, Some(record.sequence))
        case Err(e) => Err(e)
        case Ok(rest) => Ok([record] + rest)
  }

  /** Lines that all decode to records of this session and schema, in increasing sequence. */
  predicate SoundLines(c: Codec, schema: string, session: string, lines: seq<seq<byte>>, last: Option<nat>) {
    && (forall i :: 0 <= i < |lines| ==>
          && c.decode(lines[i]).Some?
          && var r := c.decode(lines[i]).value;
             && r.schema == schema && r.schemaVersion == SCHEMA_VERSION && r.sessionID == session
             && (last.Some? ==> last.value < r.sequence))
    && (forall i, j :: 0 <= i < j < |lines| ==>
          c.decode(lines[i]).value.sequence < c.decode(lines[j]).value.sequence)
  }

  /** Exactly the sound files are readable, and reading yields what each line decodes to. */
  lemma {:induction false} SoundLinesAreReadable(c: Codec, schema: string, session: string, lines: seq<seq<byte>>,
                                                 number: nat, last: Option<nat>)
    ensures Scan(c, schema, session, lines, number, last).Ok? <==> SoundLines(c, schema, session, lines, last)
    ensures Scan(c, schema, session, lines, number, last).Ok? ==>
              forall i :: 0 <= i < |lines| ==>
                c.decode(lines[i]) == Some(Scan(c, schema, session, lines, number, last).value[i])
    decreases |lines|
  {
    if lines != [] && Fault(c, schema, session, lines[0], number, last) == None {
      var r := c.decode(lines[0]).value;
      SoundLinesAreReadable(c, schema, session, lines[1..], number + 1, Some(r.sequence));
      SoundFirst(c, schema, session, lines, last);
    }
  }

  lemma SoundFirst(c: Codec, schema: string, session: string, lines: seq<seq<byte>>, last: Option<nat>)
    requires lines != [] && Fault(c, schema, session, lines[0], 0, last) == None
    ensures SoundLines(c, schema, session, lines, last)
            <==> SoundLines(c, schema, session, lines[1..], Some(c.decode(lines[0]).value.sequence))
  {
    var rest := lines[1..];
    assert forall i :: 0 < i < |lines| ==> lines[i] == rest[i - 1];
    assert forall i :: 0 <= i < |rest| ==> rest[i] == lines[i + 1];
  }

  /** Every record of a file, in order. */
  function ReadAll(c: Codec, schema: string, session: string, data: seq<byte>): Result<seq<Record>, ReadError> {
    Scan(c, schema, session, Lines(data), 1, None)
  }

  predicate InWindow(r: Record, after: nat, through: nat) {
    r.sequence > after && (through == 0 || r.sequence <= through)
  }

  /** The records behind the exclusive cursor up to the inclusive one; zero leaves a side open. */
  function Window(records: seq<Record>, after: nat, through: nat): seq<Record> {
    if records == [] then []
    else
      var last := |records| - 1;
      Window(records[..last], after, through) + if InWindow(records[last], after, through) then [records[last]] else []
  }

  lemma WindowAppends(records: seq<Record>, r: Record, after: nat, through: nat)
    ensures Window(records + [r], after, through)
            == Window(records, after, through) + if InWindow(r, after, through) then [r] else []
  {
    assert (records + [r])[..|records|] == records;
  }

  /** The last n elements; zero stands for all. */
  function LastN<T>(records: seq<T>, n: nat): seq<T> {
    if n == 0 || |records| <= n then records else records[|records| - n..]
  }

  function Reading(c: Codec, schema: string, session: string, data: seq<byte>, after: nat, through: nat, tail: nat):
    Result<seq<Record>, ReadError>
  {
    match ReadAll(c, schema, session, data)
    case Err(e) => Err(e)
    case Ok(records) => Ok(LastN(Window(records, after, through), tail))
  }

  /** Repairing a torn tail is invisible to readers, errors included. */
  lemma RepairIsInvisible(c: Codec, schema: string, session: string, data: seq<byte>,
                          after: nat, through: nat, tail: nat)
    ensures Reading(c, schema, session, Kept(data), after, through, tail)
            == Reading(c, schema, session, data, after, through, tail)
  {
    RepairKeepsLines(data);
  }

  function Prepend(done: seq<Record>, rest: Result<seq<Record>, ReadError>): Result<seq<Record>, ReadError> {
    match rest case Ok(records) => Ok(done + records) case Err(e) => Err(e)
  }

  lemma PrependNothing(rest: Result<seq<Record>, ReadError>)
    ensures Prepend([], rest) == rest
  {
    if rest.Ok? {
      assert [] + rest.value == rest.value;
    }
  }

  /** out, read as a ring that starts at tailStart. */
  function Unrolled<T>(out: seq<T>, tailStart: nat): seq<T>
    requires tailStart <= |out|
  {
    out[tailStart..] + out[..tailStart]
  }

  /** The ring buffer holds the last `tail` of the selected records. */
  ghost predicate Ring<T>(out: seq<T>, tailStart: nat, tail: nat, selected: seq<T>) {
    && tailStart <= |out|
    && (tail > 0 ==> |out| <= tail && (|out| == tail || tailStart == 0) && tailStart < tail)
    && (tail == 0 ==> tailStart == 0)
    && Unrolled(out, tailStart) == LastN(selected, tail)
  }

  lemma RingAppends<T>(out: seq<T>, tailStart: nat, tail: nat, selected: seq<T>, r: T)
    requires Ring(out, tailStart, tail, selected) && !(tail > 0 && |out| == tail)
    ensures Ring(out + [r], tailStart, tail, selected + [r])
  {
    assert tailStart == 0;
    assert Unrolled(out, 0) == out && Unrolled(out + [r], 0) == out + [r];
  }

  lemma LastNSlides<T>(selected: seq<T>, n: nat, r: T)
    requires 0 < n <= |selected|
    ensures LastN(selected + [r], n) == LastN(selected, n)[1..] + [r]
  {
  }

  /** The slot after the one overwritten becomes the oldest, and the first slot follows the last. */
  function NextSlot(tailStart: nat, tail: nat): (next: nat)
    requires tailStart < tail
    ensures next == if tailStart + 1 == tail then 0 else tailStart + 1
  {
    (tailStart + 1) % tail
  }

  lemma RingTurns<T>(out: seq<T>, tailStart: nat, r: T)
    requires tailStart < |out|
    ensures Unrolled(out[tailStart := r], NextSlot(tailStart, |out|)) == Unrolled(out, tailStart)[1..] + [r]
  {
    var out' := out[tailStart := r];
    assert Unrolled(out, tailStart)[1..] == out[tailStart + 1..] + out[..tailStart];
    assert out'[tailStart + 1..] == out[tailStart + 1..];
    assert out'[..tailStart + 1] == out[..tailStart] + [r];
    if tailStart + 1 == |out| {
      assert Unrolled(out', 0) == out';
    }
  }

  lemma RingOverwrites<T>(out: seq<T>, tailStart: nat, tail: nat, selected: seq<T>, r: T)
    requires Ring(out, tailStart, tail, selected) && tail > 0 && |out| == tail
    ensures Ring(out[tailStart := r], NextSlot(tailStart, tail), tail, selected + [r])
  {
    LastNSlides(selected, tail, r);
    RingTurns(out, tailStart, r);
  }

  lemma RingUnrolls<T>(out: seq<T>, tailStart: nat, tail: nat, selected: seq<T>)
    requires Ring(out, tailStart, tail, selected)
    ensures (if tailStart > 0 then out[tailStart..] + out[..tailStart] else out) == LastN(selected, tail)
  {
    assert Unrolled(out, 0) == out;
  }

  /** The lines before position have been read without a fault, as `done`. */
  ghost predicate ReadUpTo(c: Codec, schema: string, session: string, data: seq<byte>, position: nat, number: nat,
                           last: Option<nat>, done: seq<Record>)
  {
    position <= |data| &&
    ReadAll(c, schema, session, data)
    == Prepend(done, Scan(c, schema, session, Lines(data[position..]), number + 1, last))
  }

  lemma ReadFromTheStart(c: Codec, schema: string, session: string, data: seq<byte>)
    ensures ReadUpTo(c, schema, session, data, 0, 0, None, [])
  {
    assert data[0..] == data;
    PrependNothing(ReadAll(c, schema, session, data));
  }

  lemma RingStarts(tail: nat, after: nat, through: nat)
    ensures Ring([], 0, tail, Window([], after, through))
  {
  }

  /** The complete line at a position, if there is one. */
  function NextLine(data: seq<byte>, position: nat): (line: Option<seq<byte>>)
    requires position <= |data|
    ensures line.Some? ==> 0 < |line.value| <= |data| - position
  {
    var rest := data[position..];
    var end := LineEnd(rest);
    if end == |rest| then None else Some(rest[..end + 1])
  }

  /** One more line is read, or its fault ends the scan. */
  lemma ReadOneMore(c: Codec, schema: string, session: string, data: seq<byte>, position: nat, number: nat,
                    last: Option<nat>, done: seq<Record>, line: seq<byte>, checked: Result<Record, ReadError>)
    requires ReadUpTo(c, schema, session, data, position, number, last, done)
    requires NextLine(data, position) == Some(line)
    requires checked == Checked(c, schema, session, line, number + 1, last)
    ensures checked.Err? ==> ReadAll(c, schema, session, data) == Err(checked.error)
    ensures checked.Ok? ==>
              ReadUpTo(c, schema, session, data, position + |line|, number + 1, Some(checked.value.sequence),
                       done + [checked.value])
  {
    var rest := data[position..];
    var later := Lines(rest[|line|..]);
    assert rest[|line|..] == data[position + |line|..];
    assert Lines(rest) == [line] + later;
    assert Lines(rest)[0] == line && Lines(rest)[1..] == later;
    if checked.Ok? {
      var r := checked.value;
      var more := Scan(c, schema, session, later, number + 2, Some(r.sequence));
      if more.Ok? {
        assert done + ([r] + more.value) == (done + [r]) + more.value;
      }
    }
  }

  lemma ReadToTheEnd(c: Codec, schema: string, session: string, data: seq<byte>, position: nat, number: nat,
                     last: Option<nat>, done: seq<Record>)
    requires ReadUpTo(c, schema, session, data, position, number, last, done)
    requires NextLine(data, position) == None
    ensures ReadAll(c, schema, session, data) == Ok(done)
  {
    assert Lines(data[position..]) == [];
    assert done + [] == done;
  }

  function Checked(c: Codec, schema: string, session: string, line: seq<byte>, number: nat, last: Option<nat>):
    Result<Record, ReadError>
  {
    match Fault(c, schema, session, line, number, last)
    case Some(e) => Err(e)
    case None => Ok(c.decode(line).value)
  }

  method DecodeLine(c: Codec, schema: string, session: string, line: seq<byte>, number: nat, last: Option<nat>)
    returns (r: Result<Record, ReadError>)
    ensures r == Checked(c, schema, session, line, number, last)
  {
    var decoded := c.decode(line);
    if decoded == None {
      return Err(Undecodable(number));
    }
    var record := decoded.value;
    if record.schema != schema || record.schemaVersion != SCHEMA_VERSION {
      return Err(UnsupportedSchema(number));
    }
    if record.sessionID != session {
      return Err(Collision(number));
    }
    if last.Some? && record.sequence <= last.value {
      return Err(NonMonotonic(number));
    }
    return Ok(record);
  }

  /** The ring buffer takes one more selected record. */
  method Push(out: seq<Record>, tailStart: nat, tail: nat, ghost selected: seq<Record>, record: Record)
    returns (out': seq<Record>, tailStart': nat)
    requires Ring(out, tailStart, tail, selected)
    ensures Ring(out', tailStart', tail, selected + [record])
  {
    if tail > 0 && |out| == tail {
      RingOverwrites(out, tailStart, tail, selected, record);
      out' := out[tailStart := record];
      tailStart' := (tailStart + 1) % tail;
    } else {
      RingAppends(out, tailStart, tail, selected, record);
      out', tailStart' := out + [record], tailStart;
    }
  }

  /** A record that was read goes into the ring if it lies in the window. */
  method Select(out: seq<Record>, tailStart: nat, tail: nat, ghost done: seq<Record>, record: Record, after: nat,
                through: nat)
    returns (out': seq<Record>, tailStart': nat)
    requires Ring(out, tailStart, tail, Window(done, after, through))
    ensures Ring(out', tailStart', tail, Window(done + [record], after, through))
  {
    WindowAppends(done, record, after, through);
    if record.sequence > after && (through == 0 || record.sequence <= through) {
      out', tailStart' := Push(out, tailStart, tail, Window(done, after, through), record);
    } else {
      Lists.Nil(Window(done, after, through));
      out', tailStart' := out, tailStart;
    }
  }

  method ReadJournal(c: Codec, schema: string, session: string, data: seq<byte>, after: nat, through: nat, tail: nat)
    returns (r: Result<seq<Record>, ReadError>)
    ensures r == Reading(c, schema, session, data, after, through, tail)
  {
    var position: nat, lineNumber: nat, tailStart: nat := 0, 0, 0;
    var out: seq<Record> := [];
    var lastSequence: Option<nat> := None;
    ghost var done: seq<Record> := [];
    ReadFromTheStart(c, schema, session, data);
    RingStarts(tail, after, through);
    while true
      invariant ReadUpTo(c, schema, session, data, position, lineNumber, lastSequence, done)
      invariant Ring(out, tailStart, tail, Window(done, after, through))
      decreases |data| - position
    {
      var line := NextLine(data, position);
      if line == None {
        ReadToTheEnd(c, schema, session, data, position, lineNumber, lastSequence, done);
        break;
      }
      var checked := DecodeLine(c, schema, session, line.value, lineNumber + 1, lastSequence);
      ReadOneMore(c, schema, session, data, position, lineNumber, lastSequence, done, line.value, checked);
      if checked.Err? {
        return Err(checked.error);
      }
      var record := checked.value;
      out, tailStart := Select(out, tailStart, tail, done, record, after, through);
      done := done + [record];
      lineNumber, lastSequence, position := lineNumber + 1, Some(record.sequence), position + |line.value|;
    }
    out := InOrder(out, tailStart, tail, Window(done, after, through));
    return Ok(out);
  }

  /** The ring buffer's records from the oldest to the newest. */
  method InOrder(out: seq<Record>, tailStart: nat, tail: nat, ghost selected: seq<Record>)
    returns (ordered: seq<Record>)
    requires Ring(out, tailStart, tail, selected)
    ensures ordered == LastN(selected, tail)
  {
    RingUnrolls(out, tailStart, tail, selected);
    ordered := out;
    if tailStart > 0 {
      ordered := out[tailStart..] + out[..tailStart];
    }
  }

  // ---- Cursor windows ----

  lemma {:induction false} WindowConcat(a: seq<Record>, b: seq<Record>, after: nat, through: nat)
    ensures Window(a + b, after, through) == Window(a, after, through) + Window(b, after, through)
  {
    if b == [] {
      assert a + b == a;
    } else {
      assert (a + b)[..|a + b| - 1] == a + b[..|b| - 1];
      WindowConcat(a, b[..|b| - 1], after, through);
    }
  }

  predicate Increasing(records: seq<Record>) {
    forall i, j :: 0 <= i < j < |records| ==> records[i].sequence < records[j].sequence
  }

  lemma {:induction false} WindowIsEmpty(records: seq<Record>, after: nat, through: nat)
    requires forall i :: 0 <= i < |records| ==> !InWindow(records[i], after, through)
    ensures Window(records, after, through) == []
  {
    if records != [] {
      WindowIsEmpty(records[..|records| - 1], after, through);
    }
  }

  /** Adjacent cursor windows join without loss or repetition. */
  lemma {:induction false} WindowsJoin(records: seq<Record>, a: nat, b: nat, c: nat)
    requires Increasing(records) && a <= b <= c && 0 < b
    ensures Window(records, a, b) + Window(records, b, c) == Window(records, a, c)
  {
    if records != [] {
      var last := |records| - 1;
      var init, r := records[..last], records[last];
      WindowsJoin(init, a, b, c);
      if r.sequence <= b {
        WindowIsEmpty(init, b, c);
      } else {
        assert Window(records, a, b) == Window(init, a, b);
        assert Window(init, a, b) + (Window(init, b, c) + [r]) == (Window(init, a, b) + Window(init, b, c)) + [r];
      }
    }
  }

  /** Read(a, b) followed by Read(b, c) is Read(a, c), for every file. */
  lemma ReadsJoin(codec: Codec, schema: string, session: string, data: seq<byte>, a: nat, b: nat, c: nat)
    requires a <= b <= c && 0 < b
    ensures match Reading(codec, schema, session, data, a, c, 0)
            case Err(e) => Reading(codec, schema, session, data, a, b, 0) == Err(e)
                           && Reading(codec, schema, session, data, b, c, 0) == Err(e)
            case Ok(all) =>
              && Reading(codec, schema, session, data, a, b, 0).Ok? && Reading(codec, schema, session, data, b, c, 0).Ok?
              && all == Reading(codec, schema, session, data, a, b, 0).value
                        + Reading(codec, schema, session, data, b, c, 0).value
  {
    var records := ReadAll(codec, schema, session, data);
    if records.Ok? {
      WindowsJoin(records.value, a, b, c);
    }
  }

  lemma {:induction false} OpenWindowIsAll(records: seq<Record>)
    requires forall i :: 0 <= i < |records| ==> 0 < records[i].sequence
    ensures Window(records, 0, 0) == records
  {
    if records != [] {
      OpenWindowIsAll(records[..|records| - 1]);
      assert records == records[..|records| - 1] + [records[|records| - 1]];
    }
  }
}
