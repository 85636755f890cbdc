/**
 The events export (server/src/routes/reports.routes.ts) and a reader for it by section 2 of
 RFC 4180, with records ended by a line feed and an optional one at the end of the file.
 */
module Csv {
  import opened Wrappers

  // ---------------------------------------------------------------- the printer

  /** One exported row, each column as text; only the two names are free text. */
  datatype EventRow = EventRow(
    id: string, eventType: string, severity: string, status: string, confidence: string, occurredAt: string,
    camera: string, site: string)

  predicate Special(s: string) {
    exists i :: 0 <= i < |s| && s[i] in "\",\n"
  }

  /** Every quote doubled. */
  function Doubled(s: string): string {
    if s == "" then "" else Doubled(s[..|s| - 1]) + if s[|s| - 1] == '"' then "\"\"" else [s[|s| - 1]]
  }

  function Quote(s: string): string {
    if Special(s) then "\"" + Doubled(s) + "\"" else s
  }

  function Joined(parts: seq<string>, separator: string): string {
    if parts == [] then ""
    else if |parts| == 1 then parts[0]
    else Joined(parts[..|parts| - 1], separator) + separator + parts[|parts| - 1]
  }

  function PrintRow(r: EventRow): string {
    Joined([r.id, r.eventType, r.severity, r.status, r.confidence, r.occurredAt, Quote(r.camera), Quote(r.site)], ",")
  }

  const HEADER := "id,event_type,severity,status,confidence,occurred_at,camera,site\n"

  const COLUMNS := ["id", "event_type", "severity", "status", "confidence", "occurred_at", "camera", "site"]

  function PrintRows(rows: seq<EventRow>): seq<string> {
    seq(|rows|, i requires 0 <= i < |rows| => PrintRow(rows[i]))
  }

  function Document(rows: seq<EventRow>): string {
    HEADER + Joined(PrintRows(rows), "\n")
  }

  // ---------------------------------------------------------------- the reader

  datatype Mode = FieldStart | Plain | Quoted | QuoteSeen | Malformed

  datatype Reader = Reader(records: seq<seq<string>>, record: seq<string>, field: string, mode: Mode)

  function EndField(r: Reader): Reader {
    Reader(r.records, r.record + [r.field], "", FieldStart)
  }

  function EndRecord(r: Reader): Reader {
    Reader(r.records + [r.record + [r.field]], [], "", FieldStart)
  }

  /** One character; the characters that end a record are a parameter. */
  function Read(r: Reader, c: char, breaks: set<char>): Reader {
    match r.mode
    case Malformed => r
    case Quoted => if c == '"' then r.(mode := QuoteSeen) else r.(field := r.field + [c])
    case QuoteSeen =>
      if c == '"' then r.(field := r.field + [c], mode := Quoted)
      else if c == ',' then EndField(r)
      else if c in breaks then EndRecord(r)
      else r.(mode := Malformed)
    case _ =>
      if c == ',' then EndField(r)
      else if c in breaks then EndRecord(r)
      else if c == '"' then r.(mode := if r.mode == FieldStart then Quoted else Malformed)
      else r.(field := r.field + [c], mode := Plain)
  }

  function Run(r: Reader, text: string, breaks: set<char>): Reader {
    if text == "" then r else Read(Run(r, text[..|text| - 1], breaks), text[|text| - 1], breaks)
  }

  function Start(records: seq<seq<string>>): Reader {
    Reader(records, [], "", FieldStart)
  }

  /** The records when the text ends here; an empty last line is the optional line end, not a record. */
  function Records(r: Reader): Option<seq<seq<string>>> {
    if r.mode == Malformed || r.mode == Quoted then None
    else if r.mode == FieldStart && r.record == [] then Some(r.records)
    else Some(EndRecord(r).records)
  }

  function Parse(text: string, breaks: set<char>): Option<seq<seq<string>>> {
    Records(Run(Start([]), text, breaks))
  }

  const LF := {'\n'}
  const CR_OR_LF := {'\n', '\r'}

  // ---------------------------------------------------------------- reading what was printed

  lemma {:induction false} RunSnoc(r: Reader, a: string, c: char, breaks: set<char>)
    ensures Run(r, a + [c], breaks) == Read(Run(r, a, breaks), c, breaks)
  {
    assert (a + [c])[..|a|] == a;
  }

  lemma {:induction false} RunAppend(r: Reader, a: string, b: string, breaks: set<char>)
    ensures Run(r, a + b, breaks) == Run(Run(r, a, breaks), b, breaks)
  {
    hide Read;
    if b == "" {
      assert a + b == a;
    } else {
      assert (a + b)[..|a + b| - 1] == a + b[..|b| - 1];
      RunAppend(r, a, b[..|b| - 1], breaks);
    }
  }

  /** The reader stands at the end of a field that reads as s, with nothing but this field begun. */
  predicate ReadSo(r: Reader, records: seq<seq<string>>, record: seq<string>, s: string) {
    && r.records == records && r.record == record && r.field == s
    && (r.mode == Plain || r.mode == QuoteSeen || (r.mode == FieldStart && s == ""))
  }

  predicate Breaks(breaks: set<char>) {
    '\n' in breaks && ',' !in breaks && '"' !in breaks
  }

  /** Printed without quotes, a field must not hold a record end. */
  predicate Safe(s: string, breaks: set<char>) {
    Special(s) || forall i :: 0 <= i < |s| ==> s[i] !in breaks
  }

  lemma {:induction false} DoubledReads(r: Reader, s: string, breaks: set<char>)
    requires r.mode == Quoted
    ensures Run(r, Doubled(s), breaks) == r.(field := r.field + s)
  {
    if s == "" {
      assert r.field + s == r.field;
    } else {
      hide Run;
      var p, c := s[..|s| - 1], s[|s| - 1];
      DoubledReads(r, p, breaks);
      assert r.field + s == r.field + p + [c];
      if c == '"' {
        assert Doubled(s) == Doubled(p) + ['"'] + ['"'];
        RunSnoc(r, Doubled(p) + ['"'], '"', breaks);
        RunSnoc(r, Doubled(p), '"', breaks);
      } else {
        RunSnoc(r, Doubled(p), c, breaks);
      }
    }
  }

  lemma {:induction false} PlainReads(r: Reader, s: string, breaks: set<char>)
    requires r.mode == FieldStart && r.field == "" && !Special(s) && Safe(s, breaks)
    ensures ReadSo(Run(r, s, breaks), r.records, r.record, s)
  {
    if s != "" {
      var p := s[..|s| - 1];
      PlainReads(r, p, breaks);
      assert s == p + [s[|s| - 1]];
    }
  }

  lemma {:induction false} FieldReads(r: Reader, s: string, breaks: set<char>)
    requires r.mode == FieldStart && r.field == "" && Safe(s, breaks) && Breaks(breaks)
    ensures ReadSo(Run(r, Quote(s), breaks), r.records, r.record, s)
  {
    if Special(s) {
      var q := Opened(r, breaks);
      DoubledReads(q, s, breaks);
      assert q.field + s == s;
      hide Run;
      RunAppend(r, "\"", Doubled(s), breaks);
      assert Quote(s) == "\"" + Doubled(s) + ['"'];
      RunSnoc(r, "\"" + Doubled(s), '"', breaks);
    } else {
      PlainReads(r, s, breaks);
    }
  }

  /** An opening quote. */
  lemma Opened(r: Reader, breaks: set<char>) returns (q: Reader)
    requires r.mode == FieldStart && Breaks(breaks)
    ensures q == Run(r, "\"", breaks) == r.(mode := Quoted)
  {
    q := r.(mode := Quoted);
    RunSnoc(r, "", '"', breaks);
    assert "" + ['"'] == "\"";
    assert Run(r, "", breaks) == r;
  }

  function Quotes(fields: seq<string>): seq<string> {
    seq(|fields|, i requires 0 <= i < |fields| => Quote(fields[i]))
  }

  predicate AllSafe(fields: seq<string>, breaks: set<char>) {
    forall i :: 0 <= i < |fields| ==> Safe(fields[i], breaks)
  }

  predicate AtFieldEnd(r: Reader) {
    r.mode in {FieldStart, Plain, QuoteSeen}
  }

  lemma {:induction false} NextField(r: Reader, line: string, s: string, breaks: set<char>)
    requires AtFieldEnd(Run(r, line, breaks)) && Safe(s, breaks) && Breaks(breaks)
    ensures var q := Run(r, line, breaks);
            ReadSo(Run(r, line + "," + Quote(s), breaks), q.records, q.record + [q.field], s)
  {
    var q := Run(r, line, breaks);
    RunSnoc(r, line, ',', breaks);
    assert line + "," == line + [','];
    assert Read(q, ',', breaks) == EndField(q);
    RunAppend(r, line + ",", Quote(s), breaks);
    FieldReads(EndField(q), s, breaks);
    hide Run, Read, Quote, Safe;
  }

  lemma {:induction false} NextRecord(r: Reader, text: string, breaks: set<char>)
    requires AtFieldEnd(Run(r, text, breaks)) && Breaks(breaks)
    ensures Run(r, text + "\n", breaks) == EndRecord(Run(r, text, breaks))
  {
    RunSnoc(r, text, '\n', breaks);
    assert text + "\n" == text + ['\n'];
  }

  lemma LineSnoc(fields: seq<string>)
    requires |fields| > 1
    ensures var n := |fields| - 1;
            Joined(Quotes(fields), ",") == Joined(Quotes(fields[..n]), ",") + "," + Quote(fields[n])
  {
    hide Quote;
    assert Quotes(fields)[..|fields| - 1] == Quotes(fields[..|fields| - 1]);
  }

  lemma OneField(fields: seq<string>)
    requires |fields| == 1
    ensures Joined(Quotes(fields), ",") == Quote(fields[0])
  {
    hide Quote;
  }

  lemma {:induction false} LineReads(records: seq<seq<string>>, fields: seq<string>, breaks: set<char>)
    requires fields != [] && AllSafe(fields, breaks) && Breaks(breaks)
    ensures var n := |fields| - 1;
            ReadSo(Run(Start(records), Joined(Quotes(fields), ","), breaks), records, fields[..n], fields[n])
  {
    hide Run, Quote, Safe, Joined, Quotes;
    var n := |fields| - 1;
    if n == 0 {
      OneField(fields);
      FieldReads(Start(records), fields[0], breaks);
    } else {
      var p := fields[..n];
      LineReads(records, p, breaks);
      LineSnoc(fields);
      NextField(Start(records), Joined(Quotes(p), ","), fields[n], breaks);
      assert p[..n - 1] + [p[n - 1]] == p;
    }
  }

  // ---------------------------------------------------------------- whole documents

  function Fields(r: EventRow): seq<string> {
    [r.id, r.eventType, r.severity, r.status, r.confidence, r.occurredAt, r.camera, r.site]
  }

  function AllFields(rows: seq<EventRow>): seq<seq<string>> {
    seq(|rows|, i requires 0 <= i < |rows| => Fields(rows[i]))
  }

  predicate Clean(s: string) {
    forall i :: 0 <= i < |s| ==> s[i] !in "\",\n\r"
  }

  /** Identifiers, enum names, numbers and ISO times hold no comma, quote or line end. */
  predicate CleanRow(r: EventRow) {
    && Clean(r.id) && Clean(r.eventType) && Clean(r.severity)
    && Clean(r.status) && Clean(r.confidence) && Clean(r.occurredAt)
  }

  predicate CleanRows(rows: seq<EventRow>) {
    forall i :: 0 <= i < |rows| ==> CleanRow(rows[i])
  }

  predicate SafeNames(rows: seq<EventRow>, breaks: set<char>) {
    forall i :: 0 <= i < |rows| ==> Safe(rows[i].camera, breaks) && Safe(rows[i].site, breaks)
  }

  lemma CleanIsPlain(s: string, breaks: set<char>)
    requires Clean(s) && breaks <= CR_OR_LF
    ensures Quote(s) == s && Safe(s, breaks)
  {
  }

  lemma RowIsQuotedLine(r: EventRow, breaks: set<char>)
    requires CleanRow(r) && breaks <= CR_OR_LF
    ensures PrintRow(r) == Joined(Quotes(Fields(r)), ",")
    ensures AllSafe(Fields(r), breaks) <==> Safe(r.camera, breaks) && Safe(r.site, breaks)
  {
    hide Quote, Clean, Joined, Safe;
    CleanIsPlain(r.id, breaks);
    CleanIsPlain(r.eventType, breaks);
    CleanIsPlain(r.severity, breaks);
    CleanIsPlain(r.status, breaks);
    CleanIsPlain(r.confidence, breaks);
    CleanIsPlain(r.occurredAt, breaks);
    var f := Fields(r);
    assert f[6] == r.camera && f[7] == r.site;
    assert Quotes(f) == [r.id, r.eventType, r.severity, r.status, r.confidence, r.occurredAt, Quote(r.camera),
                         Quote(r.site)];
  }

  lemma {:induction false} HeaderReads(breaks: set<char>)
    requires Breaks(breaks) && breaks <= CR_OR_LF
    ensures Run(Start([]), HEADER, breaks) == Start([COLUMNS])
  {
    HeaderIsLine();
    assert forall i :: 0 <= i < |COLUMNS| ==> Clean(COLUMNS[i]);
    forall i | 0 <= i < |COLUMNS| ensures Quote(COLUMNS[i]) == COLUMNS[i] && Safe(COLUMNS[i], breaks) {
      CleanIsPlain(COLUMNS[i], breaks);
    }
    assert Quotes(COLUMNS) == COLUMNS;
    LineReads([], COLUMNS, breaks);
    NextRecord(Start([]), Joined(COLUMNS, ","), breaks);
    assert COLUMNS[..7] + [COLUMNS[7]] == COLUMNS;
    hide Run, Joined, Quote, Safe;
  }

  lemma {:induction false} JoinSnoc(parts: seq<string>, part: string, separator: string)
    requires parts != []
    ensures Joined(parts + [part], separator) == Joined(parts, separator) + separator + part
  {
    assert (parts + [part])[..|parts|] == parts;
  }

  lemma HeaderIsLine()
    ensures HEADER == Joined(COLUMNS, ",") + "\n"
  {
    HeaderText();
    hide Joined, HEADER;
    FirstColumn();
    JoinSnoc(COLUMNS[..1], COLUMNS[1], ",");
    assert COLUMNS[..1] + [COLUMNS[1]] == COLUMNS[..2];
    JoinSnoc(COLUMNS[..2], COLUMNS[2], ",");
    assert COLUMNS[..2] + [COLUMNS[2]] == COLUMNS[..3];
    JoinSnoc(COLUMNS[..3], COLUMNS[3], ",");
    assert COLUMNS[..3] + [COLUMNS[3]] == COLUMNS[..4];
    JoinSnoc(COLUMNS[..4], COLUMNS[4], ",");
    assert COLUMNS[..4] + [COLUMNS[4]] == COLUMNS[..5];
    JoinSnoc(COLUMNS[..5], COLUMNS[5], ",");
    assert COLUMNS[..5] + [COLUMNS[5]] == COLUMNS[..6];
    JoinSnoc(COLUMNS[..6], COLUMNS[6], ",");
    assert COLUMNS[..6] + [COLUMNS[6]] == COLUMNS[..7];
    JoinSnoc(COLUMNS[..7], COLUMNS[7], ",");
    assert COLUMNS[..7] + [COLUMNS[7]] == COLUMNS[..8];
    assert COLUMNS[..8] == COLUMNS;
  }

  lemma FirstColumn()
    ensures Joined(COLUMNS[..1], ",") == "id"
  {
  }

  lemma HeaderText()
    ensures HEADER == "id" + "," + "event_type" + "," + "severity" + "," + "status" + "," + "confidence" + ","
                      + "occurred_at" + "," + "camera" + "," + "site" + "\n"
  {
    assert "id" + "," + "event_type" == "id,event_type";
    assert "id,event_type" + "," + "severity" == "id,event_type,severity";
    assert "id,event_type,severity" + "," + "status" == "id,event_type,severity,status";
    assert "id,event_type,severity,status" + "," + "confidence" == "id,event_type,severity,status,confidence";
    assert "id,event_type,severity,status,confidence" + "," + "occurred_at"
        == "id,event_type,severity,status,confidence,occurred_at";
    assert "id,event_type,severity,status,confidence,occurred_at" + "," + "camera"
        == "id,event_type,severity,status,confidence,occurred_at,camera";
    assert "id,event_type,severity,status,confidence,occurred_at,camera" + "," + "site"
        == "id,event_type,severity,status,confidence,occurred_at,camera,site";
  }

  lemma {:induction false} RowsRead(records: seq<seq<string>>, rows: seq<EventRow>, breaks: set<char>)
    requires rows != [] && CleanRows(rows) && SafeNames(rows, breaks) && Breaks(breaks) && breaks <= CR_OR_LF
    ensures var n := |rows| - 1; var last := Fields(rows[n]);
            ReadSo(Run(Start(records), Joined(PrintRows(rows), "\n"), breaks),
                   records + AllFields(rows[..n]), last[..7], last[7])
  {
    hide Run, Quote, Safe, CleanRow;
    var n := |rows| - 1;
    RowIsQuotedLine(rows[n], breaks);
    if n == 0 {
      LineReads(records, Fields(rows[0]), breaks);
      assert records + AllFields(rows[..0]) == records;
    } else {
      var p := rows[..n];
      RowsRead(records, p, breaks);
      assert PrintRows(rows)[..n] == PrintRows(p);
      var text := Joined(PrintRows(p), "\n");
      NextRecord(Start(records), text, breaks);
      RunAppend(Start(records), text + "\n", PrintRow(rows[n]), breaks);
      var last := Fields(p[n - 1]);
      assert last[..7] + [last[7]] == last;
      assert p[..n - 1] + [p[n - 1]] == p;
      assert AllFields(p) == AllFields(p[..n - 1]) + [last];
      assert records + AllFields(p[..n - 1]) + [last] == records + AllFields(p);
      LineReads(records + AllFields(p), Fields(rows[n]), breaks);
    }
  }

  /** Whatever the camera and site names hold, reading the document gives the header and the original fields back, as
      long as no unquoted name holds a character the reader ends records at. */
  lemma ReadsBack(rows: seq<EventRow>, breaks: set<char>)
    requires CleanRows(rows) && SafeNames(rows, breaks) && Breaks(breaks) && breaks <= CR_OR_LF
    ensures Parse(Document(rows), breaks) == Some([COLUMNS] + AllFields(rows))
  {
    HeaderReads(breaks);
    RunAppend(Start([]), HEADER, Joined(PrintRows(rows), "\n"), breaks);
    BodyEnds([COLUMNS], rows, breaks);
    hide Run, Read, Joined, Fields, AllFields, PrintRows, CleanRows, SafeNames;
  }

  lemma LastRow(records: seq<seq<string>>, rows: seq<EventRow>)
    requires rows != []
    ensures var n := |rows| - 1; var last := Fields(rows[n]);
            records + AllFields(rows) == records + AllFields(rows[..n]) + [last[..7] + [last[7]]]
  {
    var n := |rows| - 1;
    var last := Fields(rows[n]);
    assert last[..7] + [last[7]] == last;
    hide Fields;
    assert AllFields(rows) == AllFields(rows[..n]) + [last];
  }

  lemma {:induction false} BodyEnds(records: seq<seq<string>>, rows: seq<EventRow>, breaks: set<char>)
    requires CleanRows(rows) && SafeNames(rows, breaks) && Breaks(breaks) && breaks <= CR_OR_LF
    ensures Records(Run(Start(records), Joined(PrintRows(rows), "\n"), breaks)) == Some(records + AllFields(rows))
  {
    if rows == [] {
      assert records + AllFields(rows) == records;
    } else {
      hide Run, Joined, CleanRows, SafeNames, PrintRows, AllFields, Fields;
      RowsRead(records, rows, breaks);
      LastRow(records, rows);
    }
  }

  /** The round trip of section 2 of RFC 4180 with LF line ends, for every list of rows. */
  lemma RoundTrip(rows: seq<EventRow>)
    requires CleanRows(rows)
    ensures Parse(Document(rows), LF) == Some([COLUMNS] + AllFields(rows))
  {
    assert SafeNames(rows, LF);
    ReadsBack(rows, LF);
  }

  /** Two exports with the same text are of the same rows. */
  lemma ExportInjective(rows: seq<EventRow>, rows': seq<EventRow>)
    requires CleanRows(rows) && CleanRows(rows') && Document(rows) == Document(rows')
    ensures rows == rows'
  {
    RoundTrip(rows);
    RoundTrip(rows');
    hide Parse, Document, CleanRows;
    var a, b := [COLUMNS] + AllFields(rows), [COLUMNS] + AllFields(rows');
    assert |AllFields(rows)| == |a| - 1 && |AllFields(rows')| == |b| - 1;
    forall i | 0 <= i < |rows| ensures rows[i] == rows'[i] {
      assert a[i + 1] == Fields(rows[i]) && b[i + 1] == Fields(rows'[i]);
      FieldsInjective(rows[i], rows'[i]);
    }
  }

  lemma FieldsInjective(r: EventRow, r': EventRow)
    requires Fields(r) == Fields(r')
    ensures r == r'
  {
    var f, g := Fields(r), Fields(r');
    assert f[0] == g[0] && f[1] == g[1] && f[2] == g[2] && f[3] == g[3];
    assert f[4] == g[4] && f[5] == g[5] && f[6] == g[6] && f[7] == g[7];
  }

  // ---------------------------------------------------------------- readers that also end a record at a bare CR

  /** The last record kept ends in a field without CR. */
  predicate EndsPlain(records: seq<seq<string>>) {
    records != [] && var last := records[|records| - 1]; last != [] && '\r' !in last[|last| - 1]
  }

  lemma {:induction false} PlainBreaks(r: Reader, s: string)
    requires r.mode == FieldStart && r.field == "" && !Special(s)
    ensures var q := Run(r, s, CR_OR_LF);
            && (q.mode == FieldStart || q.mode == Plain) && '\r' !in q.field
            && (if '\r' in s then |q.records| > |r.records| && EndsPlain(q.records)
                else q.records == r.records && q.record == r.record)
  {
    if s != "" {
      var p, c := s[..|s| - 1], s[|s| - 1];
      assert s == p + [c];
      assert !Special(p);
      PlainBreaks(r, p);
    }
  }

  lemma {:induction false} FieldBreaks(r: Reader, s: string)
    requires r.mode == FieldStart && r.field == ""
    ensures var q := Run(r, Quote(s), CR_OR_LF);
            && AtFieldEnd(q)
            && (if Safe(s, CR_OR_LF) then q.records == r.records && q.record == r.record
                else |q.records| > |r.records| && EndsPlain(q.records) && '\r' in s)
  {
    if Special(s) { FieldReads(r, s, CR_OR_LF); } else { PlainBreaks(r, s); }
    hide Run, EndsPlain;
  }

  predicate AtRecordStart(r: Reader) {
    r.mode == FieldStart && r.record == []
  }

  lemma {:induction false} LineBreaks(r: Reader, fields: seq<string>)
    requires r.mode == FieldStart && r.field == "" && fields != []
    ensures var q := Run(r, Joined(Quotes(fields), ","), CR_OR_LF);
            && AtFieldEnd(q) && |q.records| >= |r.records| + (if AllSafe(fields, CR_OR_LF) then 0 else 1)
            && (AtRecordStart(q) && |fields| > 1 ==> EndsPlain(q.records) && '\r' in fields[|fields| - 1])
  {
    hide Run, Quote, Safe, Joined, Quotes, EndsPlain;
    var n := |fields| - 1;
    if n == 0 {
      OneField(fields);
      FieldBreaks(r, fields[0]);
    } else {
      LineBreaks(r, fields[..n]);
      LineSnoc(fields);
      var line := Joined(Quotes(fields[..n]), ",");
      var q := Run(r, line, CR_OR_LF);
      CommaThen(r, line, Quote(fields[n]), CR_OR_LF);
      FieldBreaks(EndField(q), fields[n]);
      assert AllSafe(fields, CR_OR_LF) <==> AllSafe(fields[..n], CR_OR_LF) && Safe(fields[n], CR_OR_LF);
    }
  }

  lemma {:induction false} CommaThen(r: Reader, line: string, rest: string, breaks: set<char>)
    requires AtFieldEnd(Run(r, line, breaks)) && Breaks(breaks)
    ensures Run(r, line + "," + rest, breaks) == Run(EndField(Run(r, line, breaks)), rest, breaks)
  {
    RunSnoc(r, line, ',', breaks);
    assert line + "," == line + [','];
    RunAppend(r, line + ",", rest, breaks);
    hide Run;
  }

  lemma {:induction false} RowsBreak(records: seq<seq<string>>, rows: seq<EventRow>)
    requires rows != [] && CleanRows(rows)
    ensures var q := Run(Start(records), Joined(PrintRows(rows), "\n"), CR_OR_LF);
            && AtFieldEnd(q)
            && |q.records| >= |records| + |rows| - 1 + (if SafeNames(rows, CR_OR_LF) then 0 else 1)
            && (AtRecordStart(q) ==> EndsPlain(q.records) && '\r' in rows[|rows| - 1].site)
  {
    hide Run, Quote, Quotes, Safe, CleanRow, EndsPlain, AllSafe;
    var n := |rows| - 1;
    RowIsQuotedLine(rows[n], CR_OR_LF);
    if n == 0 {
      LineBreaks(Start(records), Fields(rows[0]));
    } else {
      var p := rows[..n];
      RowsBreak(records, p);
      assert PrintRows(rows)[..n] == PrintRows(p);
      var text := Joined(PrintRows(p), "\n");
      NextRecord(Start(records), text, CR_OR_LF);
      RunAppend(Start(records), text + "\n", PrintRow(rows[n]), CR_OR_LF);
      LineBreaks(EndRecord(Run(Start(records), text, CR_OR_LF)), Fields(rows[n]));
    }
  }

  /** The export does not quote a bare CR: a reader that takes CR, too, as a line end reads the rows back exactly when
      no name without comma, quote or LF holds a CR. */
  lemma CrReaderIff(rows: seq<EventRow>)
    requires CleanRows(rows)
    ensures Parse(Document(rows), CR_OR_LF) == Some([COLUMNS] + AllFields(rows)) <==> SafeNames(rows, CR_OR_LF)
  {
    if SafeNames(rows, CR_OR_LF) {
      ReadsBack(rows, CR_OR_LF);
    } else {
      HeaderReads(CR_OR_LF);
      RunAppend(Start([]), HEADER, Joined(PrintRows(rows), "\n"), CR_OR_LF);
      RowsBreak([COLUMNS], rows);
      if '\r' in rows[|rows| - 1].site { LostAtEnd([COLUMNS] + AllFields(rows), rows); }
      hide Run, Joined, SafeNames, CleanRows, Fields, EndsPlain, HEADER;
    }
  }

  lemma LostAtEnd(records: seq<seq<string>>, rows: seq<EventRow>)
    requires rows != [] && records == [COLUMNS] + AllFields(rows) && '\r' in rows[|rows| - 1].site
    ensures !EndsPlain(records)
  {
    assert records[|records| - 1] == Fields(rows[|rows| - 1]);
  }

  /** A camera named with a CR is printed unquoted, and such a reader does not get the row back. */
  lemma CrSplitsRow() returns (rows: seq<EventRow>)
    ensures CleanRows(rows) && |rows| == 1 && rows[0].camera == "a\rb" && Quote(rows[0].camera) == "a\rb"
    ensures Parse(Document(rows), CR_OR_LF) != Some([COLUMNS] + AllFields(rows))
  {
    rows := [EventRow("e1", "FIRE", "HIGH", "OPEN", "0.9", "t", "a\rb", "s")];
    var name := rows[0].camera;
    assert name[0] == 'a' && name[1] == '\r' && name[2] == 'b' && !Special(name);
    assert !Safe(name, CR_OR_LF);
    CrReaderIff(rows);
    hide Parse, Document, Quote, Safe;
  }
}
