/**
 * The CSV exports, and a reader by the quoting rules of section 2 of RFC 4180 with
 * LF as the record separator.
 */
module Csv {
  import opened Wrappers

  // ---- The printer --------------------------------------------------------

  predicate NeedsQuotes(value: string) {
    '\"' in value || ',' in value || '\n' in value
  }

  /** replaceAll('"', '""'). */
  function Doubled(value: string): string {
    if |value| == 0 then ""
    else (if value[0] == '\"' then "\"\"" else [value[0]]) + Doubled(value[1..])
  }

  function CsvField(value: string): string {
    if NeedsQuotes(value) then "\"" + Doubled(value) + "\"" else value
  }

  function Join(parts: seq<string>, separator: char): string {
    if |parts| == 0 then ""
    else if |parts| == 1 then parts[0]
    else parts[0] + [separator] + Join(parts[1..], separator)
  }

  function Fields(record: seq<string>): seq<string> {
    seq(|record|, i requires 0 <= i < |record| => CsvField(record[i]))
  }

  function Line(record: seq<string>): string {
    Join(Fields(record), ',')
  }

  function Lines(records: seq<seq<string>>): seq<string> {
    seq(|records|, i requires 0 <= i < |records| => Line(records[i]))
  }

  function PrintCsv(header: seq<string>, records: seq<seq<string>>): string {
    Join([Join(header, ',')] + Lines(records), '\n')
  }

  // ---- The reader ---------------------------------------------------------

  /** Where the reader stands inside the current field. */
  datatype Mode = AtStart | Plain | Quoted | AfterQuote

  /** The records read, the fields of the current one, and the text of the current field. */
  datatype Reader = Reader(done: seq<seq<string>>, fields: seq<string>, text: string, mode: Mode)

  function EndField(r: Reader): Reader {
    Reader(r.done, r.fields + [r.text], "", AtStart)
  }

  function EndRecord(r: Reader): Reader {
    Reader(r.done + [r.fields + [r.text]], [], "", AtStart)
  }

  function Put(r: Reader, c: char, mode: Mode): Reader {
    r.(text := r.text + [c], mode := mode)
  }

  /** One character; None where the text is not CSV. */
  function Feed(r: Reader, c: char): Option<Reader> {
    match r.mode
    case Quoted => if c == '\"' then Some(r.(mode := AfterQuote)) else Some(Put(r, c, Quoted))
    case AfterQuote =>
      if c == '\"' then Some(Put(r, c, Quoted))
      else if c == ',' then Some(EndField(r))
      else if c == '\n' then Some(EndRecord(r))
      else None
    case _ =>
      if c == ',' then Some(EndField(r))
      else if c == '\n' then Some(EndRecord(r))
      else if c == '\"' then (if r.mode == AtStart then Some(r.(mode := Quoted)) else None)
      else Some(Put(r, c, Plain))
  }

  function FeedAll(r: Reader, text: string): Option<Reader>
    decreases |text|
  {
    if |text| == 0 then Some(r)
    else
      var next := Feed(r, text[0]);
      if next.None? then None else FeedAll(next.value, text[1..])
  }

  const START := Reader([], [], "", AtStart)

  /** The records of a text; an unfinished quoted field is an error. */
  function ParseCsv(text: string): Option<seq<seq<string>>> {
    var r := FeedAll(START, text);
    if r.None? || r.value.mode == Quoted then None else Some(EndRecord(r.value).done)
  }

  // ---- Reading back what was printed --------------------------------------

  lemma {:induction false} FeedConcat(r: Reader, a: string, b: string)
    requires FeedAll(r, a).Some?
    ensures FeedAll(r, a + b) == FeedAll(FeedAll(r, a).value, b)
    decreases |a|
  {
    if |a| == 0 {
      assert a + b == b;
    } else {
      assert (a + b)[1..] == a[1..] + b;
      FeedConcat(Feed(r, a[0]).value, a[1..], b);
    }
  }

  lemma {:induction false} FeedDoubled(r: Reader, value: string)
    requires r.mode == Quoted
    ensures FeedAll(r, Doubled(value)) == Some(r.(text := r.text + value))
    decreases |value|
  {
    if |value| == 0 {
      assert r.text + value == r.text;
    } else {
      var next := Put(r, value[0], Quoted);
      var first := if value[0] == '\"' then "\"\"" else [value[0]];
      FeedFirst(r, value[0], first);
      FeedConcat(r, first, Doubled(value[1..]));
      FeedDoubled(next, value[1..]);
      assert r.text + [value[0]] + value[1..] == r.text + value;
    }
  }

  lemma FeedFirst(r: Reader, c: char, first: string)
    requires r.mode == Quoted && first == if c == '\"' then "\"\"" else [c]
    ensures FeedAll(r, first) == Some(Put(r, c, Quoted))
  {
    if c == '\"' {
      var mid := r.(mode := AfterQuote);
      assert first[1..] == "\"";
      assert FeedAll(mid, "\"") == FeedAll(Put(mid, c, Quoted), "\""[1..]);
    } else {
      assert FeedAll(r, first) == FeedAll(Put(r, c, Quoted), first[1..]);
    }
  }

  lemma {:induction false} FeedPlain(r: Reader, value: string)
    requires (r.mode == AtStart || r.mode == Plain) && !NeedsQuotes(value)
    ensures FeedAll(r, value) == Some(r.(text := r.text + value, mode := if |value| == 0 then r.mode else Plain))
    decreases |value|
  {
    if |value| == 0 {
      assert r.text + value == r.text;
    } else {
      assert value[0] in value && forall c :: c in value[1..] ==> c in value;
      FeedPlain(Put(r, value[0], Plain), value[1..]);
      assert r.text + [value[0]] + value[1..] == r.text + value;
    }
  }

  /** Standing at the end of a field whose text is `value`. */
  predicate AtEnd(r: Reader, done: seq<seq<string>>, fields: seq<string>, value: string) {
    r.done == done && r.fields == fields && r.text == value && r.mode != Quoted
  }

  lemma FeedOne(r: Reader, c: char)
    requires Feed(r, c).Some?
    ensures FeedAll(r, [c]) == Feed(r, c)
  {
    assert FeedAll(Feed(r, c).value, [c][1..]) == Feed(r, c);
  }

  /** A quoted field: the opening quote, the text with its quotes doubled, the closing quote. */
  lemma FeedQuoted(r: Reader, value: string)
    requires r.mode == AtStart && r.text == ""
    ensures FeedAll(r, ['\"'] + Doubled(value) + ['\"']) == Some(r.(text := value, mode := AfterQuote))
  {
    var open := r.(mode := Quoted);
    var inside := open.(text := value);
    assert open.text + value == value;
    FeedDoubled(open, value);
    FeedOne(r, '\"');
    FeedConcat(r, ['\"'], Doubled(value));
    FeedOne(inside, '\"');
    FeedConcat(r, ['\"'] + Doubled(value), ['\"']);
  }

  lemma FeedField(r: Reader, value: string)
    requires r.mode == AtStart && r.text == ""
    ensures var end := FeedAll(r, CsvField(value));
            end.Some? && AtEnd(end.value, r.done, r.fields, value)
  {
    if NeedsQuotes(value) {
      FeedQuoted(r, value);
      assert CsvField(value) == ['\"'] + Doubled(value) + ['\"'];
    } else {
      FeedPlain(r, value);
      assert r.text + value == value;
    }
  }

  lemma FeedSeparator(r: Reader, c: char, rest: string)
    requires r.mode != Quoted && (c == ',' || c == '\n')
    ensures FeedAll(r, [c] + rest) == FeedAll(if c == ',' then EndField(r) else EndRecord(r), rest)
  {
    assert ([c] + rest)[1..] == rest;
  }

  /** A record of several fields reads as its first field followed by the record of the others. */
  lemma FeedFieldFirst(r: Reader, record: seq<string>)
    requires |record| > 1 && r.mode == AtStart && r.text == ""
    ensures var first := FeedAll(r, CsvField(record[0]));
            first.Some? && FeedAll(r, Line(record)) == FeedAll(EndField(first.value), Line(record[1..]))
  {
    FeedField(r, record[0]);
    LineSplits(record);
    FeedConcat(r, CsvField(record[0]), [','] + Line(record[1..]));
    FeedSeparator(FeedAll(r, CsvField(record[0])).value, ',', Line(record[1..]));
  }

  /** A printed record leaves the reader at the end of its last field. */
  lemma {:induction false} FeedLine(r: Reader, record: seq<string>)
    requires |record| > 0 && r.mode == AtStart && r.text == ""
    ensures var end := FeedAll(r, Line(record));
            end.Some? && AtEnd(end.value, r.done, r.fields + record[..|record| - 1], record[|record| - 1])
    decreases |record|
  {
    FeedField(r, record[0]);
    var first := FeedAll(r, CsvField(record[0])).value;
    if |record| == 1 {
      assert Line(record) == CsvField(record[0]);
      assert r.fields + record[..0] == r.fields;
    } else {
      var rest := record[1..];
      FeedFieldFirst(r, record);
      FeedLine(EndField(first), rest);
      FieldsSplit(r.fields, record);
    }
  }

  lemma FieldsSplit(fields: seq<string>, record: seq<string>)
    requires |record| > 1
    ensures var rest := record[1..];
            && fields + [record[0]] + rest[..|rest| - 1] == fields + record[..|record| - 1]
            && rest[|rest| - 1] == record[|record| - 1]
  {
  }

  lemma LineSplits(record: seq<string>)
    requires |record| > 1
    ensures Line(record) == CsvField(record[0]) + ([','] + Line(record[1..]))
  {
    assert Fields(record)[1..] == Fields(record[1..]);
  }

  lemma LinesSplit(records: seq<seq<string>>)
    requires |records| > 1
    ensures Join(Lines(records), '\n') == Line(records[0]) + (['\n'] + Join(Lines(records[1..]), '\n'))
  {
    assert Lines(records)[1..] == Lines(records[1..]);
  }

  lemma RecordEnds(r: Reader, end: Reader, record: seq<string>)
    requires |record| > 0 && r.fields == []
    requires AtEnd(end, r.done, r.fields + record[..|record| - 1], record[|record| - 1])
    ensures EndRecord(end).done == r.done + [record]
  {
    assert r.fields + record[..|record| - 1] + [record[|record| - 1]] == record;
  }

  /** Printed records, one line each, leave the reader at the end of the last one. */
  lemma {:induction false} FeedLines(r: Reader, records: seq<seq<string>>)
    requires |records| > 0 && (forall i :: 0 <= i < |records| ==> |records[i]| > 0)
    requires r.mode == AtStart && r.text == "" && r.fields == []
    ensures var end := FeedAll(r, Join(Lines(records), '\n'));
            end.Some? && end.value.mode != Quoted && EndRecord(end.value).done == r.done + records
    decreases |records|
  {
    FeedLine(r, records[0]);
    var first := FeedAll(r, Line(records[0])).value;
    RecordEnds(r, first, records[0]);
    if |records| == 1 {
      assert Join(Lines(records), '\n') == Line(records[0]);
      assert records == [records[0]];
    } else {
      var rest := records[1..];
      LinesSplit(records);
      FeedConcat(r, Line(records[0]), ['\n'] + Join(Lines(rest), '\n'));
      FeedSeparator(first, '\n', Join(Lines(rest), '\n'));
      FeedLines(EndRecord(first), rest);
      assert r.done + [records[0]] + rest == r.done + records;
    }
  }

  /** A record of plain names prints as its names joined. */
  lemma PlainLine(header: seq<string>)
    requires forall i :: 0 <= i < |header| ==> !NeedsQuotes(header[i])
    ensures Line(header) == Join(header, ',')
  {
    assert Fields(header) == header;
  }

  /**
   * Reading the export back gives exactly the header and the field texts printed,
   * whatever quotes, commas and newlines they hold.
   */
  lemma RoundTrip(header: seq<string>, records: seq<seq<string>>)
    requires |header| > 0 && (forall i :: 0 <= i < |header| ==> !NeedsQuotes(header[i]))
    requires forall i :: 0 <= i < |records| ==> |records[i]| > 0
    ensures ParseCsv(PrintCsv(header, records)) == Some([header] + records)
  {
    PlainLine(header);
    assert Lines([header] + records) == [Join(header, ',')] + Lines(records);
    FeedLines(START, [header] + records);
    assert START.done + ([header] + records) == [header] + records;
  }

  // ---- The two exports ----------------------------------------------------

  const EXPORT_LIMIT := 10_000

  datatype Transaction = Transaction(id: string, wallet: string, sender: Option<string>, amount: string, currency: string,
                                     securityCode: Option<string>, status: string, occurredAt: string, device: string)

  datatype AuditEvent = AuditEvent(id: string, action: string, actorType: string, actorUser: Option<string>,
                                   resourceType: Option<string>, resource: Option<string>, createdAt: string)

  const TRANSACTION_HEADER: seq<string> :=
    ["id", "billetera", "remitente", "monto", "moneda", "codigo_seguridad", "estado", "ocurrio_en", "dispositivo"]

  const AUDIT_HEADER: seq<string> :=
    ["id", "accion", "tipo_actor", "actor_usuario", "tipo_recurso", "recurso", "ocurrio_en"]

  function TransactionRecord(t: Transaction): seq<string> {
    [t.id, t.wallet, t.sender.GetOr(""), t.amount, t.currency, t.securityCode.GetOr(""), t.status, t.occurredAt, t.device]
  }

  function AuditRecord(e: AuditEvent): seq<string> {
    [e.id, e.action, e.actorType, e.actorUser.GetOr(""), e.resourceType.GetOr(""), e.resource.GetOr(""), e.createdAt]
  }

  function Taken<T>(rows: seq<T>): seq<T> {
    if |rows| > EXPORT_LIMIT then rows[..EXPORT_LIMIT] else rows
  }

  function Records<T>(rows: seq<T>, record: T -> seq<string>): seq<seq<string>> {
    seq(|rows|, i requires 0 <= i < |rows| => record(rows[i]))
  }

  /** The rows as found, in list order. */
  function ExportTransactions(rows: seq<Transaction>): string {
    PrintCsv(TRANSACTION_HEADER, Records(Taken(rows), TransactionRecord))
  }

  function ExportAudit(rows: seq<AuditEvent>): string {
    PrintCsv(AUDIT_HEADER, Records(Taken(rows), AuditRecord))
  }

  lemma RecordsHaveFields<T>(rows: seq<T>, record: T -> seq<string>)
    requires forall row :: |record(row)| > 0
    ensures forall i :: 0 <= i < |Records(rows, record)| ==> |Records(rows, record)[i]| > 0
  {
    forall i | 0 <= i < |Records(rows, record)| ensures |Records(rows, record)[i]| > 0 {
      assert Records(rows, record)[i] == record(rows[i]);
    }
  }

  lemma RecordAt<T>(rows: seq<T>, record: T -> seq<string>, k: nat)
    requires k < |rows| && k < 10_000
    ensures |Records(Taken(rows), record)| == Min(|rows|, 10_000) && Records(Taken(rows), record)[k] == record(rows[k])
  {
  }

  lemma TransactionExportReadsBack(rows: seq<Transaction>)
    ensures ParseCsv(ExportTransactions(rows)) == Some([TRANSACTION_HEADER] + Records(Taken(rows), TransactionRecord))
  {
    RecordsHaveFields(Taken(rows), TransactionRecord);
    RoundTrip(TRANSACTION_HEADER, Records(Taken(rows), TransactionRecord));
  }

  lemma AuditExportReadsBack(rows: seq<AuditEvent>)
    ensures ParseCsv(ExportAudit(rows)) == Some([AUDIT_HEADER] + Records(Taken(rows), AuditRecord))
  {
    RecordsHaveFields(Taken(rows), AuditRecord);
    RoundTrip(AUDIT_HEADER, Records(Taken(rows), AuditRecord));
  }

  function OrEmpty(text: Option<string>): string {
    if text.Some? then text.value else ""
  }

  /**
   * Reading a transaction export back: a header and a record for each of the first
   * 10 000 rows, in order, with these columns; an absent field is empty text.
   */
  lemma TransactionColumns(rows: seq<Transaction>, k: nat)
    requires k < |rows| && k < 10_000
    ensures var read := ParseCsv(ExportTransactions(rows));
            && read.Some? && |read.value| == 1 + Min(|rows|, 10_000)
            && read.value[0] == ["id", "billetera", "remitente", "monto", "moneda", "codigo_seguridad", "estado", "ocurrio_en",
                                 "dispositivo"]
            && read.value[1 + k] == [rows[k].id, rows[k].wallet, OrEmpty(rows[k].sender), rows[k].amount, rows[k].currency,
                                     OrEmpty(rows[k].securityCode), rows[k].status, rows[k].occurredAt, rows[k].device]
  {
    TransactionExportReadsBack(rows);
    RecordAt(rows, TransactionRecord, k);
  }

  lemma AuditColumns(rows: seq<AuditEvent>, k: nat)
    requires k < |rows| && k < 10_000
    ensures var read := ParseCsv(ExportAudit(rows));
            && read.Some? && |read.value| == 1 + Min(|rows|, 10_000)
            && read.value[0] == ["id", "accion", "tipo_actor", "actor_usuario", "tipo_recurso", "recurso", "ocurrio_en"]
            && read.value[1 + k] == [rows[k].id, rows[k].action, rows[k].actorType, OrEmpty(rows[k].actorUser),
                                     OrEmpty(rows[k].resourceType), OrEmpty(rows[k].resource), rows[k].createdAt]
  {
    AuditExportReadsBack(rows);
    RecordAt(rows, AuditRecord, k);
  }

  /** For every number of rows, none included: a header and at most 10 000 records. */
  lemma ExportSizes(transactions: seq<Transaction>, events: seq<AuditEvent>)
    ensures ParseCsv(ExportTransactions(transactions)).Some? && ParseCsv(ExportAudit(events)).Some?
    ensures |ParseCsv(ExportTransactions(transactions)).value| == 1 + Min(|transactions|, 10_000)
    ensures |ParseCsv(ExportAudit(events)).value| == 1 + Min(|events|, 10_000)
  {
    TransactionExportReadsBack(transactions);
    AuditExportReadsBack(events);
  }
}
