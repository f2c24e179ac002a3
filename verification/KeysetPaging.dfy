/**
 * Keyset pagination in (time desc, id desc) order: the row filter, one page, and
 * walks of next_cursor over a table that changes between the pages. Times of rows
 * are microseconds, as the columns store them; a cursor carries milliseconds.
 */
module KeysetPaging {
  import opened Wrappers
  import opened Collections

  /** The columns the filters look at, sort key aside. */
  datatype Data =
    | Payment(wallet: int, device: int, status: string, amount: int, search: Option<string>)
    | Audit(action: string, actorUser: Option<int>, resourceType: Option<string>)

  datatype Row = Row(time: int, id: int, data: Data)

  type Table = set<Row>

  datatype Cursor = Cursor(ms: int, id: int)

  /** The order of the lists: a is further down than b. */
  predicate Below(a: Row, b: Row) {
    a.time < b.time || (a.time == b.time && a.id < b.id)
  }

  /** The id is the primary key. */
  ghost predicate Keyed(t: Table) {
    forall a, b :: a in t && b in t && a.id == b.id ==> a == b
  }

  // ---- The filter ---------------------------------------------------------

  datatype CursorParam = NoCursor | Malformed | From(cursor: Cursor)

  datatype Query = Query(
    from: Option<int>, to: Option<int>, walletCode: string, device: Option<int>, status: Option<string>,
    minAmount: Option<int>, maxAmount: Option<int>, search: string, cursor: CursorParam)

  /** The where object: absent fields do not filter; `not` excludes rows at a time with id >= a bound. */
  datatype Where = Where(
    gte: Option<int>, lte: Option<int>, wallet: Option<int>, device: Option<int>, status: Option<string>,
    minAmount: Option<int>, maxAmount: Option<int>, search: Option<string>, not: Option<(int, int)>)

  predicate Contains(text: string, part: string) {
    part <= text || (|text| > 0 && Contains(text[1..], part))
  }

  predicate StandsAt(text: string, part: string, i: nat) {
    i + |part| <= |text| && text[i..i + |part|] == part
  }

  /** A text contains a part that stands somewhere in it. */
  lemma {:induction false} ContainsMeaning(text: string, part: string)
    ensures Contains(text, part) <==> exists i: nat :: StandsAt(text, part, i)
    decreases |text|
  {
    if part <= text {
      assert StandsAt(text, part, 0);
    } else if |text| > 0 {
      ContainsMeaning(text[1..], part);
      forall i: nat ensures StandsAt(text, part, i + 1) <==> StandsAt(text[1..], part, i) {
        if i + 1 + |part| <= |text| { assert text[1..][i..i + |part|] == text[i + 1..i + 1 + |part|]; }
      }
      assert !StandsAt(text, part, 0);
      if i: nat :| StandsAt(text, part, i) { assert StandsAt(text[1..], part, i - 1); }
      if i: nat :| StandsAt(text[1..], part, i) { assert StandsAt(text, part, i + 1); }
    } else {
      forall i: nat ensures !StandsAt(text, part, i) {}
    }
  }

  predicate AtLeast(low: Option<int>, x: int) { low.Some? ==> low.value <= x }

  predicate AtMost(high: Option<int>, x: int) { high.Some? ==> x <= high.value }

  predicate SelectsData(w: Where, d: Data) {
    && d.Payment?
    && (w.wallet.Some? ==> d.wallet == w.wallet.value)
    && (w.device.Some? ==> d.device == w.device.value)
    && (w.status.Some? ==> d.status == w.status.value)
    && AtLeast(w.minAmount, d.amount) && AtMost(w.maxAmount, d.amount)
    && (w.search.Some? ==> d.search.Some? && Contains(d.search.value, w.search.value))
  }

  /** What the database selects. */
  predicate Selects(w: Where, r: Row) {
    && AtLeast(w.gte, r.time) && AtMost(w.lte, r.time)
    && (w.not.Some? ==> !(r.time == w.not.value.0 && r.id >= w.not.value.1))
    && SelectsData(w, r.data)
  }

  const NIL_WALLET := 0

  predicate WantsData(q: Query, wallets: map<string, int>, normalize: string -> string, d: Data) {
    && d.Payment?
    && (q.walletCode != "" ==> q.walletCode in wallets && d.wallet == wallets[q.walletCode])
    && (q.device.Some? ==> d.device == q.device.value)
    && (q.status.Some? ==> d.status == q.status.value)
    && (q.minAmount.Some? ==> q.minAmount.value <= d.amount)
    && (q.maxAmount.Some? ==> d.amount <= q.maxAmount.value)
    && (q.search != "" ==> d.search.Some? && Contains(d.search.value, normalize(q.search)))
  }

  /** What the query asks for, cursor aside; dates are milliseconds. */
  predicate Wants(q: Query, wallets: map<string, int>, normalize: string -> string, r: Row) {
    && (q.from.Some? ==> q.from.value * 1_000 <= r.time)
    && (q.to.Some? ==> r.time <= q.to.value * 1_000)
    && WantsData(q, wallets, normalize, r.data)
  }

  /** Strictly after the cursor's position in the list: the filter's `OR` form, as the platform tenant list writes it. */
  predicate After(c: Cursor, r: Row) {
    AfterKey(c, r.time, r.id)
  }

  predicate AfterKey(c: Cursor, time: int, id: int) {
    time < c.ms * 1_000 || (time == c.ms * 1_000 && id < c.id)
  }

  /** The `lte` bound with the `NOT`, as the transaction and audit lists write it. */
  predicate BoundForm(c: Cursor, upper: Option<int>, r: Row) {
    && r.time <= (if upper.Some? && upper.value < c.ms * 1_000 then upper.value else c.ms * 1_000)
    && !(r.time == c.ms * 1_000 && r.id >= c.id)
  }

  /** Both forms select the same rows of the range. */
  lemma FormsAgree(c: Cursor, upper: Option<int>, r: Row)
    ensures BoundForm(c, upper, r) <==> AtMost(upper, r.time) && After(c, r)
  {
  }

  function InMicros(ms: Option<int>): Option<int> {
    if ms.Some? then Some(ms.value * 1_000) else None
  }

  function FilterOf(q: Query, wallets: map<string, int>, normalize: string -> string): Where {
    Where(InMicros(q.from), InMicros(q.to),
          if q.walletCode == "" then None else Some(if q.walletCode in wallets then wallets[q.walletCode] else NIL_WALLET),
          q.device, q.status, q.minAmount, q.maxAmount,
          if q.search == "" then None else Some(normalize(q.search)), None)
  }

  function WithCursor(w: Where, c: Cursor): Where {
    var at := c.ms * 1_000;
    w.(lte := Some(if w.lte.Some? && w.lte.value < at then w.lte.value else at), not := Some((at, c.id)))
  }

  /** buildWhere: the filter is assigned field by field, the cursor last, narrowing the upper time bound. */
  method BuildWhere(q: Query, wallets: map<string, int>, normalize: string -> string) returns (w: Result<Where, string>)
    ensures w == match q.cursor
                 case Malformed => Err("VALIDATION_ERROR")
                 case NoCursor => Ok(FilterOf(q, wallets, normalize))
                 case From(c) => Ok(WithCursor(FilterOf(q, wallets, normalize), c))
  {
    var where := Where(None, None, None, None, None, None, None, None, None);
    if q.from.Some? || q.to.Some? {
      where := where.(gte := InMicros(q.from), lte := InMicros(q.to));
    }
    if q.walletCode != "" {
      where := where.(wallet := Some(if q.walletCode in wallets then wallets[q.walletCode] else NIL_WALLET));
    }
    if q.device.Some? { where := where.(device := q.device); }
    if q.status.Some? { where := where.(status := q.status); }
    if q.minAmount.Some? || q.maxAmount.Some? {
      where := where.(minAmount := q.minAmount, maxAmount := q.maxAmount);
    }
    if q.search != "" { where := where.(search := Some(normalize(q.search))); }
    assert where == FilterOf(q, wallets, normalize);
    if q.cursor != NoCursor {
      if q.cursor == Malformed { return Err("VALIDATION_ERROR"); }
      var at, upper := q.cursor.cursor.ms * 1_000, where.lte;
      where := where.(lte := if upper.Some? && upper.value < at then upper else Some(at));
      where := where.(not := Some((at, q.cursor.cursor.id)));
    }
    w := Ok(where);
  }

  lemma DataFilter(q: Query, wallets: map<string, int>, normalize: string -> string, d: Data)
    requires d.Payment? && d.wallet != NIL_WALLET
    ensures SelectsData(FilterOf(q, wallets, normalize), d) <==> WantsData(q, wallets, normalize, d)
  {
  }

  /** The filter selects exactly the rows the query asks for that lie after its cursor. */
  lemma FilterMeaning(q: Query, wallets: map<string, int>, normalize: string -> string, r: Row, c: Cursor)
    requires r.data.Payment? && r.data.wallet != NIL_WALLET
    ensures var w := FilterOf(q, wallets, normalize);
            && (Selects(w, r) <==> Wants(q, wallets, normalize, r))
            && (Selects(WithCursor(w, c), r) <==> Wants(q, wallets, normalize, r) && After(c, r))
  {
    DataFilter(q, wallets, normalize, r.data);
    var w := FilterOf(q, wallets, normalize);
    assert SelectsData(WithCursor(w, c), r.data) == SelectsData(w, r.data);
  }

  // ---- The audit filter ---------------------------------------------------

  datatype AuditQuery = AuditQuery(from: Option<int>, to: Option<int>, action: string, actorUser: Option<int>,
                                   resourceType: string, cursor: CursorParam)

  datatype AuditWhere = AuditWhere(gte: Option<int>, lte: Option<int>, action: Option<string>, actorUser: Option<int>,
                                   resourceType: Option<string>, not: Option<(int, int)>)

  predicate SelectsAudit(w: AuditWhere, r: Row) {
    && AtLeast(w.gte, r.time) && AtMost(w.lte, r.time)
    && r.data.Audit?
    && (w.action.Some? ==> r.data.action == w.action.value)
    && (w.actorUser.Some? ==> r.data.actorUser == w.actorUser)
    && (w.resourceType.Some? ==> r.data.resourceType == w.resourceType)
    && (w.not.Some? ==> !(r.time == w.not.value.0 && r.id >= w.not.value.1))
  }

  /** What the audit query asks for, cursor included. */
  predicate WantsAudit(q: AuditQuery, r: Row) {
    && (q.from.Some? ==> q.from.value * 1_000 <= r.time)
    && (q.to.Some? ==> r.time <= q.to.value * 1_000)
    && r.data.Audit?
    && (q.action != "" ==> r.data.action == q.action)
    && (q.actorUser.Some? ==> r.data.actorUser == q.actorUser)
    && (q.resourceType != "" ==> r.data.resourceType == Some(q.resourceType))
    && (q.cursor.From? ==> After(q.cursor.cursor, r))
  }

  /** The audit log's buildWhere selects exactly the events asked for after the cursor. */
  method BuildAuditWhere(q: AuditQuery) returns (w: Result<AuditWhere, string>)
    ensures w.Err? <==> q.cursor.Malformed?
    ensures w.Ok? ==> forall r: Row :: SelectsAudit(w.value, r) <==> WantsAudit(q, r)
  {
    var where := AuditWhere(None, None, None, None, None, None);
    if q.from.Some? || q.to.Some? {
      where := where.(gte := InMicros(q.from), lte := InMicros(q.to));
    }
    if q.action != "" { where := where.(action := Some(q.action)); }
    if q.actorUser.Some? { where := where.(actorUser := q.actorUser); }
    if q.resourceType != "" { where := where.(resourceType := Some(q.resourceType)); }
    if q.cursor != NoCursor {
      if q.cursor == Malformed { return Err("VALIDATION_ERROR"); }
      var at, upper := q.cursor.cursor.ms * 1_000, where.lte;
      where := where.(lte := if upper.Some? && upper.value < at then upper else Some(at));
      where := where.(not := Some((at, q.cursor.cursor.id)));
    }
    w := Ok(where);
  }

  // ---- One page -----------------------------------------------------------

  ghost predicate AllBelow(rest: Table, r: Row) {
    forall x :: x in rest ==> Below(x, r)
  }

  lemma {:induction false} FindTop(t: Table) returns (top: Row)
    requires t != {} && Keyed(t)
    ensures top in t && AllBelow(t - {top}, top)
    decreases |t|
  {
    HasMember(t);
    var a :| a in t;
    var rest := t - {a};
    top := a;
    if rest != {} {
      var r := FindTop(rest);
      top := if Below(a, r) then r else a;
      TopOfTwo(t, a, r);
    }
  }

  /** The higher of a row and the top of the others is the top of all. */
  lemma TopOfTwo(t: Table, a: Row, r: Row)
    requires Keyed(t) && a in t && r in t - {a} && AllBelow(t - {a} - {r}, r)
    ensures var top := if Below(a, r) then r else a; AllBelow(t - {top}, top)
  {
    assert a.id != r.id;
    var top := if Below(a, r) then r else a;
    forall x | x in t - {top} ensures Below(x, top) {
      if x != a && x != r { assert x in t - {a} - {r}; }
    }
  }

  ghost predicate IsTop(t: Table, r: Row) {
    r in t && AllBelow(t - {r}, r)
  }

  lemma HasTop(t: Table)
    requires t != {} && Keyed(t)
    ensures exists r :: IsTop(t, r)
  {
    var top := FindTop(t);
    assert IsTop(t, top);
  }

  ghost function First(t: Table): (r: Row)
    requires t != {} && Keyed(t)
    ensures r in t && AllBelow(t - {r}, r)
  {
    HasTop(t);
    var r :| IsTop(t, r);
    r
  }

  /** ORDER BY time DESC, id DESC LIMIT n. */
  ghost function Top(t: Table, n: nat): seq<Row>
    requires Keyed(t)
  {
    if n == 0 || t == {} then [] else [First(t)] + Top(t - {First(t)}, n - 1)
  }

  ghost predicate Descending(rows: seq<Row>) {
    forall i, j :: 0 <= i < j < |rows| ==> Below(rows[j], rows[i])
  }

  /** The first n rows: in order, from the table, and everything left out is below all of them. */
  lemma {:induction false} TopMeaning(t: Table, n: nat)
    requires Keyed(t)
    ensures var rows := Top(t, n);
            && Descending(rows)
            && (forall r :: r in rows ==> r in t)
            && (forall i :: 0 <= i < |rows| ==> AllBelow(t - Members(rows), rows[i]))
    decreases n
  {
    if n > 0 && t != {} {
      var r := First(t);
      TopMeaning(t - {r}, n - 1);
      TopStep(t, r, Top(t - {r}, n - 1));
    }
  }

  lemma {:induction false} TopSize(t: Table, n: nat)
    requires Keyed(t)
    ensures |Top(t, n)| == Min(n, |t|)
    decreases n
  {
    if n > 0 && t != {} {
      TopSize(t - {First(t)}, n - 1);
    } else if t == {} {
      assert |t| == 0;
    }
  }

  lemma TopStep(t: Table, r: Row, rest: seq<Row>)
    requires r in t && AllBelow(t - {r}, r)
    requires Descending(rest) && (forall x :: x in rest ==> x in t - {r})
    requires forall i :: 0 <= i < |rest| ==> AllBelow(t - {r} - Members(rest), rest[i])
    ensures var rows := [r] + rest;
            Descending(rows) && forall i :: 0 <= i < |rows| ==> AllBelow(t - Members(rows), rows[i])
  {
    var rows := [r] + rest;
    assert t - Members(rows) == t - {r} - Members(rest);
    forall i | 0 <= i < |rows| ensures AllBelow(t - Members(rows), rows[i]) {
      if i > 0 { assert rows[i] == rest[i - 1]; }
    }
  }

  function Members(rows: seq<Row>): Table {
    set r | r in rows
  }

  datatype Page = Page(rows: seq<Row>, next: Option<Cursor>)

  function EncodeCursor(r: Row): Cursor {
    Cursor(r.time / 1_000, r.id)
  }

  /** list: one row more than the limit is read to know whether there is a next page. */
  ghost function ListPage(selected: Table, limit: nat): Page
    requires Keyed(selected) && limit > 0
  {
    var rows := Top(selected, limit + 1);
    if |rows| > limit then Page(rows[..limit], Some(EncodeCursor(rows[limit - 1]))) else Page(rows, None)
  }

  /** The rows of a table that match and lie after the cursor, if any. */
  ghost function Select(t: Table, match_: Row -> bool, c: Option<Cursor>): Table {
    set r | r in t && match_(r) && (c.Some? ==> After(c.value, r))
  }

  /** The filter built for a query, run on a table, gives the selection its page is cut from. */
  lemma WhereSelects(t: Table, q: Query, wallets: map<string, int>, normalize: string -> string, c: Cursor)
    requires forall r :: r in t ==> r.data.Payment? && r.data.wallet != NIL_WALLET
    ensures var w := FilterOf(q, wallets, normalize);
            && (set r | r in t && Selects(w, r)) == Select(t, r => Wants(q, wallets, normalize, r), None)
            && (set r | r in t && Selects(WithCursor(w, c), r)) == Select(t, r => Wants(q, wallets, normalize, r), Some(c))
  {
    forall r | r in t ensures Selects(FilterOf(q, wallets, normalize), r) <==> Wants(q, wallets, normalize, r) {
      FilterMeaning(q, wallets, normalize, r, c);
    }
    forall r | r in t
      ensures Selects(WithCursor(FilterOf(q, wallets, normalize), c), r) <==> Wants(q, wallets, normalize, r) && After(c, r)
    {
      FilterMeaning(q, wallets, normalize, r, c);
    }
  }

  /** A page is the top of the selection; without a next cursor it is all of it, with one the rest lies below its last row. */
  lemma PageMeaning(selected: Table, limit: nat)
    requires Keyed(selected) && limit > 0
    ensures var p := ListPage(selected, limit);
            && Descending(p.rows)
            && Members(p.rows) <= selected
            && |p.rows| == Min(limit, |selected|)
            && (p.next.Some? <==> |selected| > limit)
            && (p.next.None? ==> Members(p.rows) == selected)
            && (p.next.Some? ==>
                  p.next == Some(EncodeCursor(p.rows[limit - 1])) && AllBelow(selected - Members(p.rows), p.rows[limit - 1]))
  {
    TopMeaning(selected, limit + 1);
    TopSize(selected, limit + 1);
    var rows := Top(selected, limit + 1);
    DistinctSize(rows);
    if |rows| > limit {
      LastOfPage(selected, rows, limit);
    } else {
      SubsetSize(Members(rows), selected);
    }
  }

  lemma LastOfPage(selected: Table, rows: seq<Row>, limit: nat)
    requires Descending(rows) && 0 < limit < |rows|
    requires forall i :: 0 <= i < |rows| ==> AllBelow(selected - Members(rows), rows[i])
    ensures AllBelow(selected - Members(rows[..limit]), rows[limit - 1])
  {
    forall r | r in selected - Members(rows[..limit]) ensures Below(r, rows[limit - 1]) {
      if r in rows {
        assert rows == rows[..limit] + rows[limit..];
        var i :| 0 <= i < |rows| - limit && rows[limit..][i] == r;
        assert rows[limit + i] == r;
      }
    }
  }

  lemma {:induction false} DistinctSize(rows: seq<Row>)
    requires Descending(rows)
    ensures |Members(rows)| == |rows|
    decreases |rows|
  {
    if |rows| > 0 {
      var rest := rows[1..];
      DistinctSize(rest);
      assert rows == [rows[0]] + rest;
      forall i | 0 <= i < |rest| ensures rest[i] != rows[0] { assert Below(rows[i + 1], rows[0]); }
      OneMore(Members(rest), Members(rows), rows[0]);
    } else {
      SameMembers({}, Members(rows));
    }
  }

  lemma SubsetSize(a: Table, b: Table)
    requires a <= b && |a| >= |b|
    ensures a == b
  {
    assert b == a + (b - a);
  }

  // ---- The cursor ---------------------------------------------------------

  /** The next page never goes back above the last row, whatever its time. */
  lemma CursorIsStrict(last: Row, r: Row)
    ensures After(EncodeCursor(last), r) ==> Below(r, last)
  {
  }

  /** It continues exactly below the last row if and only if that row's time is a whole millisecond. */
  lemma CursorExactIffMillis(last: Row)
    ensures (forall r: Row :: After(EncodeCursor(last), r) <==> Below(r, last)) <==> last.time % 1_000 == 0
  {
    if last.time % 1_000 != 0 {
      var lost := last.(id := last.id - 1);
      assert Below(lost, last) && !After(EncodeCursor(last), lost);
    }
  }

  // ---- Walks over a changing table ----------------------------------------

  ghost predicate AllKeyed(tables: seq<Table>) {
    forall i :: 0 <= i < |tables| ==> Keyed(tables[i])
  }

  /** One call per table: the k-th call finds the table as tables[k]. It stops at the first page without a cursor. */
  ghost function Walk(tables: seq<Table>, match_: Row -> bool, limit: nat, c: Option<Cursor>): seq<Page>
    requires AllKeyed(tables) && limit > 0
    decreases |tables|
  {
    if |tables| == 0 then []
    else
      var p := ListPage(Select(tables[0], match_, c), limit);
      if p.next.None? then [p] else [p] + Walk(tables[1..], match_, limit, p.next)
  }

  function Rows(pages: seq<Page>): seq<Row>
    decreases |pages|
  {
    if |pages| == 0 then [] else pages[0].rows + Rows(pages[1..])
  }

  predicate Finished(pages: seq<Page>) {
    |pages| > 0 && pages[|pages| - 1].next.None?
  }

  lemma RowsOfMore(p: Page, rest: seq<Page>)
    ensures Rows([p] + rest) == p.rows + Rows(rest)
  {
    assert ([p] + rest)[1..] == rest;
  }

  /** Everything a walk returns matches and lies after its cursor. */
  lemma {:induction false} WalkSelects(tables: seq<Table>, match_: Row -> bool, limit: nat, c: Option<Cursor>)
    requires AllKeyed(tables) && limit > 0
    ensures forall r :: r in Rows(Walk(tables, match_, limit, c)) ==> match_(r) && (c.Some? ==> After(c.value, r))
    decreases |tables|
  {
    if |tables| > 0 {
      var selected := Select(tables[0], match_, c);
      var p := ListPage(selected, limit);
      PageMeaning(selected, limit);
      if p.next.Some? {
        var rest := Walk(tables[1..], match_, limit, p.next);
        WalkSelects(tables[1..], match_, limit, p.next);
        RowsOfMore(p, rest);
        forall r | r in Rows(rest) ensures c.Some? ==> After(c.value, r) {
          var last := p.rows[limit - 1];
          assert last in Members(p.rows);
          CursorIsStrict(last, r);
        }
        assert forall r :: r in p.rows ==> r in Members(p.rows);
      } else {
        assert Rows([p]) == p.rows + Rows([]);
        assert forall r :: r in p.rows ==> r in Members(p.rows);
      }
    }
  }

  lemma JoinDescending(a: seq<Row>, b: seq<Row>)
    requires Descending(a) && Descending(b) && (|a| > 0 ==> forall r :: r in b ==> Below(r, a[|a| - 1]))
    ensures Descending(a + b)
  {
    var rows := a + b;
    forall i, j | 0 <= i < j < |rows| ensures Below(rows[j], rows[i]) {
      if i < |a| <= j {
        assert rows[j] in b && Below(rows[j], a[|a| - 1]);
        assert i == |a| - 1 || Below(a[|a| - 1], a[i]);
      }
    }
  }

  /**
   * However the table changes between the calls, the rows returned are in strictly
   * descending order over the whole walk, so no row is returned twice.
   */
  lemma {:induction false} NoRowTwice(tables: seq<Table>, match_: Row -> bool, limit: nat, c: Option<Cursor>)
    requires AllKeyed(tables) && limit > 0
    ensures Descending(Rows(Walk(tables, match_, limit, c)))
    decreases |tables|
  {
    if |tables| > 0 {
      var selected := Select(tables[0], match_, c);
      var p := ListPage(selected, limit);
      PageMeaning(selected, limit);
      if p.next.Some? {
        var rest := Walk(tables[1..], match_, limit, p.next);
        NoRowTwice(tables[1..], match_, limit, p.next);
        WalkSelects(tables[1..], match_, limit, p.next);
        forall r | r in Rows(rest) ensures Below(r, p.rows[limit - 1]) { CursorIsStrict(p.rows[limit - 1], r); }
        JoinDescending(p.rows, Rows(rest));
        RowsOfMore(p, rest);
      } else {
        assert Rows([p]) == p.rows + Rows([]);
      }
    }
  }

  predicate Millis(t: Table) {
    forall r :: r in t ==> r.time % 1_000 == 0
  }

  /** The table holds the row of this time and id, and it matches; its other columns are free. */
  ghost predicate Shows(t: Table, match_: Row -> bool, time: int, id: int) {
    exists r :: r in t && r.time == time && r.id == id && match_(r)
  }

  ghost predicate Lists(rows: seq<Row>, time: int, id: int) {
    exists r :: r in rows && r.time == time && r.id == id
  }

  /**
   * When times are whole milliseconds, a finished walk (one table per call) returns
   * every row that was there and matched at each of its calls, even if its other
   * columns changed, whatever was inserted or deleted in between.
   */
  lemma {:induction false} NoRowMissed(tables: seq<Table>, match_: Row -> bool, limit: nat, c: Option<Cursor>, time: int, id: int)
    requires AllKeyed(tables) && limit > 0 && (forall i :: 0 <= i < |tables| ==> Millis(tables[i]))
    requires Finished(Walk(tables, match_, limit, c)) && |Walk(tables, match_, limit, c)| == |tables|
    requires forall i :: 0 <= i < |tables| ==> Shows(tables[i], match_, time, id)
    requires c.Some? ==> AfterKey(c.value, time, id)
    ensures Lists(Rows(Walk(tables, match_, limit, c)), time, id)
    decreases |tables|
  {
    var pages := Walk(tables, match_, limit, c);
    var selected := Select(tables[0], match_, c);
    var p := ListPage(selected, limit);
    PageMeaning(selected, limit);
    assert Shows(tables[0], match_, time, id);
    var r :| r in tables[0] && r.time == time && r.id == id && match_(r);
    assert r in selected;
    if r in Members(p.rows) {
      assert r in p.rows && p.rows <= Rows(pages);
    } else {
      var last := p.rows[limit - 1];
      assert last in Members(p.rows) && r in selected - Members(p.rows);
      CursorExactIffMillis(last);
      var rest := Walk(tables[1..], match_, limit, p.next);
      assert pages == [p] + rest && pages[1..] == rest;
      assert rest[|rest| - 1] == pages[|pages| - 1];
      NoRowMissed(tables[1..], match_, limit, p.next, time, id);
    }
  }

  // ---- A quiet table ------------------------------------------------------

  function Calls(n: nat, limit: nat): nat
    requires limit > 0
  {
    if n <= limit then 1 else 1 + Calls(n - limit, limit)
  }

  /** max(1, ceil(n / limit)): the fewest pages, at least one, that hold n rows. */
  lemma {:induction false} CallsIsCeiling(n: nat, limit: nat)
    requires limit > 0
    ensures var k := Calls(n, limit); k >= 1 && n <= k * limit && (k > 1 ==> (k - 1) * limit < n)
    decreases n
  {
    if n > limit {
      CallsIsCeiling(n - limit, limit);
      var k := Calls(n - limit, limit);
      assert (k + 1) * limit == k * limit + limit;
      assert k > 1 ==> k * limit == (k - 1) * limit + limit;
    }
  }

  lemma LastIsLowest(rows: seq<Row>, r: Row)
    requires Descending(rows) && r in Members(rows)
    ensures r == rows[|rows| - 1] || Below(rows[|rows| - 1], r)
  {
    var i :| 0 <= i < |rows| && rows[i] == r;
    assert i == |rows| - 1 || Below(rows[|rows| - 1], rows[i]);
  }

  lemma SelectNext(t: Table, match_: Row -> bool, c: Option<Cursor>, limit: nat)
    requires Keyed(t) && Millis(t) && limit > 0
    requires ListPage(Select(t, match_, c), limit).next.Some?
    ensures var selected := Select(t, match_, c);
            var p := ListPage(selected, limit);
            && Select(t, match_, p.next) == selected - Members(p.rows)
            && |selected - Members(p.rows)| == |selected| - limit
  {
    var selected := Select(t, match_, c);
    var p := ListPage(selected, limit);
    PageMeaning(selected, limit);
    var last := p.rows[limit - 1];
    assert last in Members(p.rows);
    CursorExactIffMillis(last);
    DistinctSize(p.rows);
    forall r ensures r in Select(t, match_, p.next) <==> r in selected - Members(p.rows) {
      if r in Members(p.rows) { LastIsLowest(p.rows, r); }
    }
    SameMembers(selected - Members(p.rows), Select(t, match_, p.next));
  }

  /** A finished walk that took exactly the calls needed and returned exactly the selection. */
  ghost predicate WalkedAll(pages: seq<Page>, selected: Table, limit: nat)
    requires limit > 0
  {
    Finished(pages) && |pages| == Calls(|selected|, limit) && Members(Rows(pages)) == selected
  }

  /** On a table that does not change, n matching rows take Calls(n, limit) calls, and exactly those rows come back. */
  lemma {:induction false} QuietWalk(t: Table, match_: Row -> bool, limit: nat, c: Option<Cursor>, tables: seq<Table>)
    requires Keyed(t) && Millis(t) && limit > 0
    requires forall i :: 0 <= i < |tables| ==> tables[i] == t
    requires |tables| >= Calls(|Select(t, match_, c)|, limit)
    ensures WalkedAll(Walk(tables, match_, limit, c), Select(t, match_, c), limit)
    decreases |tables|
  {
    assert tables[0] == t;
    if |Select(t, match_, c)| <= limit {
      QuietLast(tables, match_, limit, c);
    } else {
      QuietSplit(t, match_, limit, c);
      var next := ListPage(Select(t, match_, c), limit).next;
      QuietWalk(t, match_, limit, next, tables[1..]);
      QuietMore(tables, match_, limit, c);
    }
  }

  lemma QuietLast(tables: seq<Table>, match_: Row -> bool, limit: nat, c: Option<Cursor>)
    requires AllKeyed(tables) && |tables| > 0 && limit > 0 && |Select(tables[0], match_, c)| <= limit
    ensures WalkedAll(Walk(tables, match_, limit, c), Select(tables[0], match_, c), limit)
  {
    var selected := Select(tables[0], match_, c);
    PageMeaning(selected, limit);
    var p := ListPage(selected, limit);
    assert Rows([p]) == p.rows + Rows([]) == p.rows;
  }

  lemma QuietSplit(t: Table, match_: Row -> bool, limit: nat, c: Option<Cursor>)
    requires Keyed(t) && Millis(t) && limit > 0 && |Select(t, match_, c)| > limit
    ensures var selected := Select(t, match_, c);
            var p := ListPage(selected, limit);
            && p.next.Some?
            && selected == Members(p.rows) + Select(t, match_, p.next)
            && |Select(t, match_, p.next)| == |selected| - limit
            && Calls(|selected|, limit) == 1 + Calls(|Select(t, match_, p.next)|, limit)
  {
    PageMeaning(Select(t, match_, c), limit);
    SelectNext(t, match_, c, limit);
  }

  lemma QuietMore(tables: seq<Table>, match_: Row -> bool, limit: nat, c: Option<Cursor>)
    requires AllKeyed(tables) && |tables| > 0 && Millis(tables[0]) && limit > 0
    requires |Select(tables[0], match_, c)| > limit
    requires var next := ListPage(Select(tables[0], match_, c), limit).next;
             WalkedAll(Walk(tables[1..], match_, limit, next), Select(tables[0], match_, next), limit)
    ensures WalkedAll(Walk(tables, match_, limit, c), Select(tables[0], match_, c), limit)
  {
    QuietSplit(tables[0], match_, limit, c);
    var p := ListPage(Select(tables[0], match_, c), limit);
    OnePageMore(p, Walk(tables[1..], match_, limit, p.next));
  }

  lemma OnePageMore(p: Page, rest: seq<Page>)
    requires Finished(rest)
    ensures Finished([p] + rest) && Members(Rows([p] + rest)) == Members(p.rows) + Members(Rows(rest))
  {
    assert ([p] + rest)[1..] == rest;
  }

  // ---- Where a cursor loses a row -----------------------------------------

  lemma FirstOfTwo(a: Row, b: Row)
    requires a.id != b.id && Below(b, a)
    ensures ListPage({a, b}, 1) == Page([a], Some(EncodeCursor(a)))
  {
    var t := {a, b};
    var p := ListPage(t, 1);
    assert |t| == 2;
    PageMeaning(t, 1);
    var r := p.rows[0];
    assert r in Members(p.rows);
    assert p.rows == [r];
    assert a == r || a in t - Members(p.rows);
  }

  /** Two rows within one millisecond, a page of one: the walk ends without ever returning the lower row. */
  lemma SubMillisecondRowIsLost(a: Row, b: Row, match_: Row -> bool)
    requires a.id != b.id && a.time / 1_000 == b.time / 1_000 && b.time % 1_000 > 0 && Below(b, a)
    requires match_(a) && match_(b)
    ensures var t := {a, b};
            var pages := Walk([t, t], match_, 1, None);
            Finished(pages) && Rows(pages) == [a]
  {
    var t := {a, b};
    var selected := Select(t, match_, None);
    var p := ListPage(selected, 1);
    assert selected == t;
    FirstOfTwo(a, b);
    assert [t, t][1..] == [t];
    var second := Select(t, match_, p.next);
    assert second == {};
    PageMeaning(second, 1);
    var q := ListPage(second, 1);
    assert Walk([t], match_, 1, p.next) == [q];
    assert Rows([q]) == q.rows + Rows([]);
    assert ([p] + [q])[1..] == [q];
  }
}
