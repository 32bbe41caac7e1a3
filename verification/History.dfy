/** Appending analysis records to the deduplicated CI history. */
module History {
  import opened Basics
  import opened TextOrder

  /** A report: the interpreted fields, the collection directory and everything else. */
  datatype Row = Row(
    workflow: string,
    runId: int,
    attempt: int,
    cohort: string,
    event: string,
    branch: string,
    createdAt: string,
    source: Option<string>,
    rest: map<string, string>)

  datatype Key = Key(workflow: string, runId: int, attempt: int, cohort: string)

  datatype Analysis = Analysis(cohort: string, records: seq<Row>)

  datatype Error = NotBaseline | NotExperiment | NotMainPush | Conflict

  function KeyOf(r: Row): Key {
    Key(r.workflow, r.runId, r.attempt, r.cohort)
  }

  /** Everything but the collection directory. */
  function Evidence(r: Row): Row {
    r.(source := None)
  }

  // ----- order ---------------------------------------------------------------------------------

  function NatText(n: nat): string {
    if n < 10 then [('0' as int + n) as char] else NatText(n / 10) + [('0' as int + n % 10) as char]
  }

  /** `str(n)`. */
  function IntText(n: int): string {
    if n < 0 then "-" + NatText(-n) else NatText(n)
  }

  lemma {:induction false} NatTextInjective(a: nat, b: nat)
    requires NatText(a) == NatText(b)
    ensures a == b
    decreases a
  {
    var s := NatText(a);
    if a >= 10 && b >= 10 {
      assert s[..|s| - 1] == NatText(a / 10) && s[..|s| - 1] == NatText(b / 10);
      NatTextInjective(a / 10, b / 10);
      assert s[|s| - 1] == ('0' as int + a % 10) as char == ('0' as int + b % 10) as char;
    } else {
      NatTextLength(a);
      NatTextLength(b);
      assert s[|s| - 1] == ('0' as int + a % 10) as char == ('0' as int + b % 10) as char;
    }
  }

  lemma {:induction false} NatTextLength(n: nat)
    ensures |NatText(n)| >= 1 && (n >= 10 ==> |NatText(n)| >= 2)
  {
  }

  lemma {:induction false} NatTextDigits(n: nat)
    ensures NatText(n)[0] != '-'
    decreases n
  {
    if n >= 10 {
      NatTextDigits(n / 10);
      assert NatText(n)[0] == NatText(n / 10)[0];
    }
  }

  lemma {:induction false} IntTextInjective(a: int, b: int)
    requires IntText(a) == IntText(b)
    ensures a == b
  {
    if a < 0 && b < 0 {
      assert IntText(a)[1..] == NatText(-a) && IntText(b)[1..] == NatText(-b);
      NatTextInjective(-a, -b);
    } else if a >= 0 && b >= 0 {
      NatTextInjective(a, b);
    } else {
      NatTextDigits(if a < 0 then b else a);
    }
  }

  /** Numbers are compared as text. */
  function OrderOf(r: Row): seq<string> {
    [r.createdAt, r.workflow, IntText(r.runId), IntText(r.attempt)]
  }

  predicate TupleLe(a: seq<string>, b: seq<string>) {
    a == [] || (b != [] && if a[0] != b[0] then StrLe(a[0], b[0]) else TupleLe(a[1..], b[1..]))
  }

  predicate OrderLe(a: Row, b: Row) {
    TupleLe(OrderOf(a), OrderOf(b))
  }

  lemma {:induction false} TupleLeReflexive(s: seq<string>)
    ensures TupleLe(s, s)
  {
    if s != [] { TupleLeReflexive(s[1..]); }
  }

  lemma {:induction false} TupleLeTotal(a: seq<string>, b: seq<string>)
    requires |a| == |b|
    ensures TupleLe(a, b) || TupleLe(b, a)
  {
    if a != [] {
      StrLeTotal(a[0], b[0]);
      TupleLeTotal(a[1..], b[1..]);
    }
  }

  lemma {:induction false} TupleLeTransitive(a: seq<string>, b: seq<string>, c: seq<string>)
    requires |a| == |b| == |c| && TupleLe(a, b) && TupleLe(b, c)
    ensures TupleLe(a, c)
  {
    if a != [] {
      if a[0] != b[0] && b[0] != c[0] {
        StrLeTransitive(a[0], b[0], c[0]);
        if a[0] == c[0] { StrLeAntisymmetric(a[0], b[0]); }
      } else if a[0] == b[0] == c[0] {
        TupleLeTransitive(a[1..], b[1..], c[1..]);
      }
    }
  }

  lemma {:induction false} TupleLeAntisymmetric(a: seq<string>, b: seq<string>)
    requires |a| == |b| && TupleLe(a, b) && TupleLe(b, a)
    ensures a == b
  {
    if a != [] {
      if a[0] != b[0] {
        StrLeAntisymmetric(a[0], b[0]);
      } else {
        TupleLeAntisymmetric(a[1..], b[1..]);
        HeadTail(a);
        HeadTail(b);
      }
    }
  }

  /** Within one cohort the order tells keys apart. */
  lemma {:induction false} OrderTellsKeysApart(a: Row, b: Row)
    requires a.cohort == b.cohort && OrderLe(a, b) && OrderLe(b, a)
    ensures KeyOf(a) == KeyOf(b)
  {
    TupleLeAntisymmetric(OrderOf(a), OrderOf(b));
    assert OrderOf(a)[1] == OrderOf(b)[1] && OrderOf(a)[2] == OrderOf(b)[2] && OrderOf(a)[3] == OrderOf(b)[3];
    IntTextInjective(a.runId, b.runId);
    IntTextInjective(a.attempt, b.attempt);
  }

  /** Rows are ordered by creation time, upward; then by workflow; then by run id and attempt, both
      compared as text. */
  lemma {:induction false} OrderMeans(a: Row, b: Row)
    ensures OrderLe(a, b) <==>
              if a.createdAt != b.createdAt then StrLe(a.createdAt, b.createdAt)
              else if a.workflow != b.workflow then StrLe(a.workflow, b.workflow)
              else if a.runId != b.runId then StrLe(IntText(a.runId), IntText(b.runId))
              else a.attempt == b.attempt || StrLe(IntText(a.attempt), IntText(b.attempt))
  {
    if IntText(a.runId) == IntText(b.runId) { IntTextInjective(a.runId, b.runId); }
    if IntText(a.attempt) == IntText(b.attempt) { IntTextInjective(a.attempt, b.attempt); }
    var s, t := OrderOf(a), OrderOf(b);
    assert s[1..][1..][1..][1..] == [] && t[1..][1..][1..][1..] == [];
    assert TupleLe(s, t) == if s[0] != t[0] then StrLe(s[0], t[0]) else TupleLe(s[1..], t[1..]);
    assert TupleLe(s[1..], t[1..]) == if s[1] != t[1] then StrLe(s[1], t[1]) else TupleLe(s[1..][1..], t[1..][1..]);
    assert TupleLe(s[1..][1..], t[1..][1..]) ==
           if s[2] != t[2] then StrLe(s[2], t[2]) else TupleLe(s[1..][1..][1..], t[1..][1..][1..]);
    assert TupleLe(s[1..][1..][1..], t[1..][1..][1..]) == if s[3] != t[3] then StrLe(s[3], t[3]) else true;
  }

  /** The number a text of digits stands for. */
  function TextValue(s: string): int {
    if s == "" then 0 else 10 * TextValue(s[..|s| - 1]) + (s[|s| - 1] as int - '0' as int)
  }

  /** Numbers are written in decimal digits, without leading zeros, after a minus if negative. */
  lemma {:induction false} DecimalText(n: nat)
    ensures TextValue(NatText(n)) == n && (forall c :: c in NatText(n) ==> '0' <= c <= '9')
    ensures NatText(n)[0] == '0' ==> n == 0
    ensures IntText(n) == NatText(n) && (n > 0 ==> IntText(0 - n) == "-" + NatText(n))
    decreases n
  {
    if n >= 10 {
      DecimalText(n / 10);
      assert NatText(n)[..|NatText(n)| - 1] == NatText(n / 10);
    } else {
      assert NatText(n)[..0] == "";
    }
  }

  // ----- the stable sort ------------------------------------------------------------------------

  function InsertRow(r: Row, sorted: seq<Row>): seq<Row> {
    if sorted == [] || OrderLe(r, sorted[0]) then [r] + sorted else [sorted[0]] + InsertRow(r, sorted[1..])
  }

  function SortRows(rows: seq<Row>): seq<Row> {
    if rows == [] then [] else InsertRow(rows[0], SortRows(rows[1..]))
  }

  predicate Sorted(rows: seq<Row>) {
    |rows| <= 1 || (OrderLe(rows[0], rows[1]) && Sorted(rows[1..]))
  }

  lemma {:induction false} InsertSorted(r: Row, sorted: seq<Row>)
    requires Sorted(sorted)
    ensures Sorted(InsertRow(r, sorted))
    ensures multiset(InsertRow(r, sorted)) == multiset{r} + multiset(sorted)
  {
    if sorted != [] {
      HeadTail(sorted);
      if !OrderLe(r, sorted[0]) {
        TupleLeTotal(OrderOf(r), OrderOf(sorted[0]));
        InsertSorted(r, sorted[1..]);
        var tail := InsertRow(r, sorted[1..]);
        assert InsertRow(r, sorted)[1..] == tail;
      } else {
        assert InsertRow(r, sorted)[1..] == sorted;
      }
    }
  }

  /** The rows with order `o`, as they stand. */
  function Ties(rows: seq<Row>, o: seq<string>): seq<Row> {
    if rows == [] then [] else (if OrderOf(rows[0]) == o then [rows[0]] else []) + Ties(rows[1..], o)
  }

  lemma {:induction false} InsertKeepsTies(r: Row, sorted: seq<Row>, o: seq<string>)
    ensures Ties(InsertRow(r, sorted), o) == (if OrderOf(r) == o then [r] else []) + Ties(sorted, o)
  {
    var result := InsertRow(r, sorted);
    if sorted == [] || OrderLe(r, sorted[0]) {
      assert result[1..] == sorted;
    } else {
      assert result[1..] == InsertRow(r, sorted[1..]);
      InsertKeepsTies(r, sorted[1..], o);
      if OrderOf(r) == OrderOf(sorted[0]) { TupleLeReflexive(OrderOf(r)); }
    }
  }

  /** An ordered permutation in which rows with equal order keep their relative positions. */
  lemma {:induction false} SortCorrect(rows: seq<Row>)
    ensures Sorted(SortRows(rows)) && multiset(SortRows(rows)) == multiset(rows)
    ensures forall o :: Ties(SortRows(rows), o) == Ties(rows, o)
  {
    if rows != [] {
      HeadTail(rows);
      SortCorrect(rows[1..]);
      InsertSorted(rows[0], SortRows(rows[1..]));
      forall o ensures Ties(SortRows(rows), o) == Ties(rows, o) {
        InsertKeepsTies(rows[0], SortRows(rows[1..]), o);
      }
    }
  }

  lemma {:induction false} SortedIsFixed(rows: seq<Row>)
    requires Sorted(rows)
    ensures SortRows(rows) == rows
  {
    if rows != [] {
      SortedIsFixed(rows[1..]);
      HeadTail(rows);
    }
  }

  // ----- the dictionary by key, in insertion order --------------------------------------------------

  datatype Table = Table(keys: seq<Key>, rows: map<Key, Row>)

  ghost predicate TableOk(t: Table) {
    && NoDup(t.keys)
    && (forall k :: k in t.keys <==> k in t.rows)
    && (forall k :: k in t.rows ==> KeyOf(t.rows[k]) == k)
  }

  function Put(t: Table, r: Row): Table {
    Table(if KeyOf(r) in t.rows then t.keys else t.keys + [KeyOf(r)], t.rows[KeyOf(r) := r])
  }

  /** `{row.key: row for row in rows}`. */
  function FromRows(rows: seq<Row>): Table {
    if rows == [] then Table([], map[]) else Put(FromRows(rows[..|rows| - 1]), rows[|rows| - 1])
  }

  ghost predicate HasKey(rows: seq<Row>, k: Key) {
    exists r :: r in rows && KeyOf(r) == k
  }

  lemma {:induction false} HasKeyLast(rows: seq<Row>, k: Key)
    requires rows != []
    ensures HasKey(rows, k) <==> HasKey(rows[..|rows| - 1], k) || k == KeyOf(rows[|rows| - 1])
  {
    var init, last := rows[..|rows| - 1], rows[|rows| - 1];
    assert rows == init + [last];
    if HasKey(init, k) {
      var r :| r in init && KeyOf(r) == k;
      assert r in rows;
    }
    assert last in rows;
  }

  lemma {:induction false} FromRowsOk(rows: seq<Row>)
    ensures TableOk(FromRows(rows))
    ensures forall k :: k in FromRows(rows).rows <==> HasKey(rows, k)
    ensures forall k :: k in FromRows(rows).rows ==> FromRows(rows).rows[k] in rows
  {
    if rows != [] {
      var init, last := rows[..|rows| - 1], rows[|rows| - 1];
      FromRowsOk(init);
      assert rows == init + [last];
      forall k ensures k in FromRows(rows).rows <==> HasKey(rows, k) {
        HasKeyLast(rows, k);
      }
    }
  }

  function Values(t: Table): seq<Row>
    requires TableOk(t)
  {
    seq(|t.keys|, i requires 0 <= i < |t.keys| => t.rows[t.keys[i]])
  }

  /** Rows with pairwise different keys. */
  ghost predicate UniqueKeys(rows: seq<Row>) {
    forall i, j :: 0 <= i < j < |rows| ==> KeyOf(rows[i]) != KeyOf(rows[j])
  }

  lemma {:induction false} PutNew(t: Table, r: Row)
    requires TableOk(t) && KeyOf(r) !in t.rows
    ensures TableOk(Put(t, r)) && Values(Put(t, r)) == Values(t) + [r]
  {
    assert forall k :: k in t.keys ==> k != KeyOf(r);
  }

  /** A list with unique keys goes through the dictionary unchanged. */
  lemma {:induction false} UniqueRowsSurvive(rows: seq<Row>)
    requires UniqueKeys(rows)
    ensures TableOk(FromRows(rows)) && Values(FromRows(rows)) == rows
  {
    if rows != [] {
      var init, last := rows[..|rows| - 1], rows[|rows| - 1];
      LastIsNew(rows);
      UniqueRowsSurvive(init);
      PutNew(FromRows(init), last);
      assert rows == init + [last];
    }
  }

  lemma {:induction false} LastIsNew(rows: seq<Row>)
    requires UniqueKeys(rows) && rows != []
    ensures UniqueKeys(rows[..|rows| - 1]) && KeyOf(rows[|rows| - 1]) !in FromRows(rows[..|rows| - 1]).rows
  {
    FromRowsOk(rows[..|rows| - 1]);
    assert !HasKey(rows[..|rows| - 1], KeyOf(rows[|rows| - 1]));
  }

  lemma {:induction false} ValuesUnique(t: Table)
    requires TableOk(t)
    ensures UniqueKeys(Values(t))
    ensures forall r :: r in Values(t) <==> KeyOf(r) in t.rows && t.rows[KeyOf(r)] == r
  {
    forall r | KeyOf(r) in t.rows && t.rows[KeyOf(r)] == r ensures r in Values(t) {
      var i :| 0 <= i < |t.keys| && t.keys[i] == KeyOf(r);
      assert Values(t)[i] == r;
    }
  }

  // ----- append -----------------------------------------------------------------------------------

  /** One analysis record: refused, already known with the same evidence, or added. */
  function AddRecord(t: Table, r: Row, cohort: string): Result<Table, Error> {
    if cohort == "main" && (r.event != "push" || r.branch != "main") then Err(NotMainPush)
    else
      var selected := r.(cohort := cohort);
      if KeyOf(selected) in t.rows then
        if Evidence(t.rows[KeyOf(selected)]) != Evidence(selected) then Err(Conflict) else Ok(t)
      else Ok(Put(t, selected))
  }

  function Merge(t: Table, records: seq<Row>, cohort: string): Result<Table, Error>
    decreases |records|
  {
    if records == [] then Ok(t)
    else match AddRecord(t, records[0], cohort)
      case Err(e) => Err(e)
      case Ok(next) => Merge(next, records[1..], cohort)
  }

  function CohortError(a: Analysis, cohort: string): Option<Error> {
    if cohort == "main" && a.cohort != "baseline" then Some(NotBaseline)
    else if cohort == "experiment" && a.cohort != "experiment" then Some(NotExperiment)
    else None
  }

  /** The rows of the file after appending, or why nothing is written. */
  function Appended(rows: seq<Row>, a: Analysis, cohort: string): Result<seq<Row>, Error> {
    if CohortError(a, cohort).Some? then Err(CohortError(a, cohort).value)
    else
      FromRowsOk(rows);
      match Merge(FromRows(rows), a.records, cohort)
      case Err(e) => Err(e)
      case Ok(t) => MergeOk(FromRows(rows), a.records, cohort); Ok(SortRows(Values(t)))
  }

  lemma {:induction false} MergeOk(t: Table, records: seq<Row>, cohort: string)
    requires TableOk(t) && Merge(t, records, cohort).Ok?
    ensures var u := Merge(t, records, cohort).value;
            && TableOk(u)
            && (forall k :: k in t.rows ==> k in u.rows && u.rows[k] == t.rows[k])
    decreases |records|
  {
    if records != [] {
      MergeOk(AddRecord(t, records[0], cohort).value, records[1..], cohort);
    }
  }

  lemma {:induction false} MergeStep(t: Table, records: seq<Row>, i: nat, cohort: string)
    requires TableOk(t) && i < |records|
    ensures Merge(t, records[i..], cohort) ==
            (match AddRecord(t, records[i], cohort)
             case Err(e) => Err(e)
             case Ok(next) => Merge(next, records[i + 1..], cohort))
    ensures AddRecord(t, records[i], cohort).Ok? ==> TableOk(AddRecord(t, records[i], cohort).value)
  {
    assert records[i..][0] == records[i] && records[i..][1..] == records[i + 1..];
  }

  class HistoryFile {
    var rows: Option<seq<Row>>

    constructor (rows: Option<seq<Row>>)
      ensures this.rows == rows
    {
      this.rows := rows;
    }

    ghost function Lines(): seq<Row>
      reads this
    {
      if rows.Some? then rows.value else []
    }

    /** Replaces the file only when every record is accepted. */
    method Append(a: Analysis, cohort: string) returns (r: Result<nat, Error>)
      modifies this
      ensures match Appended(old(Lines()), a, cohort)
              case Err(e) => r == Err(e) && rows == old(rows)
              case Ok(merged) => r == Ok(|merged|) && rows == Some(merged)
    {
      if cohort == "main" && a.cohort != "baseline" {
        return Err(NotBaseline);
      }
      if cohort == "experiment" && a.cohort != "experiment" {
        return Err(NotExperiment);
      }
      var existing := if rows.Some? then rows.value else [];
      var byKey := FromRows(existing);
      ghost var merged := Merge(byKey, a.records, cohort);
      FromRowsOk(existing);
      var i := 0;
      while i < |a.records|
        invariant 0 <= i <= |a.records|
        invariant TableOk(byKey) && merged == Merge(byKey, a.records[i..], cohort) && rows == old(rows)
      {
        var record := a.records[i];
        MergeStep(byKey, a.records, i, cohort);
        ghost var step := AddRecord(byKey, record, cohort);
        if cohort == "main" && (record.event != "push" || record.branch != "main") {
          return Err(NotMainPush);
        }
        var selected := record.(cohort := cohort);
        i := i + 1;
        if KeyOf(selected) in byKey.rows {
          var stored := byKey.rows[KeyOf(selected)];
          if Evidence(stored) != Evidence(selected) {
            assert step == Err(Conflict) && merged == Err(Conflict);
            return Err(Conflict);
          }
          continue;
        }
        byKey := Put(byKey, selected);
      }
      var ordered := SortRows(Values(byKey));
      rows := Some(ordered);
      r := Ok(|ordered|);
    }
  }

  // ----- what append promises ------------------------------------------------------------------------

  lemma {:induction false} SortedUnique(t: Table)
    requires TableOk(t)
    ensures Sorted(SortRows(Values(t))) && UniqueKeys(SortRows(Values(t)))
    ensures forall r :: r in SortRows(Values(t)) <==> KeyOf(r) in t.rows && t.rows[KeyOf(r)] == r
  {
    var s := SortRows(Values(t));
    SortCorrect(Values(t));
    ValuesUnique(t);
    forall r ensures r in s <==> r in Values(t) {
      assert r in multiset(s) <==> r in multiset(Values(t));
    }
    forall i, j | 0 <= i < j < |s| ensures KeyOf(s[i]) != KeyOf(s[j]) {
      if KeyOf(s[i]) == KeyOf(s[j]) {
        assert s[i] in s && s[j] in s;
        TwiceInMultiset(s, i, j);
        OnceInUnique(Values(t), s[i]);
      }
    }
  }

  lemma {:induction false} TwiceInMultiset(s: seq<Row>, i: nat, j: nat)
    requires i < j < |s| && s[i] == s[j]
    ensures multiset(s)[s[i]] >= 2
  {
    assert s == s[..i] + [s[i]] + s[i + 1..j] + [s[j]] + s[j + 1..];
  }

  lemma {:induction false} OnceInUnique(s: seq<Row>, r: Row)
    requires UniqueKeys(s)
    ensures multiset(s)[r] <= 1
  {
    if s != [] {
      HeadTail(s);
      OnceInUnique(s[1..], r);
      assert multiset(s) == multiset{s[0]} + multiset(s[1..]);
      if r == s[0] {
        assert r !in s[1..];
      }
    }
  }

  /** After a successful append the file is sorted with unique keys; every row it had is still
      there unchanged, with its first source; every record is there with its evidence. */
  lemma {:induction false} AppendMerges(rows: seq<Row>, a: Analysis, cohort: string)
    requires Appended(rows, a, cohort).Ok?
    ensures var merged := Appended(rows, a, cohort).value;
            && Sorted(merged) && UniqueKeys(merged)
            && (UniqueKeys(rows) ==> forall r :: r in rows ==> r in merged)
            && (forall r :: r in rows ==> exists m :: m in merged && KeyOf(m) == KeyOf(r))
            && (forall r :: r in a.records ==>
                  exists m :: m in merged && Evidence(m) == Evidence(r.(cohort := cohort)))
            && (forall m :: m in merged ==>
                  m in rows || exists r :: r in a.records && m == r.(cohort := cohort))
  {
    var t := FromRows(rows);
    FromRowsOk(rows);
    MergeOk(t, a.records, cohort);
    var u := Merge(t, a.records, cohort).value;
    var merged := SortRows(Values(u));
    SortedUnique(u);
    MergeHolds(t, a.records, cohort);
    forall r | r in rows
      ensures exists m :: m in merged && KeyOf(m) == KeyOf(r)
      ensures UniqueKeys(rows) ==> r in merged
    {
      assert HasKey(rows, KeyOf(r));
      assert u.rows[KeyOf(r)] in merged;
      if UniqueKeys(rows) {
        UniqueRowsSurvive(rows);
        assert r in Values(t);
        ValuesUnique(t);
      }
    }
    forall r | r in a.records
      ensures exists m :: m in merged && Evidence(m) == Evidence(r.(cohort := cohort))
    {
      var k := KeyOf(r.(cohort := cohort));
      assert u.rows[k] in merged;
    }
  }

  lemma {:induction false} MergeHolds(t: Table, records: seq<Row>, cohort: string)
    requires TableOk(t) && Merge(t, records, cohort).Ok?
    ensures var u := Merge(t, records, cohort).value;
            && (forall r :: r in records ==>
                  KeyOf(r.(cohort := cohort)) in u.rows
                  && Evidence(u.rows[KeyOf(r.(cohort := cohort))]) == Evidence(r.(cohort := cohort)))
            && (forall k :: k in u.rows ==>
                  || (k in t.rows && u.rows[k] == t.rows[k])
                  || exists r :: r in records && u.rows[k] == r.(cohort := cohort))
    decreases |records|
  {
    if records != [] {
      var next := AddRecord(t, records[0], cohort).value;
      MergeHolds(next, records[1..], cohort);
      MergeOk(next, records[1..], cohort);
      HeadTail(records);
      var u := Merge(t, records, cohort).value;
      forall k | k in u.rows && !(k in t.rows && u.rows[k] == t.rows[k])
        ensures exists r :: r in records && u.rows[k] == r.(cohort := cohort)
      {
        if k in next.rows && u.rows[k] == next.rows[k] {
          assert records[0] in records && u.rows[k] == records[0].(cohort := cohort);
        } else {
          var r :| r in records[1..] && u.rows[k] == r.(cohort := cohort);
          assert r in records;
        }
      }
    }
  }

  /** Records that are all known already change nothing. */
  lemma {:induction false} KnownRecordsChangeNothing(t: Table, records: seq<Row>, cohort: string)
    requires forall r :: r in records ==>
               && KeyOf(r.(cohort := cohort)) in t.rows
               && Evidence(t.rows[KeyOf(r.(cohort := cohort))]) == Evidence(r.(cohort := cohort))
               && !(cohort == "main" && (r.event != "push" || r.branch != "main"))
    ensures Merge(t, records, cohort) == Ok(t)
    decreases |records|
  {
    if records != [] {
      assert records[0] in records;
      KnownRecordsChangeNothing(t, records[1..], cohort);
    }
  }

  lemma {:induction false} AcceptedRecordsAllowed(t: Table, records: seq<Row>, cohort: string)
    requires Merge(t, records, cohort).Ok?
    ensures forall r :: r in records ==> !(cohort == "main" && (r.event != "push" || r.branch != "main"))
    decreases |records|
  {
    if records != [] {
      AcceptedRecordsAllowed(AddRecord(t, records[0], cohort).value, records[1..], cohort);
      HeadTail(records);
    }
  }

  /** Reading a written file back gives the dictionary it was written from, up to key order. */
  lemma {:induction false} ReadBack(t: Table)
    requires TableOk(t)
    ensures var s := SortRows(Values(t));
            TableOk(FromRows(s)) && FromRows(s).rows == t.rows && Values(FromRows(s)) == s && SortRows(s) == s
  {
    var s := SortRows(Values(t));
    SortedUnique(t);
    SortedIsFixed(s);
    UniqueRowsSurvive(s);
    var u := FromRows(s);
    ValuesUnique(u);
    forall k ensures k in u.rows <==> k in t.rows
      ensures k in u.rows ==> u.rows[k] == t.rows[k]
    {
      if k in u.rows { assert u.rows[k] in s; }
      if k in t.rows { assert t.rows[k] in s; }
    }
  }

  /** Appending the same analysis again changes nothing. */
  lemma {:induction false} AppendIsIdempotent(rows: seq<Row>, a: Analysis, cohort: string)
    requires Appended(rows, a, cohort).Ok?
    ensures Appended(Appended(rows, a, cohort).value, a, cohort) == Appended(rows, a, cohort)
  {
    var t := FromRows(rows);
    FromRowsOk(rows);
    MergeOk(t, a.records, cohort);
    MergeHolds(t, a.records, cohort);
    AcceptedRecordsAllowed(t, a.records, cohort);
    var u := Merge(t, a.records, cohort).value;
    var merged := SortRows(Values(u));
    ReadBack(u);
    KnownRecordsChangeNothing(FromRows(merged), a.records, cohort);
  }

  // ----- two appends in either order --------------------------------------------------------------------

  function Evidences(rows: seq<Row>): (r: seq<Row>) {
    seq(|rows|, i requires 0 <= i < |rows| => Evidence(rows[i]))
  }

  /** Appending two analyses one after the other. */
  function Twice(rows: seq<Row>, first: Analysis, second: Analysis, cohort: string): Result<seq<Row>, Error> {
    match Appended(rows, first, cohort)
    case Err(e) => Err(e)
    case Ok(merged) => Appended(merged, second, cohort)
  }

  /** Everything in `t` has the evidence that `all` gives for its key. */
  ghost predicate Within(t: Table, all: map<Key, Row>) {
    forall k :: k in t.rows ==> k in all && all[k] == Evidence(t.rows[k])
  }

  ghost predicate Agrees(records: seq<Row>, cohort: string, all: map<Key, Row>) {
    forall r :: r in records ==>
      && !(cohort == "main" && (r.event != "push" || r.branch != "main"))
      && KeyOf(r.(cohort := cohort)) in all && all[KeyOf(r.(cohort := cohort))] == Evidence(r.(cohort := cohort))
  }

  ghost predicate Names(records: seq<Row>, cohort: string, k: Key) {
    exists r :: r in records && KeyOf(r.(cohort := cohort)) == k
  }

  /** Records that agree with one body of evidence never conflict, whatever came before. */
  lemma {:induction false} AgreeingRecordsMerge(t: Table, records: seq<Row>, cohort: string, all: map<Key, Row>)
    requires TableOk(t) && Within(t, all) && Agrees(records, cohort, all)
    ensures Merge(t, records, cohort).Ok?
    ensures var u := Merge(t, records, cohort).value;
            TableOk(u) && Within(u, all) && forall k :: k in u.rows <==> k in t.rows || Names(records, cohort, k)
    decreases |records|
  {
    if records != [] {
      HeadTail(records);
      assert records[0] in records;
      var next := AddRecord(t, records[0], cohort).value;
      forall r | r in records[1..] ensures r in records { }
      AgreeingRecordsMerge(next, records[1..], cohort, all);
      forall k
        ensures Names(records, cohort, k) <==>
                k == KeyOf(records[0].(cohort := cohort)) || Names(records[1..], cohort, k)
      {
      }
    }
  }

  /** What an append leaves behind, as a dictionary. */
  lemma {:induction false} AppendedTable(rows: seq<Row>, a: Analysis, cohort: string) returns (u: Table)
    requires Appended(rows, a, cohort).Ok?
    ensures Merge(FromRows(rows), a.records, cohort) == Ok(u) && TableOk(u)
    ensures Appended(rows, a, cohort).value == SortRows(Values(u))
    ensures FromRows(SortRows(Values(u))).rows == u.rows && TableOk(FromRows(SortRows(Values(u))))
  {
    FromRowsOk(rows);
    MergeOk(FromRows(rows), a.records, cohort);
    u := Merge(FromRows(rows), a.records, cohort).value;
    ReadBack(u);
  }

  ghost function EvidenceOf(t: Table): map<Key, Row> {
    map k | k in t.rows :: Evidence(t.rows[k])
  }

  lemma {:induction false} AllAgree(t: Table, first: seq<Row>, u: Table, u': Table, second: seq<Row>, w: Table,
                                    cohort: string)
    requires TableOk(t) && Merge(t, first, cohort) == Ok(u)
    requires TableOk(u') && u'.rows == u.rows && Merge(u', second, cohort) == Ok(w)
    ensures var all := EvidenceOf(w);
            && Within(t, all) && Agrees(first, cohort, all) && Agrees(second, cohort, all)
            && forall k :: k in all <==> k in t.rows || Names(first, cohort, k) || Names(second, cohort, k)
  {
    MergeOk(t, first, cohort);
    MergeHolds(t, first, cohort);
    AcceptedRecordsAllowed(t, first, cohort);
    MergeOk(u', second, cohort);
    MergeHolds(u', second, cohort);
    AcceptedRecordsAllowed(u', second, cohort);
    AgreeingRecordsMerge(t, first, cohort, EvidenceOf(w));
    AgreeingRecordsMerge(u', second, cohort, EvidenceOf(w));
  }

  ghost function TwiceTable(rows: seq<Row>, a: Analysis, b: Analysis, cohort: string): Table
    requires Twice(rows, a, b, cohort).Ok?
  {
    Merge(FromRows(Appended(rows, a, cohort).value), b.records, cohort).value
  }

  lemma {:induction false} OneOrder(rows: seq<Row>, a: Analysis, b: Analysis, cohort: string)
    requires Twice(rows, a, b, cohort).Ok?
    ensures var w := TwiceTable(rows, a, b, cohort);
            && TableOk(w) && Twice(rows, a, b, cohort).value == SortRows(Values(w))
            && AgreedBy(rows, a, b, cohort, EvidenceOf(w))
  {
    FromRowsOk(rows);
    var u := AppendedTable(rows, a, cohort);
    var file := SortRows(Values(u));
    var w := AppendedTable(file, b, cohort);
    AllAgree(FromRows(rows), a.records, u, FromRows(file), b.records, w, cohort);
  }

  /** `all` is exactly the evidence of the file and of both analyses, without a contradiction. */
  ghost predicate AgreedBy(rows: seq<Row>, a: Analysis, b: Analysis, cohort: string, all: map<Key, Row>) {
    var t := FromRows(rows);
    && CohortError(a, cohort) == CohortError(b, cohort) == None
    && Within(t, all) && Agrees(a.records, cohort, all) && Agrees(b.records, cohort, all)
    && forall k :: k in all <==> k in t.rows || Names(a.records, cohort, k) || Names(b.records, cohort, k)
  }

  /** One append that agrees with a body of evidence. */
  lemma {:induction false} AgreedAppend(rows: seq<Row>, a: Analysis, cohort: string, all: map<Key, Row>)
    requires CohortError(a, cohort) == None && Within(FromRows(rows), all) && Agrees(a.records, cohort, all)
    ensures Appended(rows, a, cohort).Ok? && Merge(FromRows(rows), a.records, cohort).Ok?
    ensures var w, t := Merge(FromRows(rows), a.records, cohort).value, FromRows(Appended(rows, a, cohort).value);
            && Within(w, all) && t.rows == w.rows
            && forall k :: k in w.rows <==> k in FromRows(rows).rows || Names(a.records, cohort, k)
  {
    FromRowsOk(rows);
    AgreeingRecordsMerge(FromRows(rows), a.records, cohort, all);
    var u := AppendedTable(rows, a, cohort);
  }

  lemma {:induction false} AgreedIsAccepted(rows: seq<Row>, a: Analysis, b: Analysis, cohort: string,
                                            all: map<Key, Row>)
    requires AgreedBy(rows, a, b, cohort, all)
    ensures Twice(rows, a, b, cohort).Ok?
    ensures EvidenceOf(TwiceTable(rows, a, b, cohort)) == all
  {
    AgreedAppend(rows, a, cohort, all);
    AgreedAppend(Appended(rows, a, cohort).value, b, cohort, all);
    var w := TwiceTable(rows, a, b, cohort);
    assert forall k :: k in w.rows <==> k in all;
  }

  lemma {:induction false} SwapAccepted(rows: seq<Row>, a: Analysis, b: Analysis, cohort: string)
    requires Twice(rows, a, b, cohort).Ok?
    ensures Twice(rows, b, a, cohort).Ok?
    ensures var w, w' := TwiceTable(rows, a, b, cohort), TwiceTable(rows, b, a, cohort);
            && TableOk(w) && TableOk(w') && EvidenceOf(w) == EvidenceOf(w')
            && Twice(rows, a, b, cohort).value == SortRows(Values(w))
            && Twice(rows, b, a, cohort).value == SortRows(Values(w'))
  {
    OneOrder(rows, a, b, cohort);
    AgreedIsAccepted(rows, b, a, cohort, EvidenceOf(TwiceTable(rows, a, b, cohort)));
    OneOrder(rows, b, a, cohort);
  }

  // ----- exactly what is accepted ------------------------------------------------------------------

  /** Two rows of one attempt agree when nothing but the collection directory differs. */
  predicate SameRun(a: Row, b: Row) {
    && a.workflow == b.workflow && a.runId == b.runId && a.attempt == b.attempt && a.cohort == b.cohort
  }

  predicate SameEvidence(a: Row, b: Row) {
    && SameRun(a, b) && a.event == b.event && a.branch == b.branch && a.createdAt == b.createdAt
    && a.rest == b.rest
  }

  lemma {:induction false} KeysAndEvidenceMean(a: Row, b: Row)
    ensures KeyOf(a) == KeyOf(b) <==> SameRun(a, b)
    ensures Evidence(a) == Evidence(b) <==> SameEvidence(a, b)
  {
  }

  /** The analysis suits the history, and no record is foreign to it. */
  predicate Suits(a: Analysis, cohort: string) {
    && (cohort == "main" ==>
          && a.cohort == "baseline"
          && forall r :: r in a.records ==> r.event == "push" && r.branch == "main")
    && (cohort == "experiment" ==> a.cohort == "experiment")
  }

  /** No record contradicts a row of the file or another record about the same attempt. */
  ghost predicate Consistent(rows: seq<Row>, a: Analysis, cohort: string) {
    && (forall r, row :: r in a.records && row in rows && SameRun(r.(cohort := cohort), row) ==>
          SameEvidence(r.(cohort := cohort), row))
    && (forall r, other ::
          r in a.records && other in a.records && SameRun(r.(cohort := cohort), other.(cohort := cohort)) ==>
            SameEvidence(r.(cohort := cohort), other.(cohort := cohort)))
  }

  /** The evidence of the file and the records together. */
  ghost function AllEvidence(t: Table, records: seq<Row>, cohort: string): map<Key, Row> {
    map k | k in t.rows.Keys + (set r | r in records :: KeyOf(r.(cohort := cohort))) ::
      if k in t.rows then Evidence(t.rows[k])
      else var r :| r in records && KeyOf(r.(cohort := cohort)) == k; Evidence(r.(cohort := cohort))
  }

  lemma {:induction false} ConsistentAgrees(rows: seq<Row>, a: Analysis, cohort: string)
    requires Suits(a, cohort) && Consistent(rows, a, cohort)
    ensures var t := FromRows(rows);
            Within(t, AllEvidence(t, a.records, cohort)) && Agrees(a.records, cohort, AllEvidence(t, a.records, cohort))
  {
    var t := FromRows(rows);
    var all := AllEvidence(t, a.records, cohort);
    FromRowsOk(rows);
    forall r | r in a.records
      ensures var k := KeyOf(r.(cohort := cohort)); k in all && all[k] == Evidence(r.(cohort := cohort))
    {
      var selected := r.(cohort := cohort);
      var k := KeyOf(selected);
      if k in t.rows {
        KeysAndEvidenceMean(selected, t.rows[k]);
      } else {
        var other :| other in a.records && KeyOf(other.(cohort := cohort)) == k
                     && all[k] == Evidence(other.(cohort := cohort));
        KeysAndEvidenceMean(selected, other.(cohort := cohort));
      }
    }
  }

  /** An append is accepted exactly when the analysis suits the history and contradicts nothing. */
  lemma {:induction false} AcceptedExactly(rows: seq<Row>, a: Analysis, cohort: string)
    requires UniqueKeys(rows)
    ensures Appended(rows, a, cohort).Ok? <==> Suits(a, cohort) && Consistent(rows, a, cohort)
  {
    var t := FromRows(rows);
    FromRowsOk(rows);
    if Suits(a, cohort) && Consistent(rows, a, cohort) {
      ConsistentAgrees(rows, a, cohort);
      AgreeingRecordsMerge(t, a.records, cohort, AllEvidence(t, a.records, cohort));
    } else if Appended(rows, a, cohort).Ok? {
      AcceptedRecordsAllowed(t, a.records, cohort);
      AcceptedIsConsistent(rows, a, cohort);
    }
  }

  lemma {:induction false} AcceptedIsConsistent(rows: seq<Row>, a: Analysis, cohort: string)
    requires UniqueKeys(rows) && TableOk(FromRows(rows)) && Merge(FromRows(rows), a.records, cohort).Ok?
    ensures Consistent(rows, a, cohort)
  {
    var t := FromRows(rows);
    MergeOk(t, a.records, cohort);
    MergeHolds(t, a.records, cohort);
    UniqueRowsSurvive(rows);
    ValuesUnique(t);
    forall r, row | r in a.records && row in rows && SameRun(r.(cohort := cohort), row)
      ensures SameEvidence(r.(cohort := cohort), row)
    {
      KeysAndEvidenceMean(r.(cohort := cohort), row);
    }
    forall r, other | r in a.records && other in a.records && SameRun(r.(cohort := cohort), other.(cohort := cohort))
      ensures SameEvidence(r.(cohort := cohort), other.(cohort := cohort))
    {
      KeysAndEvidenceMean(r.(cohort := cohort), other.(cohort := cohort));
    }
  }

  /** Which error is reported: the cohort first. */
  lemma {:induction false} RefusalsMean(rows: seq<Row>, a: Analysis, cohort: string)
    ensures cohort == "main" && a.cohort != "baseline" ==> Appended(rows, a, cohort) == Err(NotBaseline)
    ensures cohort == "experiment" && a.cohort != "experiment" ==> Appended(rows, a, cohort) == Err(NotExperiment)
  {
  }

  // ----- sorted lists of the same rows -----------------------------------------------------------------

  ghost predicate Ordered(s: seq<Row>) {
    forall i, j :: 0 <= i <= j < |s| ==> OrderLe(s[i], s[j])
  }

  lemma {:induction false} SortedIsOrdered(s: seq<Row>)
    requires Sorted(s)
    ensures Ordered(s)
  {
    if s != [] {
      SortedIsOrdered(s[1..]);
      TupleLeReflexive(OrderOf(s[0]));
      forall i, j | 0 <= i <= j < |s| ensures OrderLe(s[i], s[j]) {
        if i > 0 {
          assert s[1..][i - 1] == s[i] && s[1..][j - 1] == s[j];
        } else if j > 0 {
          assert s[1..][0] == s[1] && s[1..][j - 1] == s[j];
          TupleLeTransitive(OrderOf(s[0]), OrderOf(s[1]), OrderOf(s[j]));
        }
      }
    }
  }

  function Without(u: seq<Row>, j: nat): seq<Row>
    requires j < |u|
  {
    u[..j] + u[j + 1..]
  }

  lemma {:induction false} WithoutIsOrdered(u: seq<Row>, j: nat)
    requires Ordered(u) && j < |u|
    ensures Ordered(Without(u, j))
  {
  }

  /** A least row found at `j` ties with every row before it. */
  lemma {:induction false} TiesUpTo(u: seq<Row>, j: nat, k: nat)
    requires Ordered(u) && k <= j < |u| && OrderLe(u[j], u[0])
    ensures OrderOf(u[k]) == OrderOf(u[j])
  {
    assert OrderLe(u[0], u[k]) && OrderLe(u[k], u[j]);
    TupleLeTransitive(OrderOf(u[j]), OrderOf(u[0]), OrderOf(u[k]));
    TupleLeAntisymmetric(OrderOf(u[k]), OrderOf(u[j]));
  }

  predicate SamePlaces(s: seq<Row>, u: seq<Row>) {
    |s| == |u| && forall i :: 0 <= i < |s| ==> OrderOf(s[i]) == OrderOf(u[i])
  }

  lemma {:induction false} PlaceByPlace(s: seq<Row>, u: seq<Row>, j: nat, i: nat)
    requires i < |s| && j < |u| && u[j] == s[0] && Ordered(u) && OrderLe(s[0], u[0])
    requires SamePlaces(s[1..], Without(u, j)) && |s| == |u|
    ensures OrderOf(s[i]) == OrderOf(u[i])
  {
    var rest := Without(u, j);
    if i <= j {
      TiesUpTo(u, j, i);
      if i > 0 {
        TiesUpTo(u, j, i - 1);
        assert OrderOf(s[1..][i - 1]) == OrderOf(rest[i - 1]);
      }
    } else {
      assert OrderOf(s[1..][i - 1]) == OrderOf(rest[i - 1]);
    }
  }

  lemma {:induction false} SameMultiset(s: seq<Row>, u: seq<Row>)
    requires multiset(s) == multiset(u)
    ensures |s| == |u| && forall r :: r in s <==> r in u
  {
    assert |s| == |multiset(s)| == |multiset(u)| == |u|;
    forall r ensures r in s <==> r in u {
      assert r in multiset(s) <==> r in multiset(u);
    }
  }

  /** The first element of one ordering, found in the other and taken out of both. */
  lemma {:induction false} TakeFirst<T>(s: seq<T>, u: seq<T>) returns (j: nat)
    requires s != [] && multiset(s) == multiset(u)
    ensures j < |u| && u[j] == s[0] && multiset(s[1..]) == multiset(u[..j] + u[j + 1..])
  {
    assert s[0] in multiset(u);
    j :| 0 <= j < |u| && u[j] == s[0];
    TakeOut(s, 0);
    TakeOut(u, j);
    assert s[..0] + s[1..] == s[1..];
  }

  /** Taking one element out of a sequence. */
  lemma {:induction false} TakeOut<T>(u: seq<T>, j: nat)
    requires j < |u|
    ensures multiset(u[..j] + u[j + 1..]) == multiset(u) - multiset{u[j]}
  {
    assert u == u[..j] + [u[j]] + u[j + 1..];
  }

  /** Two orderings of the same rows differ only in the order of ties. */
  lemma {:induction false} OnlyTiesDiffer(s: seq<Row>, u: seq<Row>)
    requires Ordered(s) && Ordered(u) && multiset(s) == multiset(u)
    ensures SamePlaces(s, u)
    decreases |s|
  {
    SameMultiset(s, u);
    if s != [] {
      var j := TakeFirst(s, u);
      assert u[0] in s;
      var m :| 0 <= m < |s| && s[m] == u[0];
      assert OrderLe(s[0], s[m]);
      WithoutIsOrdered(u, j);
      WithoutIsOrdered(s, 0);
      assert Without(s, 0) == s[1..];
      OnlyTiesDiffer(s[1..], Without(u, j));
      forall i | 0 <= i < |s| ensures OrderOf(s[i]) == OrderOf(u[i]) {
        PlaceByPlace(s, u, j, i);
      }
    }
  }

  lemma {:induction false} NoDupMultiset(s: seq<Row>)
    requires NoDup(s)
    ensures forall r :: multiset(s)[r] == if r in s then 1 else 0
  {
    if s != [] {
      HeadTail(s);
      NoDupMultiset(s[1..]);
      assert multiset(s) == multiset{s[0]} + multiset(s[1..]);
    }
  }

  lemma {:induction false} FileEvidence(t: Table)
    requires TableOk(t)
    ensures var s := Evidences(SortRows(Values(t)));
            && Ordered(s) && NoDup(s) && UniqueKeys(s)
            && forall r :: r in s <==> KeyOf(r) in EvidenceOf(t) && EvidenceOf(t)[KeyOf(r)] == r
  {
    var file := SortRows(Values(t));
    var s := Evidences(file);
    SortedUnique(t);
    SortedIsOrdered(file);
    forall i, j | 0 <= i <= j < |s| ensures OrderLe(s[i], s[j]) {
      assert OrderLe(file[i], file[j]);
    }
    forall i, j | 0 <= i < j < |s| ensures KeyOf(s[i]) != KeyOf(s[j]) && s[i] != s[j] {
      assert KeyOf(file[i]) != KeyOf(file[j]);
    }
    forall r ensures r in s <==> KeyOf(r) in EvidenceOf(t) && EvidenceOf(t)[KeyOf(r)] == r {
      if r in s {
        var i :| 0 <= i < |s| && s[i] == r;
        assert file[i] in file;
      }
      if KeyOf(r) in EvidenceOf(t) && EvidenceOf(t)[KeyOf(r)] == r {
        var i :| 0 <= i < |file| && file[i] == t.rows[KeyOf(r)];
        assert s[i] == r;
      }
    }
  }

  /** Two appends commute: one order is accepted exactly when the other is, and the files then
      hold the same evidence, place by place up to the order of ties, and exactly when the file
      keeps one cohort. */
  lemma {:induction false} AppendsCommute(rows: seq<Row>, a: Analysis, b: Analysis, cohort: string)
    ensures Twice(rows, a, b, cohort).Ok? <==> Twice(rows, b, a, cohort).Ok?
    ensures Twice(rows, a, b, cohort).Ok? ==>
              var s, u := Evidences(Twice(rows, a, b, cohort).value), Evidences(Twice(rows, b, a, cohort).value);
              && multiset(s) == multiset(u)
              && SamePlaces(s, u)
              && ((forall r :: r in rows ==> r.cohort == cohort) ==> s == u)
  {
    if Twice(rows, b, a, cohort).Ok? { SwapAccepted(rows, b, a, cohort); }
    if Twice(rows, a, b, cohort).Ok? {
      SwapAccepted(rows, a, b, cohort);
      var w, w' := TwiceTable(rows, a, b, cohort), TwiceTable(rows, b, a, cohort);
      SameFile(w, w');
      var s, u := Evidences(SortRows(Values(w))), Evidences(SortRows(Values(w')));
      if forall r :: r in rows ==> r.cohort == cohort {
        OneCohort(rows, a, b, cohort);
        SameRows(s, u, cohort);
      }
    }
  }

  /** Dictionaries with the same evidence are written to the same file, up to the order of ties. */
  lemma {:induction false} SameFile(w: Table, w': Table)
    requires TableOk(w) && TableOk(w') && EvidenceOf(w) == EvidenceOf(w')
    ensures var s, u := Evidences(SortRows(Values(w))), Evidences(SortRows(Values(w')));
            multiset(s) == multiset(u) && SamePlaces(s, u) && UniqueKeys(u)
  {
    FileEvidence(w);
    FileEvidence(w');
    var s, u := Evidences(SortRows(Values(w))), Evidences(SortRows(Values(w')));
    NoDupMultiset(s);
    NoDupMultiset(u);
    assert multiset(s) == multiset(u);
    OnlyTiesDiffer(s, u);
  }

  lemma {:induction false} OneCohort(rows: seq<Row>, a: Analysis, b: Analysis, cohort: string)
    requires Twice(rows, a, b, cohort).Ok? && forall r :: r in rows ==> r.cohort == cohort
    ensures forall r :: r in Evidences(Twice(rows, a, b, cohort).value) ==> r.cohort == cohort
  {
    AppendMerges(rows, a, cohort);
    AppendMerges(Appended(rows, a, cohort).value, b, cohort);
    var file := Twice(rows, a, b, cohort).value;
    forall r | r in Evidences(file) ensures r.cohort == cohort {
      var i :| 0 <= i < |file| && Evidences(file)[i] == r;
      assert file[i] in file;
    }
  }

  lemma {:induction false} SameRows(s: seq<Row>, u: seq<Row>, cohort: string)
    requires SamePlaces(s, u) && multiset(s) == multiset(u)
    requires forall r :: r in s ==> r.cohort == cohort
    requires UniqueKeys(u)
    ensures s == u
  {
    forall i | 0 <= i < |s| ensures s[i] == u[i] {
      SameElements(s, u, i);
      var j :| 0 <= j < |u| && u[j] == s[i];
      SamePlaceSameKey(s, u, i, j);
    }
  }

  lemma {:induction false} SameElements<T>(s: seq<T>, u: seq<T>, i: nat)
    requires multiset(s) == multiset(u) && i < |s| && i < |u|
    ensures s[i] in u && u[i] in s
  {
    assert s[i] in multiset(s) && u[i] in multiset(u);
  }

  lemma {:induction false} SamePlaceSameKey(s: seq<Row>, u: seq<Row>, i: nat, j: nat)
    requires SamePlaces(s, u) && i < |s| && j < |u| && u[j] == s[i] && u[i].cohort == u[j].cohort
    ensures KeyOf(u[i]) == KeyOf(u[j])
  {
    assert OrderOf(s[i]) == OrderOf(u[i]);
    TupleLeReflexive(OrderOf(u[i]));
    OrderTellsKeysApart(u[i], u[j]);
  }
}
