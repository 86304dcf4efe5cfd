/** Every row a report has ever carried, kept after it leaves (src/rsched/item_records.py). */
module ItemRecords {
  import opened Basics

  datatype Kind = Finding | Decision

  /** One element of a report's list; what is not a mapping is skipped. */
  datatype Slot = Entry(id: string, status: string, body: string) | Junk

  datatype Report = Report(findings: seq<Slot>, decisions: seq<Slot>, meta: string)

  datatype Row = Row(kind: Kind, entry: Slot)

  /** `left` is None while the newest report that was observed holds the row. */
  datatype Record = Record(row: Row, meta: string, seen: int, left: Option<int>)

  function Upper(s: string): string {
    if s == "" then ""
    else [if 'a' <= s[0] <= 'z' then s[0] - 'a' + 'A' else s[0]] + Upper(s[1..])
  }

  function Lower(s: string): string {
    if s == "" then ""
    else [if 'A' <= s[0] <= 'Z' then s[0] - 'A' + 'a' else s[0]] + Lower(s[1..])
  }

  /** The id a slot is recorded under; "" when it is not recorded. */
  function RowId(slot: Slot): string {
    if slot.Entry? then Upper(Strip(slot.id)) else ""
  }

  predicate IsLive(slot: Slot) {
    slot.Entry? && (Lower(Strip(slot.status)) == "open" || Lower(Strip(slot.status)) == "in_progress")
  }

  lemma {:induction false} UpperIs(s: string)
    ensures |Upper(s)| == |s|
    ensures forall k :: 0 <= k < |s| ==>
              Upper(s)[k] == if 'a' <= s[k] <= 'z' then (s[k] as int - 32) as char else s[k]
  {
    if s != "" { UpperIs(s[1..]); }
  }

  lemma {:induction false} LowerIs(s: string)
    ensures |Lower(s)| == |s|
    ensures forall k :: 0 <= k < |s| ==>
              Lower(s)[k] == if 'A' <= s[k] <= 'Z' then (s[k] as int + 32) as char else s[k]
  {
    if s != "" { LowerIs(s[1..]); }
  }

  /** The word in any case. */
  predicate Spells(s: string, lower: string, upper: string)
    requires |lower| == |upper|
  {
    |s| == |lower| && forall k :: 0 <= k < |s| ==> s[k] == lower[k] || s[k] == upper[k]
  }

  /** A row is live when its status, stripped, is one of two words in any case. */
  lemma LiveIff(id: string, status: string, body: string)
    ensures IsLive(Entry(id, status, body)) <==>
            Spells(Strip(status), "open", "OPEN") || Spells(Strip(status), "in_progress", "IN_PROGRESS")
    ensures !IsLive(Junk) && RowId(Junk) == ""
  {
    LowerIs(Strip(status));
    LowerSpells(Strip(status), "open", "OPEN");
    LowerSpells(Strip(status), "in_progress", "IN_PROGRESS");
  }

  lemma LowerSpells(s: string, lower: string, upper: string)
    requires |lower| == |upper|
    requires forall k :: 0 <= k < |lower| ==>
               if 'a' <= lower[k] <= 'z' then upper[k] as int == lower[k] as int - 32 else upper[k] == lower[k] == '_'
    ensures Lower(s) == lower <==> Spells(s, lower, upper)
  {
    LowerIs(s);
    if Lower(s) == lower {
      forall k | 0 <= k < |s| ensures s[k] == lower[k] || s[k] == upper[k] {
        assert Lower(s)[k] == lower[k];
      }
    }
    if Spells(s, lower, upper) {
      forall k | 0 <= k < |s| ensures Lower(s)[k] == lower[k] { }
    }
  }

  /** A row goes by its id, stripped and in capitals. */
  lemma RowIdIs(slot: Slot)
    requires slot.Entry?
    ensures
      var (id, s) := (RowId(slot), Strip(slot.id));
      |id| == |s|
      && forall k :: 0 <= k < |s| ==> id[k] == if 'a' <= s[k] <= 'z' then (s[k] as int - 32) as char else s[k]
  {
    UpperIs(Strip(slot.id));
  }

  // ---------------------------------------------------------------------- one report

  function Tagged(kind: Kind, slots: seq<Slot>): seq<Row> {
    if slots == [] then [] else Tagged(kind, slots[..|slots| - 1]) + [Row(kind, slots[|slots| - 1])]
  }

  /** A report's slots with their kinds, in the order they are read. */
  function Slots(report: Report): seq<Row> {
    Tagged(Finding, report.findings) + Tagged(Decision, report.decisions)
  }

  /** The rows a report holds: the last slot of each id, decisions after findings. */
  function RowsOf(slots: seq<Row>): map<string, Row> {
    if slots == [] then map[]
    else
      var most, id := RowsOf(slots[..|slots| - 1]), RowId(slots[|slots| - 1].entry);
      if id == "" then most else most[id := slots[|slots| - 1]]
  }

  lemma RowsNext(slots: seq<Row>, row: Row)
    ensures
      var id := RowId(row.entry);
      RowsOf(slots + [row]) == if id == "" then RowsOf(slots) else RowsOf(slots)[id := row]
  {
    assert (slots + [row])[..|slots|] == slots;
  }

  method Rows(report: Report) returns (rows: map<string, Row>)
    ensures rows == RowsOf(Slots(report))
  {
    rows := ReadSlots(map[], [], Finding, report.findings);
    assert [] + Tagged(Finding, report.findings) == Tagged(Finding, report.findings);
    rows := ReadSlots(rows, Tagged(Finding, report.findings), Decision, report.decisions);
  }

  lemma TaggedNext(before: seq<Row>, kind: Kind, slots: seq<Slot>, i: nat)
    requires i < |slots|
    ensures before + Tagged(kind, slots[..i + 1]) == before + Tagged(kind, slots[..i]) + [Row(kind, slots[i])]
  {
    assert slots[..i + 1][..i] == slots[..i];
  }

  method ReadSlots(rows: map<string, Row>, ghost before: seq<Row>, kind: Kind, slots: seq<Slot>)
    returns (r: map<string, Row>)
    requires rows == RowsOf(before)
    ensures r == RowsOf(before + Tagged(kind, slots))
  {
    r := rows;
    var i := 0;
    ghost var all := before;
    assert before + [] == before;
    while i < |slots|
      invariant i <= |slots| && all == before + Tagged(kind, slots[..i]) && r == RowsOf(all)
    {
      TaggedNext(before, kind, slots, i);
      RowsNext(all, Row(kind, slots[i]));
      all := all + [Row(kind, slots[i])];
      r := Stored(r, kind, slots[i]);
      i := i + 1;
    }
    assert slots[..|slots|] == slots;
  }

  function Stored(rows: map<string, Row>, kind: Kind, slot: Slot): map<string, Row> {
    if RowId(slot) == "" then rows else rows[RowId(slot) := Row(kind, slot)]
  }

  lemma RowsAt(slots: seq<Row>, n: nat)
    requires n < |slots|
    ensures
      var id := RowId(slots[n].entry);
      RowsOf(slots[..n + 1]) == if id == "" then RowsOf(slots[..n]) else RowsOf(slots[..n])[id := slots[n]]
  {
    assert slots[..n + 1] == slots[..n] + [slots[n]];
    RowsNext(slots[..n], slots[n]);
  }

  predicate SomeSlot(slots: seq<Row>, n: nat, id: string)
    requires n <= |slots|
  {
    exists k :: 0 <= k < n && RowId(slots[k].entry) == id
  }

  lemma SomeSlotNext(slots: seq<Row>, n: nat, id: string)
    requires n < |slots|
    ensures SomeSlot(slots, n + 1, id) <==> SomeSlot(slots, n, id) || RowId(slots[n].entry) == id
  {
  }

  /** In the report's own terms: an id is held iff some slot has it. */
  lemma {:induction false} HeldIff(slots: seq<Row>, n: nat, id: string)
    requires n <= |slots|
    ensures id in RowsOf(slots[..n]) <==> id != "" && SomeSlot(slots, n, id)
  {
    if n > 0 {
      HeldIff(slots, n - 1, id);
      SomeSlotNext(slots, n - 1, id);
      RowsAt(slots, n - 1);
    }
  }

  /** And what is held is the last such slot: a decision before a finding, a later row before an earlier. */
  lemma {:induction false} HeldIsLast(slots: seq<Row>, n: nat, id: string, k: nat)
    requires k < n <= |slots| && RowId(slots[k].entry) == id && id != ""
    requires forall m :: k < m < n ==> RowId(slots[m].entry) != id
    ensures id in RowsOf(slots[..n]) && RowsOf(slots[..n])[id] == slots[k]
  {
    assert slots[..n] == slots[..n - 1] + [slots[n - 1]];
    RowsNext(slots[..n - 1], slots[n - 1]);
    if k < n - 1 {
      HeldIsLast(slots, n - 1, id, k);
    }
  }

  lemma {:induction false} TaggedAre(kind: Kind, slots: seq<Slot>)
    ensures |Tagged(kind, slots)| == |slots|
    ensures forall k :: 0 <= k < |slots| ==> Tagged(kind, slots)[k] == Row(kind, slots[k])
  {
    if slots != [] { TaggedAre(kind, slots[..|slots| - 1]); }
  }

  /** The findings are read first, so an id that is both is recorded as the last decision of that id. */
  lemma DecisionWins(report: Report, k: nat)
    requires k < |report.decisions| && RowId(report.decisions[k]) != ""
    requires forall m :: k < m < |report.decisions| ==> RowId(report.decisions[m]) != RowId(report.decisions[k])
    ensures
      var (rows, id) := (RowsOf(Slots(report)), RowId(report.decisions[k]));
      id in rows && rows[id] == Row(Decision, report.decisions[k])
  {
    var (slots, n, id) := (Slots(report), |report.findings|, RowId(report.decisions[k]));
    SlotsAre(report);
    forall m | n + k < m < |slots| ensures RowId(slots[m].entry) != id {
      assert slots[m] == Row(Decision, report.decisions[m - n]);
    }
    assert slots[n + k] == Row(Decision, report.decisions[k]);
    LastHeld(slots, id, n + k);
  }

  lemma LastHeld(slots: seq<Row>, id: string, k: nat)
    requires k < |slots| && RowId(slots[k].entry) == id && id != ""
    requires forall m :: k < m < |slots| ==> RowId(slots[m].entry) != id
    ensures id in RowsOf(slots) && RowsOf(slots)[id] == slots[k]
  {
    HeldIsLast(slots, |slots|, id, k);
    assert slots[..|slots|] == slots;
  }

  lemma SlotsAre(report: Report)
    ensures |Slots(report)| == |report.findings| + |report.decisions|
    ensures forall m :: |report.findings| <= m < |Slots(report)| ==>
              Slots(report)[m] == Row(Decision, report.decisions[m - |report.findings|])
  {
    TaggedAre(Finding, report.findings);
    TaggedAre(Decision, report.decisions);
  }

  // ---------------------------------------------------------------------- the store

  type Store = map<string, Record>

  /** One observation: what the report held, what it said of itself, and when it was read. */
  datatype Visit = Visit(rows: map<string, Row>, meta: string, at: int)

  /** A recorded row that the rows just read omit, and that had not left yet. */
  predicate Leaves(store: Store, v: Visit, id: string) {
    id in store && id !in v.rows && store[id].left.None?
  }

  /** Whether this observation returns `id`: a live row that it sees leave. */
  predicate Drops(store: Store, v: Visit, id: string) {
    v.rows != map[] && Leaves(store, v, id) && IsLive(store[id].row.entry)
  }

  function Stamp(store: Store, v: Visit, id: string): Record
    requires id in store
  {
    if Leaves(store, v, id) then store[id].(left := Some(v.at)) else store[id]
  }

  /** A row just read is recorded afresh; one it omits is stamped, once. */
  function After(store: Store, v: Visit, id: string): Record
    requires id in store || id in v.rows
  {
    if id in v.rows then Record(v.rows[id], v.meta, v.at, None)
    else Stamp(store, v, id)
  }

  /** A report without rows is not observed. */
  function Observed(store: Store, v: Visit): Store {
    if v.rows == map[] then store
    else map id | id in store.Keys + v.rows.Keys :: After(store, v, id)
  }

  // the two loops of an observation

  function Recorded(store: Store, v: Visit): Store {
    map id | id in store.Keys + v.rows.Keys ::
      if id in v.rows then Record(v.rows[id], v.meta, v.at, None) else store[id]
  }

  function Stamped(store: Store, v: Visit): Store {
    map id | id in store :: Stamp(store, v, id)
  }

  /** Recording first leaves what departs as it was. */
  lemma RecordedThenStamped(store: Store, v: Visit)
    requires v.rows != map[]
    ensures Stamped(Recorded(store, v), v) == Observed(store, v)
    ensures forall id :: Leaves(Recorded(store, v), v, id) <==> Leaves(store, v, id)
    ensures forall id :: Leaves(store, v, id) ==> Recorded(store, v)[id] == store[id]
  {
    assert Stamped(Recorded(store, v), v).Keys == store.Keys + v.rows.Keys;
  }

  function Fold(history: seq<Visit>): Store {
    if history == [] then map[]
    else Observed(Fold(history[..|history| - 1]), history[|history| - 1])
  }

  // what the history itself says of a row

  /** Report `j` is the last of the first `n` to hold the row. */
  predicate IsLast(history: seq<Visit>, n: nat, id: string, j: nat)
    requires n <= |history|
  {
    j < n && id in history[j].rows && forall m :: j < m < n ==> id !in history[m].rows
  }

  /** Report `k` is the next after `j` that holds any row at all. */
  predicate IsNext(history: seq<Visit>, j: nat, k: nat) {
    && j < k < |history| && history[k].rows != map[]
    && forall m :: j < m < k ==> history[m].rows == map[]
  }

  ghost predicate Tells(history: seq<Visit>, n: nat, id: string, j: nat, record: Record)
    requires n <= |history| && IsLast(history, n, id, j)
  {
    && record.row == history[j].rows[id]
    && record.meta == history[j].meta && record.seen == history[j].at
    && (record.left.None? ==> forall m :: j < m < n ==> history[m].rows == map[])
    && (record.left.Some? ==> exists k: nat :: k < n && IsNext(history, j, k) && record.left.value == history[k].at)
  }

  lemma FoldNext(history: seq<Visit>, n: nat)
    requires n < |history|
    ensures Fold(history[..n + 1]) == Observed(Fold(history[..n]), history[n])
  {
    assert history[..n + 1][..n] == history[..n];
  }

  /** The store is its history: an id is recorded iff some report held it; its row, report and time
      are those of the last report that held it; and it left at the first later report with any rows. */
  lemma {:induction false} StoreIsHistory(history: seq<Visit>, n: nat, id: string)
    requires n <= |history|
    ensures id in Fold(history[..n]) <==> exists j: nat :: IsLast(history, n, id, j)
    ensures forall j: nat :: IsLast(history, n, id, j) ==>
              id in Fold(history[..n]) && Tells(history, n, id, j, Fold(history[..n])[id])
  {
    if n > 0 {
      StoreIsHistory(history, n - 1, id);
      FoldNext(history, n - 1);
      if id in history[n - 1].rows {
        assert IsLast(history, n, id, n - 1);
      } else {
        StillLast(history, n - 1, n, id);
        forall j: nat | IsLast(history, n, id, j) ensures Tells(history, n, id, j, Fold(history[..n])[id]) {
          TellsNext(history, n - 1, id, j, Fold(history[..n - 1])[id], Fold(history[..n])[id]);
        }
      }
    }
  }

  lemma StillLast(history: seq<Visit>, m: nat, n: nat, id: string)
    requires n == m + 1 <= |history| && id !in history[m].rows
    ensures forall j: nat :: IsLast(history, n, id, j) <==> IsLast(history, m, id, j)
    ensures (exists j: nat :: IsLast(history, n, id, j)) <==> exists j: nat :: IsLast(history, m, id, j)
  {
    if j: nat :| IsLast(history, m, id, j) {
      assert IsLast(history, n, id, j);
    }
    if j: nat :| IsLast(history, n, id, j) {
      assert IsLast(history, m, id, j);
    }
  }

  lemma TellsNext(history: seq<Visit>, n: nat, id: string, j: nat, was: Record, is': Record)
    requires n < |history| && id !in history[n].rows && IsLast(history, n, id, j) && Tells(history, n, id, j, was)
    requires is' == if history[n].rows == map[] || was.left.Some? then was else was.(left := Some(history[n].at))
    ensures IsLast(history, n + 1, id, j) && Tells(history, n + 1, id, j, is')
  {
    if was.left.None? && history[n].rows != map[] {
      assert IsNext(history, j, n);
    }
  }

  /** An observation returns an id exactly when it is the first with any rows since the last report
      that held the row, that row was live, and this one omits it. */
  lemma ReturnedIff(history: seq<Visit>, id: string, k: nat)
    requires k < |history|
    ensures Drops(Fold(history[..k]), history[k], id) <==>
            exists j: nat :: && IsNext(history, j, k) && id !in history[k].rows
                             && id in history[j].rows && IsLive(history[j].rows[id].entry)
  {
    StoreIsHistory(history, k, id);
    var store := Fold(history[..k]);
    if Drops(store, history[k], id) {
      var j: nat :| IsLast(history, k, id, j);
      assert Tells(history, k, id, j, store[id]);
      assert IsNext(history, j, k);
    }
    if j: nat :| (IsNext(history, j, k) && id !in history[k].rows
                  && id in history[j].rows && IsLive(history[j].rows[id].entry)) {
      assert IsLast(history, k, id, j);
      assert Tells(history, k, id, j, store[id]);
    }
  }

  /** Each departure of a live row is returned by exactly one observation: the next with any rows. */
  lemma ReturnedOnce(history: seq<Visit>, id: string, j: nat, k: nat)
    requires IsNext(history, j, k) && id !in history[k].rows
    requires id in history[j].rows && IsLive(history[j].rows[id].entry)
    ensures Drops(Fold(history[..k]), history[k], id)
    ensures forall m: nat :: j < m < |history| && m != k && (forall x :: j < x < m ==> id !in history[x].rows)
              ==> !Drops(Fold(history[..m]), history[m], id)
  {
    ReturnedIff(history, id, k);
    forall m: nat | j < m < |history| && m != k && (forall x :: j < x < m ==> id !in history[x].rows)
      ensures !Drops(Fold(history[..m]), history[m], id)
    {
      ReturnedIff(history, id, m);
    }
  }

  // ---------------------------------------------------------------------- the order of the answer

  /** isdigit and int on what follows an id's letter. */
  function Digits(s: string): Option<nat> {
    if s == "" then None
    else if !('0' <= s[|s| - 1] <= '9') then None
    else if |s| == 1 then Some(s[0] as int - '0' as int)
    else
      var most := Digits(s[..|s| - 1]);
      if most.None? then None else Some(10 * most.value + (s[|s| - 1] as int - '0' as int))
  }

  function Number(id: string): nat
    requires id != ""
  {
    if Digits(id[1..]).Some? then Digits(id[1..]).value else 0
  }

  lemma {:induction false} DecimalDigits(n: nat)
    ensures Digits(Decimal(n)) == Some(n)
  {
    if n >= 10 {
      DecimalDigits(n / 10);
      var d := Decimal(n / 10);
      assert Decimal(n)[..|d|] == d && Decimal(n)[|d|] == "0123456789"[n % 10];
    }
  }

  /** Ids go by their letter and then by their number, not by its digits. */
  lemma IdOrder(a: char, m: nat, b: char, n: nat)
    ensures NotAfter([a] + Decimal(m), [b] + Decimal(n)) <==> a < b || (a == b && m <= n)
  {
    DecimalDigits(m);
    DecimalDigits(n);
    assert ([a] + Decimal(m))[1..] == Decimal(m) && ([b] + Decimal(n))[1..] == Decimal(n);
  }

  /** What follows the letter and is no number counts as 0. */
  lemma OtherIds(a: char, rest: string)
    requires exists k :: 0 <= k < |rest| && !('0' <= rest[k] <= '9')
    ensures Number([a] + rest) == 0
  {
    NotDigits(rest);
    assert ([a] + rest)[1..] == rest;
  }

  lemma {:induction false} NotDigits(s: string)
    requires exists k :: 0 <= k < |s| && !('0' <= s[k] <= '9')
    ensures Digits(s).None?
  {
    var k :| 0 <= k < |s| && !('0' <= s[k] <= '9');
    if k < |s| - 1 && '0' <= s[|s| - 1] <= '9' {
      assert s[..|s| - 1][k] == s[k];
      NotDigits(s[..|s| - 1]);
    }
  }

  predicate NotAfter(a: string, b: string)
    requires a != "" && b != ""
  {
    a[0] < b[0] || (a[0] == b[0] && Number(a) <= Number(b))
  }

  predicate Sorted(s: seq<string>) {
    (forall k :: 0 <= k < |s| ==> s[k] != "") && forall i, j :: 0 <= i < j < |s| ==> NotAfter(s[i], s[j])
  }

  lemma InsertedSorted(s: seq<string>, i: nat, x: string)
    requires Sorted(s) && x != "" && i <= |s|
    requires i > 0 ==> NotAfter(s[i - 1], x)
    requires forall k :: i <= k < |s| ==> NotAfter(x, s[k])
    ensures Sorted(s[..i] + [x] + s[i..])
  {
    forall k | 0 <= k < i ensures NotAfter(s[k], x) {
      assert k == i - 1 || NotAfter(s[k], s[i - 1]);
    }
  }

  /** Behind everything it is not before: sorted() is stable. */
  method InsertSorted(s: seq<string>, x: string) returns (r: seq<string>)
    requires Sorted(s) && x != ""
    ensures Sorted(r) && multiset(r) == multiset(s) + multiset{x}
  {
    var i: nat := |s|;
    while i > 0 && !NotAfter(s[i - 1], x)
      invariant 0 <= i <= |s| && forall k :: i <= k < |s| ==> NotAfter(x, s[k])
    {
      i := i - 1;
    }
    InsertedSorted(s, i, x);
    r := s[..i] + [x] + s[i..];
    assert multiset(s[..i]) + multiset(s[i..]) == multiset(s) by {
      assert s == s[..i] + s[i..];
    }
  }
}

/** item-records.json under its one writer. */
module ItemRecordsFile {
  import opened Basics
  import T = ItemRecords

  class Recorder {
    var records: T.Store

    ghost predicate Valid()
      reads this
    {
      "" !in records
    }

    constructor ()
      ensures Valid() && records == map[]
    {
      records := map[];
    }

    method Record(v: T.Visit)
      modifies this
      ensures records == T.Recorded(old(records), v)
    {
      var todo := v.rows.Keys;
      while todo != {}
        invariant todo <= v.rows.Keys
        invariant forall id :: id in records <==> id in old(records) || (id in v.rows && id !in todo)
        invariant forall id :: id in records ==>
          records[id] == if id in v.rows && id !in todo then T.Record(v.rows[id], v.meta, v.at, None)
                         else old(records)[id]
      {
        var id :| id in todo;
        records := records[id := T.Record(v.rows[id], v.meta, v.at, None)];
        todo := todo - {id};
      }
    }

    method Depart(v: T.Visit) returns (dropped: seq<string>)
      requires Valid()
      modifies this
      ensures records == T.Stamped(old(records), v)
      ensures T.Sorted(dropped)
      ensures forall id :: multiset(dropped)[id] == LiveCount(old(records), v, id)
    {
      dropped := [];
      var todo := records.Keys;
      while todo != {}
        invariant todo <= old(records).Keys == records.Keys
        invariant forall id <- records ::
          records[id] == if id in todo then old(records)[id] else T.Stamp(old(records), v, id)
        invariant T.Sorted(dropped)
        invariant forall id :: multiset(dropped)[id] == if id in todo then 0 else LiveCount(old(records), v, id)
      {
        var id :| id in todo;
        todo := todo - {id};
        var live := DepartOne(v, id);
        if live {
          dropped := T.InsertSorted(dropped, id);
        }
      }
    }

    /** Stamps one row, if it has just gone missing, and says whether it was live. */
    method DepartOne(v: T.Visit, id: string) returns (live: bool)
      requires id in records
      modifies this
      ensures records == old(records)[id := T.Stamp(old(records), v, id)]
      ensures live <==> LiveCount(old(records), v, id) == 1
    {
      live := false;
      if id !in v.rows && records[id].left.None? {
        live := T.IsLive(records[id].row.entry);
        records := records[id := records[id].(left := Some(v.at))];
      }
    }

    static function LiveCount(store: T.Store, v: T.Visit, id: string): nat {
      if T.Leaves(store, v, id) && T.IsLive(store[id].row.entry) then 1 else 0
    }

    /** observe: records every row, stamps what is missing, and returns what left while live. */
    method Observe(report: T.Report, at: int) returns (dropped: seq<string>)
      requires Valid()
      modifies this
      ensures
        var v := T.Visit(T.RowsOf(T.Slots(report)), report.meta, at);
        && Valid() && records == T.Observed(old(records), v)
        && T.Sorted(dropped)
        && forall id :: multiset(dropped)[id] == if T.Drops(old(records), v, id) then 1 else 0
    {
      var rows := T.Rows(report);
      if rows == map[] {
        return [];
      }
      T.HeldIff(T.Slots(report), |T.Slots(report)|, "");
      assert T.Slots(report)[..|T.Slots(report)|] == T.Slots(report);
      var v := T.Visit(rows, report.meta, at);
      Record(v);
      dropped := Depart(v);
      T.RecordedThenStamped(old(records), v);
    }
  }
}
