/** The request ledger: one row per GPU request, granted and closed in place
    (meshy/transferqueue/colocation.py). */
module RequestLedger {
  import opened Wrappers

  datatype Kind = OnDemandRequest | FallbackRequest

  datatype Request = Request(
    service: string, id: string, createdAt: int, ringIndex: nat, priority: nat, kind: Kind)

  datatype Grant = Grant(sequence: int, source: string, target: string, requestId: string)

  datatype RowState = Open | Granted | Closed

  datatype Row = Row(request: Request, state: RowState, grant: Option<Grant>)

  /** What a manager needs to rewrite a row. It is a copy: the row may have
      moved on since the handle was decoded. */
  datatype Handle = Handle(row: nat, request: Request, grant: Option<Grant>)

  datatype Record = Record(handle: Handle, state: RowState, grant: Option<Grant>) {
    function Id(): string { handle.request.id }

    /** The key a scan is sorted by: ungranted rows first, then by sequence. */
    function SortKey(): int {
      if grant.Some? then grant.value.sequence else -1
    }
  }

  function Create(rows: seq<Row>, request: Request): seq<Row> {
    rows + [Row(request, Open, None)]
  }

  function CreatedHandle(rows: seq<Row>, request: Request): Handle {
    Handle(|rows|, request, None)
  }

  /** Granting rewrites the whole row from the handle's copy of the request. */
  function GrantRow(rows: seq<Row>, handle: Handle, grant: Grant): seq<Row>
    requires handle.row < |rows|
  {
    rows[handle.row := Row(handle.request, Granted, Some(grant))]
  }

  /** Closing rewrites the row with whatever grant the handle remembers. */
  function CloseRow(rows: seq<Row>, handle: Handle): seq<Row>
    requires handle.row < |rows|
  {
    rows[handle.row := Row(handle.request, Closed, handle.grant)]
  }

  function Decode(rows: seq<Row>, i: nat): Record
    requires i < |rows|
  {
    Record(Handle(i, rows[i].request, rows[i].grant), rows[i].state, rows[i].grant)
  }

  function ScanRows(rows: seq<Row>): seq<Record> {
    seq(|rows|, i requires 0 <= i < |rows| => Decode(rows, i))
  }

  ghost predicate SortedBySequence(records: seq<Record>) {
    forall i, j :: 0 <= i < j < |records| ==> records[i].SortKey() <= records[j].SortKey()
  }

  /** One step of a stable sort: behind everything with an equal or lower key. */
  function InsertRecord(sorted: seq<Record>, record: Record): seq<Record> {
    if sorted == [] || sorted[|sorted| - 1].SortKey() <= record.SortKey() then
      sorted + [record]
    else
      InsertRecord(sorted[..|sorted| - 1], record) + [sorted[|sorted| - 1]]
  }

  function SortRecords(records: seq<Record>): seq<Record> {
    if records == [] then []
    else InsertRecord(SortRecords(records[..|records| - 1]), records[|records| - 1])
  }

  lemma {:induction false} InsertKeepsAll(sorted: seq<Record>, record: Record)
    ensures multiset(InsertRecord(sorted, record)) == multiset(sorted) + multiset{record}
  {
    if !(sorted == [] || sorted[|sorted| - 1].SortKey() <= record.SortKey()) {
      assert sorted == sorted[..|sorted| - 1] + [sorted[|sorted| - 1]];
      InsertKeepsAll(sorted[..|sorted| - 1], record);
    }
  }

  lemma {:induction false} InsertKeepsOrder(sorted: seq<Record>, record: Record)
    requires SortedBySequence(sorted)
    ensures SortedBySequence(InsertRecord(sorted, record))
  {
    if !(sorted == [] || sorted[|sorted| - 1].SortKey() <= record.SortKey()) {
      var front, last := sorted[..|sorted| - 1], sorted[|sorted| - 1];
      InsertKeepsOrder(front, record);
      InsertKeepsAll(front, record);
      var inserted := InsertRecord(front, record);
      forall i | 0 <= i < |inserted| ensures inserted[i].SortKey() <= last.SortKey() {
        assert inserted[i] in multiset(inserted);
        assert inserted[i] in front || inserted[i] == record;
      }
    }
  }

  lemma {:induction false} SortIsSorted(records: seq<Record>)
    ensures multiset(SortRecords(records)) == multiset(records)
    ensures SortedBySequence(SortRecords(records))
  {
    if records != [] {
      var front, last := records[..|records| - 1], records[|records| - 1];
      assert records == front + [last];
      SortIsSorted(front);
      InsertKeepsAll(SortRecords(front), last);
      InsertKeepsOrder(SortRecords(front), last);
    }
  }

  /** The atomic, sorted snapshot `_reconcile` works through. */
  function Snapshot(rows: seq<Row>): seq<Record> {
    SortRecords(ScanRows(rows))
  }

  /** A snapshot is sorted and holds exactly the rows of the ledger. */
  lemma SnapshotIsExact(rows: seq<Row>, record: Record)
    ensures SortedBySequence(Snapshot(rows))
    ensures record in Snapshot(rows) <==>
            record.handle.row < |rows| && record == Decode(rows, record.handle.row)
  {
    var scan := ScanRows(rows);
    SortIsSorted(scan);
    assert multiset(Snapshot(rows)) == multiset(scan);
    assert record in Snapshot(rows) <==> record in multiset(Snapshot(rows));
    assert record in scan <==> record in multiset(scan);
    if record.handle.row < |rows| && record == Decode(rows, record.handle.row) {
      assert scan[record.handle.row] == record;
    }
  }
}
