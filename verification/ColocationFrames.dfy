/** What a manager's invariant survives: steps of the other managers, and the
    ways its own view and stack move. */
module ColocationFrames {
  import opened Wrappers
  import opened ColocationRing
  import opened RequestLedger
  import opened ColocationView
  import opened ColocationProtocol
  import opened ColocationInvariant

  /** The only ways the shared ledger ever changes: rows are added, a state is
      overwritten, or an ungranted row receives the next link. */
  ghost predicate WorldStep(rows: seq<Row>, chain: seq<Grant>, rows': seq<Row>, chain': seq<Grant>) {
    && |rows| <= |rows'|
    && chain <= chain'
    && (forall i :: 0 <= i < |rows| ==>
          && rows'[i].request == rows[i].request
          && (rows[i].grant.Some? ==> rows'[i].grant == rows[i].grant)
          && (rows[i].grant.None? && rows'[i].grant.Some? ==> rows'[i].grant.value.sequence >= |chain|))
  }

  lemma CopiesSurvive(rows: seq<Row>, chain: seq<Grant>, rows': seq<Row>, chain': seq<Grant>, view: View)
    requires WorldStep(rows, chain, rows', chain') && CopiesOk(rows, view)
    ensures CopiesOk(rows', view)
    ensures forall bound :: bound < |chain| && Fresh(rows, view, bound) ==> Fresh(rows', view, bound)
  {
  }

  lemma LoopSurvives(
    rows: seq<Row>, chain: seq<Grant>, rows': seq<Row>, chain': seq<Grant>,
    view: View, pending: seq<Record>, asOf: int)
    requires WorldStep(rows, chain, rows', chain') && CopiesOk(rows, view)
    requires LoopOk(rows, chain, view, pending, asOf)
    ensures CopiesOk(rows', view) && LoopOk(rows', chain', view, pending, asOf)
  {
    CopiesSurvive(rows, chain, rows', chain', view);
    forall i | 0 <= i < |pending|
      ensures RecordOk(rows', pending[i]) && !Missing(rows', pending[i].handle, asOf)
    {
      assert RecordOk(rows, pending[i]);
    }
  }

  lemma StackSurvives(
    ring: Ring, rows: seq<Row>, chain: seq<Grant>, rows': seq<Row>, chain': seq<Grant>, me: string, m: Manager)
    requires WorldStep(rows, chain, rows', chain') && CopiesOk(rows, m.view)
    requires -1 <= m.view.lastSequence < |chain|
    requires StackOk(ring, rows, chain, me, m)
    ensures CopiesOk(rows', m.view) && StackOk(ring, rows', chain', me, m)
  {
    CopiesSurvive(rows, chain, rows', chain', m.view);
    forall i | 0 <= i < |m.stack| && m.stack[i].Reconciling?
      ensures LoopOk(rows', chain', m.view, m.stack[i].pending, m.stack[i].asOf)
    {
      LoopSurvives(rows, chain, rows', chain', m.view, m.stack[i].pending, m.stack[i].asOf);
    }
    forall i | 0 <= i < |m.stack| && m.stack[i].Transferring?
      ensures PhaseOk(ring, rows', chain', me, m.view, m.stack[i].phase)
    {
      assert PhaseOk(ring, rows, chain, me, m.view, m.stack[i].phase);
    }
  }

  /** Whatever another manager does to the ledger keeps this one's invariant. */
  lemma OthersKeep(
    ring: Ring, rows: seq<Row>, chain: seq<Grant>, rows': seq<Row>, chain': seq<Grant>, me: string, m: Manager)
    requires ManagerInv(ring, rows, chain, me, m)
    requires WorldStep(rows, chain, rows', chain')
    requires forall k :: |chain| <= k < |chain'| && k >= 1 ==> chain'[k].source != me
    ensures ManagerInv(ring, rows', chain', me, m)
  {
    CopiesSurvive(rows, chain, rows', chain', m.view);
    StackSurvives(ring, rows, chain, rows', chain', me, m);
  }

  // ---- changes of the own view -------------------------------------------------

  /** Every copy of the new view is an old copy, or one that has missed nothing
      up to `bound`. */
  ghost predicate Updates(rows: seq<Row>, view: View, view': View, bound: int)
    requires CopiesOk(rows, view')
  {
    && view.lastSequence <= view'.lastSequence
    && (forall id :: id in view'.records ==>
          (id in view.records && view'.records[id] == view.records[id]) || !Missing(rows, view'.records[id].handle, bound))
    && (forall id :: id in view'.handles ==>
          (id in view.handles && view'.handles[id] == view.handles[id]) || !Missing(rows, view'.handles[id], bound))
  }

  lemma UpdateKeepsLoop(
    rows: seq<Row>, chain: seq<Grant>, view: View, view': View, pending: seq<Record>, asOf: int, bound: int)
    requires CopiesOk(rows, view) && CopiesOk(rows, view') && Updates(rows, view, view', bound)
    requires LoopOk(rows, chain, view, pending, asOf) && asOf <= bound
    ensures LoopOk(rows, chain, view', pending, asOf)
  {
  }

  lemma UpdateKeepsFresh(rows: seq<Row>, view: View, view': View, bound: int)
    requires CopiesOk(rows, view) && CopiesOk(rows, view') && Updates(rows, view, view', bound)
    requires Fresh(rows, view, bound)
    ensures Fresh(rows, view', bound)
  {
  }

  lemma UpdateKeepsStack(
    ring: Ring, rows: seq<Row>, chain: seq<Grant>, me: string, m: Manager, view': View, bound: int)
    requires CopiesOk(rows, m.view) && CopiesOk(rows, view') && Updates(rows, m.view, view', bound)
    requires StackOk(ring, rows, chain, me, m)
    requires forall i :: 0 <= i < |m.stack| && m.stack[i].Reconciling? ==> m.stack[i].asOf <= bound
    requires HasTransfer(m.stack) ==> view'.lastSequence == m.view.lastSequence && view'.owner == m.view.owner
    ensures StackOk(ring, rows, chain, me, m.(view := view'))
  {
    forall i | 0 <= i < |m.stack| && m.stack[i].Reconciling?
      ensures LoopOk(rows, chain, view', m.stack[i].pending, m.stack[i].asOf)
    {
      UpdateKeepsLoop(rows, chain, m.view, view', m.stack[i].pending, m.stack[i].asOf, bound);
    }
    forall i | 0 <= i < |m.stack| && m.stack[i].Transferring?
      ensures PhaseOk(ring, rows, chain, me, view', m.stack[i].phase)
    {
      assert IsTransfer(m.stack[i]);
      assert PhaseOk(ring, rows, chain, me, m.view, m.stack[i].phase);
    }
  }

  /** Once the view holds the head of the list, the loop can go on to the rest. */
  lemma PopKeepsLoop(ring: Ring, rows: seq<Row>, chain: seq<Grant>, view: View, pending: seq<Record>, asOf: int)
    requires ring.Valid() && Linked(ring, chain)
    requires CopiesOk(rows, view) && LoopOk(rows, chain, view, pending, asOf) && pending != []
    requires pending[0].Id() in view.records && view.records[pending[0].Id()] == pending[0]
    requires pending[0].Id() in view.handles && view.handles[pending[0].Id()] == pending[0].handle
    requires pending[0].grant.Some? ==> pending[0].grant.value.sequence <= view.lastSequence
    ensures LoopOk(rows, chain, view, pending[1..], asOf)
  {
    var rest := pending[1..];
    assert RecordOk(rows, pending[0]);
    forall i | 0 <= i < |rest| ensures RecordOk(rows, rest[i]) {
      assert rest[i] == pending[i + 1];
    }
    forall k | view.lastSequence < k <= asOf ensures Delivers(rest, chain[k]) {
      assert Delivers(pending, chain[k]);
      var i :| 0 <= i < |pending| && pending[i].grant == Some(chain[k]);
      assert i != 0 && rest[i - 1] == pending[i];
    }
    forall id | Waits(pending, id) && id != pending[0].Id() ensures Waits(rest, id) {
      var i :| 0 <= i < |pending| && pending[i].Id() == id;
      assert rest[i - 1] == pending[i];
    }
  }

  /** A fresh snapshot is a consistent loop, whatever the view knows. */
  lemma ScanStartsLoop(ring: Ring, rows: seq<Row>, chain: seq<Grant>, chainRows: seq<nat>, view: View)
    requires ring.Valid() && LedgerInv(ring, rows, chain, chainRows)
    requires PositionOk(ring, chain, view) && CopiesOk(rows, view)
    ensures LoopOk(rows, chain, view, Snapshot(rows), |chain| - 1)
  {
    var pending := Snapshot(rows);
    forall i | 0 <= i < |pending| ensures RecordOk(rows, pending[i]) && pending[i] == Decode(rows, pending[i].handle.row) {
      SnapshotIsExact(rows, pending[i]);
    }
    forall row | 0 <= row < |rows| ensures Decode(rows, row) in pending {
      SnapshotIsExact(rows, Decode(rows, row));
    }
    SortIsSorted(ScanRows(rows));
    forall k | view.lastSequence < k <= |chain| - 1 ensures Delivers(pending, chain[k]) {
      assert GrantedAt(rows, chainRows[k], chain[k]);
      assert Decode(rows, chainRows[k]) in pending;
      assert Decode(rows, chainRows[k]).grant == Some(chain[k]);
    }
    forall id | id in view.records ensures Waits(pending, id) {
      assert Decode(rows, view.records[id].handle.row) in pending;
      assert Decode(rows, view.records[id].handle.row).Id() == id;
    }
    forall id | id in view.handles ensures Waits(pending, id) {
      assert Decode(rows, view.handles[id].row) in pending;
      assert Decode(rows, view.handles[id].row).Id() == id;
    }
  }
}
