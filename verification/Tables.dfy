/** `store.py`: the three tables, changed by one committed statement at a time. */
module Tables {
  import opened Options
  import opened JsonText
  import opened Registry
  import opened Lifecycle

  function Upserted(inv: map<string, Target>, entries: seq<Target>): map<string, Target> {
    if entries == [] then inv
    else Upserted(inv, entries[..|entries| - 1])[entries[|entries| - 1].id := entries[|entries| - 1]]
  }

  /** INSERT OR REPLACE leaves every id that is not among the entries as it was. */
  lemma {:induction false} OthersStay(inv: map<string, Target>, entries: seq<Target>, id: string)
    requires forall i :: 0 <= i < |entries| ==> entries[i].id != id
    ensures var r := Upserted(inv, entries); (id in r <==> id in inv) && (id in inv ==> r[id] == inv[id])
  {
    if entries == [] {
    } else {
      OthersStay(inv, entries[..|entries| - 1], id);
    }
  }

  /** An id that is among the entries gets its last entry. */
  lemma {:induction false} LastEntryWins(inv: map<string, Target>, entries: seq<Target>, i: nat)
    requires i < |entries| && forall k :: i < k < |entries| ==> entries[k].id != entries[i].id
    ensures entries[i].id in Upserted(inv, entries) && Upserted(inv, entries)[entries[i].id] == entries[i]
  {
    if i == |entries| - 1 {
    } else {
      LastEntryWins(inv, entries[..|entries| - 1], i);
    }
  }

  /** A sweep changes a row exactly when it was waiting past its expiry, and then only its status. */
  lemma ExpireExactly(rows: map<Pid, Row>, now: int, p: Pid)
    ensures var r := ExpireRows(rows, now);
            && (p in r <==> p in rows)
            && (p in rows ==> (r[p] != rows[p] <==> Overdue(rows[p], now)))
            && (p in rows && Overdue(rows[p], now) ==> r[p].status == EXPIRED && r[p] == rows[p].(status := r[p].status))
            && (p in Stale(rows, now) <==> p in rows && r[p] != rows[p])
  {
    if p in rows && Overdue(rows[p], now) { assert p in Stale(rows, now); }
  }

  /** Two sweeps in either order are one sweep at the later time, so one repeated after a crash expires nothing more. */
  lemma SweepsCompose(rows: map<Pid, Row>, a: int, b: int)
    ensures ExpireRows(ExpireRows(rows, a), b) == ExpireRows(rows, if a < b then b else a)
    ensures b <= a ==> Stale(ExpireRows(rows, a), b) == {}
  {
    forall p | p in rows
      ensures ExpireRows(ExpireRows(rows, a), b)[p] == ExpireRows(rows, if a < b then b else a)[p]
    {
      ExpireExactly(rows, a, p);
      ExpireExactly(ExpireRows(rows, a), b, p);
      ExpireExactly(rows, if a < b then b else a, p);
    }
  }

  class Store {
    var rows: map<Pid, Row>
    var receipts: map<Pid, Receipt>
    var inventory: map<string, Target>

    constructor ()
      ensures Content() == Db(map[], map[], map[])
    {
      rows, receipts, inventory := map[], map[], map[];
    }

    ghost function Content(): Db
      reads this
    {
      Db(rows, receipts, inventory)
    }

    method Get(pid: Pid) returns (r: Option<Proposal>)
      ensures r == Fetch(Content(), pid)
      ensures r.Some? ==> pid in rows && r.value.row == rows[pid]
    {
      if pid !in rows { return None; }
      match Decode(rows[pid].planText) {
        case Some(plan) => return Some(Proposal(rows[pid], plan));
        case None => return None;
      }
    }

    method UpdateRow(pid: Pid, p: Patch)
      modifies this`rows
      ensures rows == Update(old(rows), pid, p)
    {
      if pid in rows {
        var r := rows[pid];
        if p.approvedAt.Some? { r := r.(approvedAt := p.approvedAt); }
        if p.approver.Some? { r := r.(approver := p.approver); }
        if p.startedAt.Some? { r := r.(startedAt := p.startedAt); }
        if p.finishedAt.Some? { r := r.(finishedAt := p.finishedAt); }
        if p.rc.Some? { r := r.(rc := p.rc); }
        rows := rows[pid := r.(status := p.status)];
      }
    }

    /** Exactly the rows waiting past their expiry become EXPIRED, and are counted; every other row keeps every column. */
    method ExpireStale(now: int) returns (count: nat)
      modifies this`rows
      ensures rows.Keys == old(rows).Keys
      ensures forall p :: p in rows ==>
                rows[p] == if Overdue(old(rows)[p], now) then old(rows)[p].(status := EXPIRED) else old(rows)[p]
      ensures count == |set p | p in rows && rows[p] != old(rows)[p]|
      ensures rows == ExpireRows(old(rows), now)
    {
      ghost var was := rows;
      var stale := set p | p in rows && rows[p].status == PROPOSED && rows[p].frozen.expiresAt <= now;
      rows := map p | p in rows :: if p in stale then rows[p].(status := EXPIRED) else rows[p];
      count := |stale|;
      assert stale == set p | p in rows && rows[p] != was[p];
    }

    method Insert(pid: Pid, row: Row) returns (ok: bool)
      modifies this`rows
      ensures ok == (pid !in old(rows))
      ensures rows == if ok then old(rows)[pid := row] else old(rows)
    {
      ok := pid !in rows;
      if ok { rows := rows[pid := row]; }
    }

    method AddReceipt(pid: Pid, receipt: Receipt)
      modifies this`receipts
      ensures receipts == old(receipts)[pid := receipt]
    {
      receipts := receipts[pid := receipt];
    }

    method InventoryUpsert(entries: seq<Target>)
      modifies this`inventory
      ensures inventory == Upserted(old(inventory), entries)
    {
      ghost var was := inventory;
      for i := 0 to |entries|
        invariant inventory == Upserted(was, entries[..i])
      {
        assert entries[..i + 1][..i] == entries[..i];
        inventory := inventory[entries[i].id := entries[i]];
      }
      assert entries[..|entries|] == entries;
    }

    method InventoryByName(name: string) returns (ids: set<string>)
      ensures ids == set id | id in inventory && inventory[id].name == name
    {
      ids := set id | id in inventory && inventory[id].name == name;
    }
  }
}
