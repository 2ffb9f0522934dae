/**
 The local queue as it runs: transactions change the table row by row, and a
 raised error rolls back. Each method is proved against its transaction.
 */
module SqliteQueue {
  import opened Common
  import opened ClaimOrder
  import opened DurableQueue

  /** A transaction committed its table, or raised and left the table alone. */
  ghost predicate Done(cfg: Config, before: Rows, op: Op, after: Rows, error: Option<Error>) {
    match Commit(cfg, before, op)
    case Ok(next) => error.None? && after == next
    case Err(e) => error == Some(e) && after == before
  }

  /** The table a claim selects from, and the rows it selects, oldest first. */
  ghost function Swept(cfg: Config, rows: Rows, now: real): Rows {
    Prune(cfg, RecoverRows(cfg, rows, now), None)
  }

  ghost function Selected(cfg: Config, rows: Rows, limit: nat, now: real): seq<Key> {
    First(ClaimKeys(Swept(cfg, rows, now), now), limit)
  }

  /** The batch holds the selected rows, in their order, each granted to its own new owner. */
  ghost predicate Batch(cfg: Config, kept: Rows, selected: seq<Key>, owners: seq<string>, now: real, rows: Rows, claimed: seq<Row>) {
    && |claimed| == |selected| <= |owners|
    && forall i :: 0 <= i < |selected| ==>
         && selected[i].id in kept && kept[selected[i].id].status.Queued? && selected[i].id in rows
         && claimed[i] == rows[selected[i].id] == GrantRow(cfg, kept[selected[i].id], owners[i], now)
  }

  /** Every row not in the batch is as it was. */
  ghost predicate OthersKept(kept: Rows, selected: seq<Key>, rows: Rows) {
    && rows.Keys == kept.Keys
    && forall id :: id in kept && (forall i :: 0 <= i < |selected| ==> selected[i].id != id) ==> rows[id] == kept[id]
  }

  /** The selected rows are distinct queued rows of the table. */
  lemma SelectedRows(cfg: Config, rows: Rows, now: real, limit: nat)
    requires RowsOk(cfg, rows)
    ensures var selected := First(ClaimKeys(rows, now), limit);
            && |selected| <= limit
            && (forall i :: 0 <= i < |selected| ==> selected[i].id in rows && rows[selected[i].id].status.Queued?)
            && (forall i, k :: 0 <= i < k < |selected| ==> selected[i].id != selected[k].id)
  {
    hide First, RowOk;
    var keys := ClaimKeys(rows, now);
    var selected := First(keys, limit);
    FirstElems(keys, limit);
    FirstDistinct(keys, limit);
    assert forall i :: 0 <= i < |selected| ==> selected[i] in Elems(selected);
    forall i, k | 0 <= i < k < |selected| ensures selected[i].id != selected[k].id {
      assert selected[i] != selected[k] && selected[i] in keys && selected[k] in keys;
    }
  }

  /** One more selected row granted. */
  lemma BatchGrows(
      cfg: Config, kept: Rows, selected: seq<Key>, owners: seq<string>, now: real, rows: Rows, claimed: seq<Row>, i: nat)
    requires i < |selected| <= |owners| && Batch(cfg, kept, selected[..i], owners, now, rows, claimed)
    requires OthersKept(kept, selected[..i], rows)
    requires selected[i].id in kept && kept[selected[i].id].status.Queued?
    requires forall a, b :: 0 <= a < b < |selected| ==> selected[a].id != selected[b].id
    ensures rows[selected[i].id] == kept[selected[i].id]
    ensures var id := selected[i].id;
            var next := rows[id := GrantRow(cfg, rows[id], owners[i], now)];
            && Batch(cfg, kept, selected[..i + 1], owners, now, next, claimed + [next[id]])
            && OthersKept(kept, selected[..i + 1], next)
  {
    hide GrantRow;
    var id := selected[i].id;
    assert forall k :: 0 <= k < i ==> selected[..i][k].id != id;
    assert rows[id] == kept[id];
    var next := rows[id := GrantRow(cfg, rows[id], owners[i], now)];
    forall k | 0 <= k < i + 1
      ensures selected[k].id in kept && kept[selected[k].id].status.Queued? && selected[k].id in next
      ensures (claimed + [next[id]])[k] == next[selected[k].id] == GrantRow(cfg, kept[selected[k].id], owners[k], now)
    {
      if k < i {
        assert selected[..i][k] == selected[k] && selected[k].id != id;
      }
    }
    var upTo := selected[..i + 1];
    forall x | x in kept && (forall k :: 0 <= k < |upTo| ==> upTo[k].id != x) ensures next[x] == kept[x] {
      assert upTo[i].id != x;
      assert forall k :: 0 <= k < i ==> selected[..i][k] == upTo[k];
    }
  }

  lemma SameKeys(kept: Rows, selected: seq<Key>, rows: Rows)
    requires OthersKept(kept, selected, rows)
    ensures rows.Keys == kept.Keys
  {
  }

  lemma EmptyBatch(cfg: Config, kept: Rows, selected: seq<Key>, owners: seq<string>, now: real)
    ensures Batch(cfg, kept, selected[..0], owners, now, kept, []) && OthersKept(kept, selected[..0], kept)
  {
  }

  lemma BatchOwners(
      cfg: Config, kept: Rows, selected: seq<Key>, owners: seq<string>, now: real, rows: Rows, claimed: seq<Row>)
    requires Batch(cfg, kept, selected, owners, now, rows, claimed)
    ensures forall r :: r in claimed ==> r.status.Leased? && r.owner.Some? && r.owner.value in owners
  {
  }

  class SQLiteDurableQueue {
    const cfg: Config
    var rows: Rows

    constructor (cfg: Config)
      requires ValidConfig(cfg)
      ensures this.cfg == cfg && rows == map[] && QueueInv(cfg, rows)
    {
      this.cfg, rows := cfg, map[];
      new;
      assert Active(rows) == {} && Terminals(rows) == {};
    }

    /** Recover every expired lease, one row at a time. */
    method RecoverExpired(now: real) returns (count: nat)
      modifies this
      ensures rows == RecoverRows(cfg, old(rows), now)
      ensures count == |set id | id in old(rows) && Expired(old(rows)[id], now)|
    {
      var expired := set id | id in rows && Expired(rows[id], now);
      count := |expired|;
      while expired != {}
        invariant rows.Keys == old(rows).Keys
        invariant forall id :: id in expired ==> id in rows
        invariant forall id :: id in rows ==>
                    rows[id] == if id in expired then old(rows)[id] else RecoverRow(cfg, old(rows)[id], now)
        decreases |expired|
      {
        hide RecoverRow;
        var id :| id in expired;
        rows := rows[id := RecoverRow(cfg, rows[id], now)];
        expired := expired - {id};
      }
      assert rows == RecoverRows(cfg, old(rows), now);
    }

    /** Delete the oldest terminal rows beyond the window, keeping the preserved one. */
    method PruneTerminal(preserve: Option<string>)
      modifies this
      ensures rows == Prune(cfg, old(rows), preserve)
    {
      var terminal := set id | id in rows && rows[id].status.Terminal();
      if |terminal| <= cfg.maxTerminal {
        assert First(Prunable(rows, preserve), 0) == [];
        assert rows == rows - {};
        return;
      }
      var selected := First(Prunable(rows, preserve), |terminal| - cfg.maxTerminal);
      for i := 0 to |selected|
        invariant rows == old(rows) - IdsOf(selected[..i])
      {
        assert selected[..i + 1] == selected[..i] + [selected[i]];
        IdsPush(selected[..i], selected[i]);
        rows := rows - {selected[i].id};
      }
      assert selected[..|selected|] == selected;
    }

    method Enqueue(id: string, key: string, payload: map<string, string>, scope: (string, string, string), now: real)
      returns (error: Option<Error>)
      requires ValidConfig(cfg) && QueueInv(cfg, rows)
      modifies this
      ensures Done(cfg, old(rows), Op.Enqueue(id, key, payload, scope, now), rows, error)
    {
      hide Prune, RecoverRow, RowOk, RowsOk, TableDescends, Active;
      var saved := rows;
      RecoverKeeps(cfg, rows, now);
      var _ := RecoverExpired(now);
      if k :| k in rows && rows[k].key == key {
        if rows[k].payload != payload || k != id {
          rows := saved;
          return Some(IdempotencyError);
        }
        PruneTerminal(Some(id));
        return None;
      }
      if cfg.maxPending <= |Active(rows)| {
        rows := saved;
        return Some(CapacityError);
      }
      if id in rows {
        rows := saved;
        return Some(IdempotencyError);
      }
      rows := rows[id := Row(id, key, payload, scope, Queued, 0, now, None, None, now, now, None)];
      PruneTerminal(Some(id));
      return None;
    }

    method Claim(owners: seq<string>, limit: nat, now: real) returns (claimed: seq<Row>)
      requires ValidConfig(cfg) && QueueInv(cfg, rows) && limit <= |owners|
      modifies this
      ensures Commit(cfg, old(rows), Op.Claim(owners, limit, now)) == Ok(rows)
      ensures Batch(cfg, Swept(cfg, old(rows), now), Selected(cfg, old(rows), limit, now), owners, now, rows, claimed)
      ensures OthersKept(Swept(cfg, old(rows), now), Selected(cfg, old(rows), limit, now), rows)
      ensures forall r :: r in claimed ==> r.status.Leased? && r.owner.Some? && r.owner.value in owners
    {
      hide Prune, RecoverRow, RecoverRows, First, RowsOk, ClaimKeys, Batch, OthersKept, TableDescends, KeysUnique;
      RecoverKeeps(cfg, rows, now);
      PruneKeeps(cfg, RecoverRows(cfg, rows, now), None);
      var _ := RecoverExpired(now);
      PruneTerminal(None);
      ghost var kept := rows;
      var selected := First(ClaimKeys(rows, now), limit);
      SelectedRows(cfg, rows, now, limit);
      claimed := [];
      EmptyBatch(cfg, kept, selected, owners, now);
      for i := 0 to |selected|
        invariant GrantRows(cfg, rows, selected[i..], owners[i..], now) == GrantRows(cfg, kept, selected, owners, now)
        invariant Batch(cfg, kept, selected[..i], owners, now, rows, claimed) && OthersKept(kept, selected[..i], rows)
      {
        var id := selected[i].id;
        assert selected[i..][1..] == selected[i + 1..] && owners[i..][1..] == owners[i + 1..];
        BatchGrows(cfg, kept, selected, owners, now, rows, claimed, i);
        SameKeys(kept, selected[..i], rows);
        if id in rows && rows[id].status.Queued? {
          rows := rows[id := GrantRow(cfg, rows[id], owners[i], now)];
          claimed := claimed + [rows[id]];
        }
      }
      assert selected[..|selected|] == selected;
      BatchOwners(cfg, kept, selected, owners, now, rows, claimed);
    }

    method Heartbeat(id: string, token: string, now: real) returns (error: Option<Error>)
      modifies this
      ensures Done(cfg, old(rows), Op.Heartbeat(id, token, now), rows, error)
    {
      if !Owned(rows, id, token, now) {
        return Some(if id !in rows then NotFoundError else LeaseError);
      }
      rows := rows[id := rows[id].(until := Some(now + cfg.leaseSeconds), updatedAt := now)];
      return None;
    }

    method Ack(id: string, token: string, now: real) returns (error: Option<Error>)
      modifies this
      ensures Done(cfg, old(rows), Op.Ack(id, token, now), rows, error)
    {
      hide Prune;
      if !Owned(rows, id, token, now) {
        return Some(LeaseError);
      }
      rows := rows[id := Close(rows[id], Acked, now)];
      PruneTerminal(Some(id));
      return None;
    }

    method Fail(id: string, token: string, error: string, now: real) returns (refused: Option<Error>)
      modifies this
      ensures Done(cfg, old(rows), Op.Fail(id, token, error, now), rows, refused)
    {
      hide Prune, Delay;
      if !Owned(rows, id, token, now) {
        return Some(LeaseError);
      }
      var r := rows[id];
      var dead := cfg.maxAttempts <= r.attempts;
      var status := if dead then Dead else Queued;
      var available := if dead then now else now + Delay(cfg, r.attempts);
      rows := rows[id := Close(r, status, now).(availableAt := available, lastError := Some(error))];
      PruneTerminal(if dead then Some(id) else None);
      return None;
    }

    method Cancel(id: string, presented: Option<string>, now: real) returns (error: Option<Error>)
      modifies this
      ensures Done(cfg, old(rows), Op.Cancel(id, presented, now), rows, error)
    {
      hide Prune;
      if id !in rows {
        return Some(NotFoundError);
      }
      if rows[id].status.Leased? && (presented.None? || rows[id].owner != presented) {
        return Some(LeaseError);
      }
      if !rows[id].status.Terminal() {
        rows := rows[id := Close(rows[id], Cancelled, now)];
      }
      PruneTerminal(Some(id));
      return None;
    }

    method Recover(now: real) returns (count: nat)
      modifies this
      ensures Commit(cfg, old(rows), Op.Recover(now)) == Ok(rows)
      ensures count == |set id | id in old(rows) && Expired(old(rows)[id], now)|
    {
      hide Prune, RecoverRow;
      count := RecoverExpired(now);
      PruneTerminal(None);
    }
  }
}
