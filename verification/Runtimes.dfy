/** The runtime table (modules/runtime/db.go): one row per (space, daemon, provider,
    owner), under an id that is never used again. */
module Runtimes {
  import opened Wrappers

  datatype Route = Route(space: string, daemon: string, kind: string, owner: string)

  datatype Runtime = Runtime(route: Route, name: string, status: string, version: string,
                             intervalMs: int, lastSeen: int)

  type Rows = map<int, Runtime>

  const ONLINE := "online"
  const OFFLINE := "offline"

  predicate UniqueRoutes(rows: Rows) {
    forall i, j | i in rows && j in rows && rows[i].route == rows[j].route :: i == j
  }

  /** What a registration writes over an existing row; a zero interval keeps the old one. */
  function Refreshed(row: Runtime, m: Runtime, now: int): Runtime {
    row.(name := m.name, status := m.status, version := m.version,
         intervalMs := if m.intervalMs > 0 then m.intervalMs else row.intervalMs, lastSeen := now)
  }

  /** Rows seen more than three heartbeat intervals ago; a row without an interval of its
      own takes the default. Intervals are in milliseconds, times in seconds. */
  predicate Stale(row: Runtime, defaultMs: int, now: int) {
    var interval := if row.intervalMs > 0 then row.intervalMs else defaultMs;
    row.status == ONLINE && 1000 * row.lastSeen < 1000 * now - 3 * interval
  }

  predicate Expired(row: Runtime, cutoff: int) {
    row.status == OFFLINE && row.lastSeen < cutoff
  }

  function Marked(row: Runtime, defaultMs: int, now: int): Runtime {
    if Stale(row, defaultMs, now) then row.(status := OFFLINE) else row
  }

  function SweptRows(rows: Rows, defaultMs: int, gcSeconds: int, now: int): Rows {
    map id | id in rows && !Expired(Marked(rows[id], defaultMs, now), now - gcSeconds) ::
      Marked(rows[id], defaultMs, now)
  }

  class RuntimeTable {
    var rows: Rows
    var nextId: int

    ghost predicate Valid()
      reads this
    {
      && 0 < nextId && UniqueRoutes(rows)
      && forall id | id in rows :: 0 < id < nextId
    }

    constructor ()
      ensures Valid() && rows == map[] && nextId == 1
    {
      rows, nextId := map[], 1;
    }

    /** Registers a runtime: refreshes the row of its key, whose key columns never
        change, or adds one under a new id. */
    method Upsert(m: Runtime, now: int) returns (id: int)
      requires Valid()
      modifies this
      ensures Valid() && nextId >= old(nextId)
      ensures id in rows && rows[id].route == m.route
      ensures id in old(rows) ==> nextId == old(nextId) && rows == old(rows)[id := Refreshed(old(rows)[id], m, now)]
      ensures id !in old(rows) ==>
                && (forall i | i in old(rows) :: old(rows)[i].route != m.route)
                && id == old(nextId) && rows == old(rows)[id := m.(lastSeen := now)]
      ensures rows == old(rows)[id := m.(lastSeen := now, intervalMs :=
                if id in old(rows) && m.intervalMs <= 0 then old(rows)[id].intervalMs else m.intervalMs)]
    {
      var existing := QueryByUniqueKey(m.route);
      if existing.Some? {
        id := existing.value;
        rows := rows[id := Refreshed(rows[id], m, now)];
      } else {
        id := nextId;
        nextId := nextId + 1;
        rows := rows[id := m.(lastSeen := now)];
      }
    }

    method QueryByUniqueKey(route: Route) returns (found: Option<int>)
      requires Valid()
      ensures found.Some? ==> found.value in rows && rows[found.value].route == route
      ensures found.None? ==> forall id | id in rows :: rows[id].route != route
    {
      for id := 1 to nextId
        invariant forall i | 0 < i < id && i in rows :: rows[i].route != route
      {
        if id in rows && rows[id].route == route {
          return Some(id);
        }
      }
      found := None;
    }

    /** The oldest online runtime of a daemon, which receives what concerns the daemon
        itself; 0 if none is online. */
    method FirstRuntimeIdForDaemon(space: string, daemon: string, owner: string) returns (first: int)
      requires Valid()
      ensures first == 0 <==> forall id | id in rows ::
              !(OfDaemon(rows[id], space, daemon, owner) && rows[id].status == ONLINE)
      ensures first != 0 ==>
                && first in rows && OfDaemon(rows[first], space, daemon, owner) && rows[first].status == ONLINE
                && forall id | id in rows && OfDaemon(rows[id], space, daemon, owner) && rows[id].status == ONLINE ::
                    first <= id
      ensures first == 0 || (first in rows && rows[first].route.(kind := "") == Route(space, daemon, "", owner))
      ensures forall id | id in rows && rows[id].route.(kind := "") == Route(space, daemon, "", owner)
              && rows[id].status == "online" :: 0 < first <= id
    {
      for id := 1 to nextId
        invariant forall i | 0 < i < id && i in rows ::
                  !(OfDaemon(rows[i], space, daemon, owner) && rows[i].status == ONLINE)
      {
        if id in rows && OfDaemon(rows[id], space, daemon, owner) && rows[id].status == ONLINE {
          return id;
        }
      }
      first := 0;
    }

    method UpdateHeartbeat(id: int, now: int)
      requires Valid()
      modifies this
      ensures Valid() && nextId == old(nextId)
      ensures rows == if id in old(rows) then old(rows)[id := old(rows)[id].(status := ONLINE, lastSeen := now)]
              else old(rows)
    {
      if id in rows {
        rows := rows[id := rows[id].(status := ONLINE, lastSeen := now)];
      }
    }

    method SetOffline(ids: set<int>)
      requires Valid()
      modifies this
      ensures Valid() && nextId == old(nextId) && rows == TurnedOff(old(rows), ids)
      ensures rows.Keys == old(rows).Keys
      ensures forall id | id in rows :: rows[id] == if id in ids then old(rows)[id].(status := "offline")
              else old(rows)[id]
    {
      rows := TurnedOff(rows, ids);
    }

    method DeleteById(id: int)
      requires Valid()
      modifies this
      ensures Valid() && nextId == old(nextId) && rows == old(rows) - {id}
    {
      rows := rows - {id};
    }

    /** The runtime half of a sweeper pass: stale rows go offline, rows offline for too
        long are deleted. */
    method Sweep(defaultMs: int, gcSeconds: int, now: int)
      requires Valid()
      modifies this
      ensures Valid() && nextId == old(nextId)
      ensures rows == SweptRows(old(rows), defaultMs, gcSeconds, now)
      ensures forall id | id in old(rows) && !Stale(old(rows)[id], defaultMs, now)
              && !Expired(old(rows)[id], now - gcSeconds) ::
                id in rows && rows[id] == old(rows)[id]
      ensures forall id | id in rows :: !Stale(rows[id], defaultMs, now) && !Expired(rows[id], now - gcSeconds)
    {
      rows := map id | id in rows :: if Stale(rows[id], defaultMs, now) then rows[id].(status := OFFLINE) else rows[id];
      assert forall id | id in rows :: rows[id] == Marked(old(rows)[id], defaultMs, now);
      rows := map id | id in rows && !Expired(rows[id], now - gcSeconds) :: rows[id];
    }
  }

  /** What a sweep does to a row: one silent for more than three intervals is turned off, one
      that is off by then and was last seen before the cutoff is deleted, and no other row
      is touched. */
  lemma SweptRowIs(rows: Rows, defaultMs: int, gcSeconds: int, now: int, id: int)
    requires id in rows
    ensures var row, swept := rows[id], SweptRows(rows, defaultMs, gcSeconds, now);
            var interval := if row.intervalMs > 0 then row.intervalMs else defaultMs;
            var silent := row.status == "online" && 1000 * (now - row.lastSeen) > 3 * interval;
            && (id in swept <==> !((silent || row.status == "offline") && now - row.lastSeen > gcSeconds))
            && (id in swept ==> swept[id] == if silent then row.(status := "offline") else row)
  {
  }

  predicate OfDaemon(row: Runtime, space: string, daemon: string, owner: string) {
    row.route.space == space && row.route.daemon == daemon && row.route.owner == owner
  }

  function TurnedOff(rows: Rows, ids: set<int>): Rows {
    map id | id in rows :: if id in ids then rows[id].(status := OFFLINE) else rows[id]
  }
}
