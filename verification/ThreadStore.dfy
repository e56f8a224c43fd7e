/** apps/control-plane/src/thread-store.ts: context threads and the events they collect. */
module ThreadStore {
  import opened Wrappers
  import opened Schema

  /** The open threads of a channel and key; the partial unique index keeps this to at most one. */
  function OpenThreads(t: Tables, channelId: string, contextKey: string): set<string> {
    set id <- t.threads | t.threads[id].channelId == channelId && t.threads[id].contextKey == contextKey
                       && t.threads[id].status == Open
  }

  /** Appends an event to thread `id`: one of the open ones, or a new one when there is none. */
  function Append(t: Tables, id: string, channelId: string, contextKey: string, payload: string,
                  agent: Option<string>, now: int): Tables
  {
    var row :=
      if id in OpenThreads(t, channelId, contextKey)
      then t.threads[id].(eventSeq := t.threads[id].eventSeq + 1, lastEventAt := now)
      else ThreadRow(channelId, contextKey, Open, agent, 1, 0, now);
    t.(threads := t.threads[id := row],
       threadEvents := t.threadEvents[id := ThreadEventsOf(t, id) + [ThreadEvent(payload, now)]])
  }

  /** A thread the append may end up in, given the UUID it would draw for a new one. */
  predicate Target(t: Tables, id: string, channelId: string, contextKey: string) {
    if OpenThreads(t, channelId, contextKey) != {} then id in OpenThreads(t, channelId, contextKey)
    else id !in t.threads
  }

  predicate IsDue(t: Tables, id: string, channelId: string, debounceMs: nat, now: int) {
    && id in t.threads
    && var row := t.threads[id];
       && row.channelId == channelId && row.status == Open
       && row.lastEventAt <= now - debounceMs && row.interpretedSeq < row.eventSeq
  }

  function DueSet(t: Tables, channelId: string, debounceMs: nat, now: int): set<string> {
    set id <- t.threads | IsDue(t, id, channelId, debounceMs, now)
  }

  /** Oldest last event first. */
  ghost predicate Ordered(t: Tables, ids: seq<string>) {
    && (forall i :: 0 <= i < |ids| ==> ids[i] in t.threads)
    && (forall i, j :: 0 <= i < j < |ids| ==> t.threads[ids[i]].lastEventAt <= t.threads[ids[j]].lastEventAt)
  }

  /** Sets the mark unconditionally; an UPDATE of no row does nothing. */
  function MarkInterpreted(t: Tables, id: string, interpretedSeq: nat): Tables {
    if id in t.threads then t.(threads := t.threads[id := t.threads[id].(interpretedSeq := interpretedSeq)]) else t
  }

  /** Closes a thread, whatever its status. */
  function Close(t: Tables, id: string, status: ThreadStatus): Tables {
    if id in t.threads then t.(threads := t.threads[id := t.threads[id].(status := status)]) else t
  }

  function Stale(t: Tables, channelId: string, ttlSeconds: nat, now: int): set<string> {
    set id <- t.threads | t.threads[id].channelId == channelId && t.threads[id].status == Open
                       && t.threads[id].lastEventAt < now - 1000 * ttlSeconds
  }

  function CloseAll(t: Tables, ids: set<string>, status: ThreadStatus): Tables {
    t.(threads := map id <- t.threads :: if id in ids then t.threads[id].(status := status) else t.threads[id])
  }

  class ThreadStore {
    const db: Database

    constructor (db: Database)
      ensures this.db == db
    {
      this.db := db;
    }

    /** `freshId` is the UUID a new thread would get. The transaction rolls back when a constraint fails. */
    method AppendEvent(channelId: string, contextKey: string, payload: string, agent: Option<string>,
                       freshId: string, now: int)
      returns (threadId: Option<string>)
      modifies db
      ensures threadId.None? <==>
        && OpenThreads(old(db.Snapshot()), channelId, contextKey) == {}
        && (freshId in old(db.threads) || channelId !in old(db.channels))
      ensures threadId.None? ==> db.Snapshot() == old(db.Snapshot())
      ensures threadId.Some? ==>
        && Target(old(db.Snapshot()), threadId.value, channelId, contextKey)
        && (OpenThreads(old(db.Snapshot()), channelId, contextKey) == {} ==> threadId == Some(freshId))
        && db.Snapshot() == Append(old(db.Snapshot()), threadId.value, channelId, contextKey, payload, agent, now)
    {
      var t := db.Snapshot();
      var open := OpenThreads(t, channelId, contextKey);
      var id := freshId;
      if open != {} {
        id :| id in open;
        var row := db.threads[id];
        db.threads := db.threads[id := row.(eventSeq := row.eventSeq + 1, lastEventAt := now)];
      } else {
        if freshId in db.threads || channelId !in db.channels {
          return None;
        }
        db.threads := db.threads[id := ThreadRow(channelId, contextKey, Open, agent, 1, 0, now)];
      }
      db.threadEvents := db.threadEvents[id := ThreadEventsOf(t, id) + [ThreadEvent(payload, now)]];
      threadId := Some(id);
    }

    /** The due threads, oldest last event first. */
    method DueForInterpretation(channelId: string, debounceMs: nat, now: int) returns (due: seq<string>)
      ensures Enumerates(due, DueSet(db.Snapshot(), channelId, debounceMs, now))
      ensures Ordered(db.Snapshot(), due)
      ensures forall id :: id in due <==>
        && id in db.threads && db.threads[id].channelId == channelId && db.threads[id].status == Open
        && db.threads[id].lastEventAt + debounceMs <= now
        && db.threads[id].interpretedSeq < db.threads[id].eventSeq
    {
      var t := db.Snapshot();
      var rest := DueSet(t, channelId, debounceMs, now);
      due := [];
      while rest != {}
        invariant rest <= DueSet(t, channelId, debounceMs, now)
        invariant Enumerates(due, DueSet(t, channelId, debounceMs, now) - rest)
        invariant Ordered(t, due)
        invariant forall i, x :: 0 <= i < |due| && x in rest ==>
          t.threads[due[i]].lastEventAt <= t.threads[x].lastEventAt
        decreases rest
      {
        ghost var least := LeastRecent(t, rest);
        var id :| id in rest && forall other <- rest :: t.threads[id].lastEventAt <= t.threads[other].lastEventAt;
        due, rest := due + [id], rest - {id};
      }
    }

    method MarkThread(id: string, interpretedSeq: nat)
      modifies db
      ensures db.Snapshot() == MarkInterpreted(old(db.Snapshot()), id, interpretedSeq)
    {
      if id in db.threads {
        db.threads := db.threads[id := db.threads[id].(interpretedSeq := interpretedSeq)];
      }
    }

    method CloseThread(id: string, status: ThreadStatus)
      modifies db
      ensures db.Snapshot() == Close(old(db.Snapshot()), id, status)
    {
      if id in db.threads {
        db.threads := db.threads[id := db.threads[id].(status := status)];
      }
    }

    method ExpireStale(channelId: string, ttlSeconds: nat, now: int) returns (expired: seq<string>)
      modifies db
      ensures Enumerates(expired, Stale(old(db.Snapshot()), channelId, ttlSeconds, now))
      ensures db.Snapshot()
           == CloseAll(old(db.Snapshot()), Stale(old(db.Snapshot()), channelId, ttlSeconds, now), Expired)
      ensures forall id :: id in expired <==>
        && id in old(db.threads) && old(db.threads)[id].status == Open && old(db.threads)[id].channelId == channelId
        && old(db.threads)[id].lastEventAt + 1000 * ttlSeconds < now
      ensures db.Snapshot() == old(db.Snapshot()).(threads := db.threads) && db.threads.Keys == old(db.threads).Keys
      ensures forall id <- old(db.threads) ::
        if id in expired then db.threads[id] == old(db.threads)[id].(status := Expired)
        else db.threads[id] == old(db.threads)[id]
    {
      var t := db.Snapshot();
      expired := Enumerate(Stale(t, channelId, ttlSeconds, now));
      for i := 0 to |expired|
        invariant db.Snapshot() == t.(threads := db.threads)
        invariant db.threads == map id <- t.threads ::
          if id in expired[..i] then t.threads[id].(status := Expired) else t.threads[id]
      {
        CloseThread(expired[i], Expired);
      }
      assert expired[..|expired|] == expired;
    }
  }

  lemma {:induction false} LeastRecent(t: Tables, ids: set<string>) returns (id: string)
    requires ids <= t.threads.Keys && ids != {}
    ensures id in ids && forall other <- ids :: t.threads[id].lastEventAt <= t.threads[other].lastEventAt
    decreases ids
  {
    id :| id in ids;
    if ids != {id} {
      var rest := LeastRecent(t, ids - {id});
      id := if t.threads[rest].lastEventAt < t.threads[id].lastEventAt then rest else id;
    }
  }
}
