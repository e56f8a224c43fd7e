/** What the moves on context threads do to the tables, in terms of their columns. */
module ThreadEffects {
  import opened Wrappers
  import opened Schema
  import opened ThreadStore
  import opened Pipeline
  import opened PipelineRuns

  /** An event goes to the open thread of its channel and key; only when there is none, to a new one. */
  lemma IngestTells(p: System, id: string, channelId: string, contextKey: string, payload: string,
                    agent: Option<string>)
    ensures May(p, Ingest(id, channelId, contextKey, payload, agent)) <==>
      && channelId in p.store.t.channels
      && (id in p.store.t.threads ==>
            var row := p.store.t.threads[id];
            row.status == Open && row.channelId == channelId && row.contextKey == contextKey)
      && (id !in p.store.t.threads ==>
            forall x <- p.store.t.threads ::
              var row := p.store.t.threads[x];
              row.status != Open || row.channelId != channelId || row.contextKey != contextKey)
    ensures May(p, Ingest(id, channelId, contextKey, payload, agent)) ==>
      var t, q := p.store.t, After(p, Ingest(id, channelId, contextKey, payload, agent));
      var row := if id in t.threads
                 then t.threads[id].(eventSeq := t.threads[id].eventSeq + 1, lastEventAt := p.store.now)
                 else ThreadRow(channelId, contextKey, Open, agent, 1, 0, p.store.now);
      q == WithTables(p, t.(threads := t.threads[id := row],
                            threadEvents := t.threadEvents[id := ThreadEventsOf(t, id)
                                                                 + [ThreadEvent(payload, p.store.now)]]))
  {
    var t := p.store.t;
    forall x <- t.threads
      ensures x in OpenThreads(t, channelId, contextKey) <==>
        t.threads[x].status == Open && t.threads[x].channelId == channelId && t.threads[x].contextKey == contextKey
    {}
    if May(p, Ingest(id, channelId, contextKey, payload, agent)) {
      AppendFrame(t, id, channelId, contextKey, payload, agent, p.store.now);
    }
  }

  /**
    * An expiry closes exactly the open threads of the channel whose last event lies further back
    * than the time to live; a thread with a younger event stays as it is.
    */
  lemma ExpiryTells(p: System, channelId: string, ttlSeconds: nat)
    ensures var t, q := p.store.t, After(p, Expire(channelId, ttlSeconds));
      && q == WithTables(p, t.(threads := q.store.t.threads)) && q.store.t.threads.Keys == t.threads.Keys
      && forall id <- t.threads ::
           var row := t.threads[id];
           q.store.t.threads[id] ==
             if row.status == Open && row.channelId == channelId && row.lastEventAt + 1000 * ttlSeconds < p.store.now
             then row.(status := Expired) else row
  {}

  /** The threads a call may list: open, quiet for the debounce time, with events beyond the mark; each once. */
  lemma ListingTells(p: System, rid: string, channelId: string, debounceMs: nat, order: seq<string>)
    requires May(p, StartScan(rid, channelId, debounceMs, order))
    ensures forall id :: id in order <==>
      && id in p.store.t.threads
      && var row := p.store.t.threads[id];
         && row.status == Open && row.channelId == channelId && row.interpretedSeq < row.eventSeq
         && row.lastEventAt + debounceMs <= p.store.now
    ensures forall i, j :: 0 <= i < j < |order| ==>
      && order[i] != order[j] && order[i] in p.store.t.threads && order[j] in p.store.t.threads
      && p.store.t.threads[order[i]].lastEventAt <= p.store.t.threads[order[j]].lastEventAt
  {
    forall id
      ensures id in order <==> id in DueSet(p.store.t, channelId, debounceMs, p.store.now)
    {}
  }

  // ----- Whole calls -----

  /** How many of the threads no other call is busy with. */
  function Unbusy(due: seq<DueThread>, busy: set<string>): (n: nat)
    ensures n <= |due|
  {
    if due == [] then 0 else Unbusy(due[..|due| - 1], busy) + if due[|due| - 1].id in busy then 0 else 1
  }

  /**
    * runDue counts the threads it got through, failed interpretations included: all that no other
    * call is busy with, or, when creating a task throws, those before that thread.
    */
  lemma {:induction false} RunDueCounts(t: Tables, channelId: string, due: seq<DueThread>, busy: set<string>,
                                        turns: string -> Turn, now: int)
    ensures var done := InterpretAll(t, channelId, due, busy, turns, now);
      if done.ok then done.handled == Unbusy(due, busy)
      else exists k :: 0 <= k < |due| && due[k].id !in busy && done.handled == Unbusy(due[..k], busy)
    decreases |due|
  {
    if due != [] {
      var n := |due| - 1;
      RunDueCounts(t, channelId, due[..n], busy, turns, now);
      var before := InterpretAll(t, channelId, due[..n], busy, turns, now);
      if !before.ok {
        var k :| 0 <= k < n && due[..n][k].id !in busy && before.handled == Unbusy(due[..n][..k], busy);
        assert due[..n][..k] == due[..k];
      }
    }
  }

  /** It leaves alone what others are busy with, and what is not in its list. */
  lemma {:induction false} RunDueLeaves(t: Tables, channelId: string, due: seq<DueThread>, busy: set<string>,
                                        turns: string -> Turn, now: int, x: string)
    requires x in t.threads && forall i :: 0 <= i < |due| ==> due[i].id == x ==> x in busy
    ensures var u := InterpretAll(t, channelId, due, busy, turns, now).tables;
      x in u.threads && u.threads[x] == t.threads[x] && u.threadEvents == t.threadEvents
    decreases |due|
  {
    if due != [] {
      var n := |due| - 1;
      RunDueLeaves(t, channelId, due[..n], busy, turns, now, x);
      var before := InterpretAll(t, channelId, due[..n], busy, turns, now);
      if before.ok && due[n].id !in busy {
        InterpretLeaves(before.tables, channelId, due[n], turns(due[n].id), now, x);
      }
    }
  }

  lemma InterpretLeaves(t: Tables, channelId: string, thread: DueThread, turn: Turn, now: int, x: string)
    requires x in t.threads && x != thread.id
    ensures var (u, _) := Interpret(t, channelId, thread, turn, now);
      x in u.threads && u.threads[x] == t.threads[x] && u.threadEvents == t.threadEvents
  {
    if turn.verdict.Some? {
      JudgeOne(t, thread, turn.verdict.value);
    }
  }
}
