/** What the operations on channels do to the channel table and its cache, in terms of their columns. */
module ChannelEffects {
  import opened Wrappers
  import opened Schema
  import opened ChannelPurge
  import opened ChannelRegistry

  /** Nothing but this channel's row and its cache entry differs. */
  predicate OnlyChannel(r: Registry, q: Registry, id: string) {
    q.channels - {id} == r.channels - {id} && q.runtimes - {id} == r.runtimes - {id}
  }

  /** What a running channel needs: an id, a label and a key, and a url when it is interpreted over HTTP. */
  predicate CanRun(id: string, labelName: string, key: string, interpreter: Interpreter) {
    |id| > 0 && |labelName| > 0 && |key| > 0 && !(interpreter.mode.Http? && interpreter.http.None?)
  }

  /**
    * Registering: refused for a channel in the cache; otherwise the row is written with a new key,
    * enabled, under its label or else its id, and the channel runs if it can.
    */
  lemma CreationTells(r: Registry, id: string, labelName: Option<string>, interpreter: Option<Interpreter>,
                      random: string, now: int)
    ensures var (q, result) := Created(r, id, labelName, interpreter, random, now);
      && OnlyChannel(r, q, id)
      && if id in r.runtimes then q == r && result == Err(ChannelExists(id))
         else if interpreter.None? then q == r && result == Err(InvalidInterpreter)
         else
           var shown, key := if labelName.Some? then labelName.value else id, "ch_" + random;
           var since := if id in r.channels then r.channels[id].createdAt else now;
           && id in q.channels
           && q.channels[id] == ChannelRow(shown, key, interpreter.value, FromApi, since, None)
           && if CanRun(id, shown, key, interpreter.value)
              then result == Ok(key) && id in q.runtimes && q.runtimes[id] == Runtime(shown, key, interpreter.value)
              else result == Err(CannotBuild) && id !in q.runtimes
  {}

  /**
    * Editing: only a channel of the screen; a label that is not blank and a valid interpreter take
    * the place of what the row holds, everything else in it stays; a disabled channel is not
    * brought back, an enabled one runs with the new row if it can.
    */
  lemma UpdateTells(r: Registry, id: string, labelName: Option<string>, change: Option<Option<Interpreter>>)
    ensures var (q, error) := Updated(r, id, labelName, change);
      && OnlyChannel(r, q, id)
      && if id !in r.channels then q == r && error == Some(ChannelNotFound(id))
         else if r.channels[id].source == FromConfig then q == r && error == Some(ChannelNotEditable(id))
         else if change == Some(None) then q == r && error == Some(InvalidInterpreter)
         else
           var old_, row := r.channels[id], q.channels[id];
           && id in q.channels
           && row == old_.(labelName := row.labelName, interpreter := row.interpreter)
           && row.labelName == (if labelName.Some? && !AllSpace(labelName.value) then Trim(labelName.value)
                                else old_.labelName)
           && row.interpreter == (if change.Some? then change.value.value else old_.interpreter)
           && if old_.disabledAt.Some? then q.runtimes == r.runtimes && error == None
              else if CanRun(id, row.labelName, row.key, row.interpreter)
              then error == None
                   && q.runtimes == r.runtimes[id := Runtime(row.labelName, row.key, row.interpreter)]
              else error == Some(CannotBuild) && q.runtimes == r.runtimes
  {
    if labelName.Some? {
      BlankTells(labelName.value);
    }
  }

  /** A new key: only for a channel of the screen, in the row and, if it can run, in the cache. */
  lemma RotationTells(r: Registry, id: string, random: string)
    ensures var (q, result) := Rotated(r, id, random);
      if id !in r.channels then q == r && result == Err(ChannelNotFound(id))
      else if r.channels[id].source == FromConfig then q == r && result == Err(ChannelNotEditable(id))
      else
        var row := r.channels[id].(key := "ch_" + random);
        && q.channels == r.channels[id := row]
        && if CanRun(id, row.labelName, row.key, row.interpreter)
           then result == Ok("ch_" + random)
                && q.runtimes == r.runtimes[id := Runtime(row.labelName, row.key, row.interpreter)]
           else result == Err(CannotBuild) && q.runtimes == r.runtimes
  {}

  /** Switching off: only a channel of the screen; the row stays with the time, the cache entry goes. */
  lemma DisablingTells(r: Registry, id: string, now: int)
    ensures var (q, error) := Disabled(r, id, now);
      if id !in r.channels then q == r && error == Some(ChannelNotFound(id))
      else if r.channels[id].source == FromConfig then q == r && error == Some(ChannelNotEditable(id))
      else
        && error == None && q.channels == r.channels[id := r.channels[id].(disabledAt := Some(now))]
        && q.runtimes == r.runtimes - {id}
  {}

  /** A start fails exactly on an enabled row that cannot run, and caches exactly the enabled rows. */
  lemma LoadTells(channels: map<string, ChannelRow>)
    ensures Loadable(channels) <==>
      forall id <- channels :: channels[id].disabledAt.None? ==>
        CanRun(id, channels[id].labelName, channels[id].key, channels[id].interpreter)
    ensures forall id :: id in Rebuild(channels) <==> id in channels && channels[id].disabledAt.None?
    ensures forall id <- Rebuild(channels) ::
      Rebuild(channels)[id] == Runtime(channels[id].labelName, channels[id].key, channels[id].interpreter)
  {}

  /** A key opens a running channel that holds it; no key, or an empty one, opens none. */
  lemma AuthenticateTells(runtimes: map<string, Runtime>, id: string, key: Option<string>)
    ensures Authenticate(runtimes, id, key).Some? <==>
      key.Some? && |key.value| > 0 && id in runtimes && key.value == runtimes[id].key
    ensures Authenticate(runtimes, id, key).Some? ==> Authenticate(runtimes, id, key).value == runtimes[id]
  {}

  // ----- The foreign keys -----

  /**
    * Why the statements of a purge come in their order: each alone is refused exactly while
    * something still refers to what it deletes.
    */
  lemma TaskKeysBite(t: Tables, channelId: string, ref: string)
    requires ForeignKeysOk(t)
    ensures ForeignKeysOk(Delete(t, DeleteTaskEvents(channelId)))
    ensures ForeignKeysOk(Delete(t, DeleteTasks(channelId))) <==>
      forall id <- t.tasks :: t.tasks[id].channelId == channelId ==> id !in t.taskEvents
    ensures ForeignKeysOk(Delete(t, DeletePayload(ref))) <==> forall id <- t.tasks :: t.tasks[id].payloadRef != ref
  {}

  lemma ThreadKeysBite(t: Tables, channelId: string)
    requires ForeignKeysOk(t)
    ensures ForeignKeysOk(Delete(t, DeleteThreadEvents(channelId)))
    ensures ForeignKeysOk(Delete(t, DeleteThreads(channelId))) <==>
      forall id <- t.threads :: t.threads[id].channelId == channelId ==> id !in t.threadEvents
  {}

  lemma ChannelKeysBite(t: Tables, channelId: string)
    requires ForeignKeysOk(t)
    ensures ForeignKeysOk(Delete(t, DeleteChannel(channelId))) <==>
      && (forall id <- t.tasks :: t.tasks[id].channelId != channelId)
      && (forall id <- t.threads :: t.threads[id].channelId != channelId)
  {}
}
