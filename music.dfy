/**
 * The music cog's per-guild state: a queue of requested strings and a
 * voice connection for every guild, both held in dictionaries keyed by
 * guild id. Each command is one atomic step; the resolver is `Sources`,
 * and the voice connection is reduced to its `playing`/`paused` flags.
 */
module Music {
  import opened Wrappers
  import opened Sources

  /** A voice connection as the cog observes it through `is_playing()` and `is_paused()`. */
  datatype Client = Client(playing: bool, paused: bool)

  /** A connected client with no player attached, or whose last track has ended. */
  const Idle: Client := Client(false, false)

  /** `pause()` suspends a playing player and does nothing otherwise. */
  function Paused(c: Client): (r: Client)
  {
    if c.playing then Client(false, true) else c
  }

  /** `resume()` restarts a paused player and does nothing otherwise. */
  function Resumed(c: Client): (r: Client)
  {
    if c.paused then Client(true, false) else c
  }

  /** Resuming right after pausing a playing client gives back the same client. */
  lemma PauseThenResume(c: Client)
    requires c.playing && !c.paused
    ensures Resumed(Paused(c)) == c
  {
  }

  /** The queue stored for a guild, or the empty list `play` would create. */
  function QueueOf(queues: map<int, seq<string>>, guild: int): (r: seq<string>)
  {
    if guild in queues then queues[guild] else []
  }

  // ---------------------------------------------------------------------
  // The drain loop of `play`, as a function of the queue it starts from
  // ---------------------------------------------------------------------

  /**
   * What draining a queue does: the streams handed to the player in order,
   * the entries still queued when it stops, and whether it stopped because
   * an entry could not be resolved (the exception `play` catches).
   */
  datatype Drained = Drained(played: seq<string>, rest: seq<string>, failed: bool)

  /** Pops entries from the head and plays each one until the queue is empty or one fails. */
  function Drain(queue: seq<string>, svc: Services): (r: Drained)
    decreases |queue|
  {
    if |queue| == 0 then Drained([], [], false)
    else match AudioStream(queue[0], svc)
      case None => Drained([], queue[1..], true)
      case Some(stream) =>
        var d := Drain(queue[1..], svc);
        d.(played := [stream] + d.played)
  }

  /**
   * Draining plays entries in FIFO order. If no entry fails the whole queue
   * is played and nothing is left; otherwise the first unresolvable entry
   * is the one after the played prefix, it is dropped (it was already
   * popped), and the entries behind it stay queued in their order.
   */
  lemma {:induction false} DrainIsFifo(queue: seq<string>, svc: Services)
    ensures |Drain(queue, svc).played| <= |queue|
    ensures forall i :: 0 <= i < |Drain(queue, svc).played| ==>
              AudioStream(queue[i], svc) == Some(Drain(queue, svc).played[i])
    ensures !Drain(queue, svc).failed ==> |Drain(queue, svc).played| == |queue| && Drain(queue, svc).rest == []
    ensures Drain(queue, svc).failed ==>
              var k := |Drain(queue, svc).played|;
              k < |queue| && AudioStream(queue[k], svc).None? && Drain(queue, svc).rest == queue[k + 1..]
    decreases |queue|
  {
    if |queue| > 0 && AudioStream(queue[0], svc).Some? {
      DrainIsFifo(queue[1..], svc);
      var d := Drain(queue[1..], svc);
      assert Drain(queue, svc).played == [AudioStream(queue[0], svc).value] + d.played;
      if d.failed {
        assert queue[1..][|d.played| + 1..] == queue[|d.played| + 2..];
      }
    }
  }

  /** A drain fails exactly when some queued entry cannot be resolved. */
  lemma DrainFailsIff(queue: seq<string>, svc: Services)
    ensures Drain(queue, svc).failed <==> exists i :: 0 <= i < |queue| && AudioStream(queue[i], svc).None?
  {
    DrainIsFifo(queue, svc);
    var d := Drain(queue, svc);
    if !d.failed {
      forall i | 0 <= i < |queue| ensures AudioStream(queue[i], svc).Some? {
        assert AudioStream(queue[i], svc) == Some(d.played[i]);
      }
    }
  }

  /** Results of `skip`, which has more outcomes than the other commands. */
  datatype SkipOutcome =
    | Skipped(stream: string)   // the former head of the queue is now playing
    | Stopped                   // the queue was empty, so skip fell through to stop
    | NothingPlaying            // nothing was playing; nothing changed
    | SkipFailed(error: Error)  // an uncaught exception ended the command

  /** Results of the other commands. */
  datatype Status = Done | Declined | Failed(error: Error)

  /**
   * In a cog whose connections keep the flags exclusive, pausing and then
   * resuming any playing connection gives back that same connection.
   */
  lemma {:induction false} PauseThenResumeInCog(cog: MusicCog, guild: int)
    requires cog.Valid()
    requires guild in cog.voiceClients && cog.voiceClients[guild].playing
    ensures Resumed(Paused(cog.voiceClients[guild])) == cog.voiceClients[guild]
  {
    PauseThenResume(cog.voiceClients[guild]);
  }

  class MusicCog {
    var queues: map<int, seq<string>>
    var voiceClients: map<int, Client>

    /** No connection is ever both playing and paused. */
    ghost predicate Valid()
      reads this
    {
      forall g :: g in voiceClients ==> !(voiceClients[g].playing && voiceClients[g].paused)
    }

    constructor ()
      ensures Valid()
      ensures queues == map[] && voiceClients == map[]
    {
      queues := map[];
      voiceClients := map[];
    }

    /**
     * `play`: a user outside any voice channel is refused. A guild that is
     * already connected only gets the request appended to its queue. An
     * unconnected guild connects (`connects` says whether the connection
     * succeeds), registers one idle client, appends the request and drains
     * the queue, each track running to its end before the next one starts.
     * A failed connection or resolution is caught and logged.
     */
    method Play(guild: int, inVoice: bool, connects: bool, url: string, svc: Services)
      returns (played: seq<string>)
      requires Valid()
      modifies this
      ensures Valid()
      ensures !inVoice ==> queues == old(queues) && voiceClients == old(voiceClients) && played == []
      ensures inVoice && guild in old(voiceClients) ==>
                && queues == old(queues)[guild := QueueOf(old(queues), guild) + [url]]
                && voiceClients == old(voiceClients)
                && played == []
      ensures inVoice && guild !in old(voiceClients) && !connects ==>
                queues == old(queues) && voiceClients == old(voiceClients) && played == []
      ensures inVoice && guild !in old(voiceClients) && connects ==>
                var d := Drain(QueueOf(old(queues), guild) + [url], svc);
                && voiceClients == old(voiceClients)[guild := Idle]
                && queues == old(queues)[guild := d.rest]
                && played == d.played
    {
      played := [];
      if !inVoice {
        return;
      }
      if guild in voiceClients {
        queues := queues[guild := QueueOf(queues, guild) + [url]];
        return;
      }
      if !connects {
        return;
      }
      voiceClients := voiceClients[guild := Idle];
      queues := queues[guild := QueueOf(queues, guild) + [url]];
      ghost var all := queues[guild];
      while |queues[guild]| > 0
        invariant guild in queues && voiceClients == old(voiceClients)[guild := Idle]
        invariant queues == old(queues)[guild := queues[guild]]
        invariant Drain(all, svc) == Drain(queues[guild], svc).(played := played + Drain(queues[guild], svc).played)
        decreases |queues[guild]|
      {
        var next := queues[guild][0];
        queues := queues[guild := queues[guild][1..]];
        var stream := AudioStream(next, svc);
        if stream.None? {
          return;
        }
        played := played + [stream.value];
      }
    }

    /**
     * `skip`: when the guild's client is playing, stop it and start the head
     * of the queue, or stop the whole session when the queue is empty.
     * Looking up a guild without a client or without a queue raises, and a
     * head that cannot be resolved raises after it has been popped; `skip`
     * catches neither.
     */
    method Skip(guild: int, svc: Services) returns (outcome: SkipOutcome)
      requires Valid()
      modifies this
      ensures Valid()
      ensures guild !in old(voiceClients) ==>
                outcome == SkipFailed(KeyMissing) && queues == old(queues) && voiceClients == old(voiceClients)
      ensures guild in old(voiceClients) && !old(voiceClients)[guild].playing ==>
                outcome == NothingPlaying && queues == old(queues) && voiceClients == old(voiceClients)
      ensures guild in old(voiceClients) && old(voiceClients)[guild].playing && guild !in old(queues) ==>
                outcome == SkipFailed(KeyMissing) && queues == old(queues)
                && voiceClients == old(voiceClients)[guild := Idle]
      ensures guild in old(voiceClients) && old(voiceClients)[guild].playing && guild in old(queues)
              && |old(queues)[guild]| == 0 ==>
                outcome == Stopped && queues == old(queues) - {guild} && voiceClients == old(voiceClients) - {guild}
      ensures guild in old(voiceClients) && old(voiceClients)[guild].playing && guild in old(queues)
              && |old(queues)[guild]| > 0 ==>
                && queues == old(queues)[guild := old(queues)[guild][1..]]
                && match AudioStream(old(queues)[guild][0], svc)
                   case None =>
                     outcome == SkipFailed(Unresolvable) && voiceClients == old(voiceClients)[guild := Idle]
                   case Some(stream) =>
                     outcome == Skipped(stream) && voiceClients == old(voiceClients)[guild := Client(true, false)]
    {
      if guild !in voiceClients {
        return SkipFailed(KeyMissing);
      }
      if !voiceClients[guild].playing {
        return NothingPlaying;
      }
      voiceClients := voiceClients[guild := Idle];
      if guild !in queues {
        return SkipFailed(KeyMissing);
      }
      if |queues[guild]| > 0 {
        var next := queues[guild][0];
        queues := queues[guild := queues[guild][1..]];
        var stream := AudioStream(next, svc);
        if stream.None? {
          return SkipFailed(Unresolvable);
        }
        voiceClients := voiceClients[guild := Client(true, false)];
        outcome := Skipped(stream.value);
      } else {
        var _ := Stop(guild);
        outcome := Stopped;
      }
    }

    /** `shuffle`: a queue of two or more entries is permuted; a shorter one is left alone. */
    method Shuffle(guild: int) returns (status: Status)
      requires Valid()
      modifies this
      ensures Valid()
      ensures voiceClients == old(voiceClients)
      ensures guild !in old(queues) ==> status == Failed(KeyMissing) && queues == old(queues)
      ensures guild in old(queues) && |old(queues)[guild]| <= 1 ==> status == Declined && queues == old(queues)
      ensures guild in old(queues) && |old(queues)[guild]| > 1 ==>
                && status == Done
                && guild in queues
                && queues == old(queues)[guild := queues[guild]]
                && |queues[guild]| == |old(queues)[guild]|
                && multiset(queues[guild]) == multiset(old(queues)[guild])
    {
      if guild !in queues {
        return Failed(KeyMissing);
      }
      var q := queues[guild];
      if |q| > 1 {
        assert multiset(q) == multiset(q);
        var shuffled :| multiset(shuffled) == multiset(q);
        assert |shuffled| == |multiset(shuffled)| == |q|;
        queues := queues[guild := shuffled];
        status := Done;
      } else {
        status := Declined;
      }
    }

    /**
     * `move`: the reordering is left as a TODO in the source, and the
     * command fails before reaching it because it subtracts 1 from its
     * string arguments. Nothing changes.
     */
    method Move(guild: int, index1: string, index2: string) returns (status: Status)
      ensures status == Failed(BadArgument)
    {
      status := Failed(BadArgument);
    }

    /** `pause`: pauses the guild's client; a guild without one is logged and left alone. */
    method Pause(guild: int) returns (status: Status)
      requires Valid()
      modifies this
      ensures Valid()
      ensures queues == old(queues)
      ensures guild !in old(voiceClients) ==> status == Failed(KeyMissing) && voiceClients == old(voiceClients)
      ensures guild in old(voiceClients) ==>
                status == Done && voiceClients == old(voiceClients)[guild := Paused(old(voiceClients)[guild])]
    {
      if guild !in voiceClients {
        return Failed(KeyMissing);
      }
      voiceClients := voiceClients[guild := Paused(voiceClients[guild])];
      status := Done;
    }

    /** `resume`: resumes the guild's client; a guild without one is logged and left alone. */
    method Resume(guild: int) returns (status: Status)
      requires Valid()
      modifies this
      ensures Valid()
      ensures queues == old(queues)
      ensures guild !in old(voiceClients) ==> status == Failed(KeyMissing) && voiceClients == old(voiceClients)
      ensures guild in old(voiceClients) ==>
                status == Done && voiceClients == old(voiceClients)[guild := Resumed(old(voiceClients)[guild])]
    {
      if guild !in voiceClients {
        return Failed(KeyMissing);
      }
      voiceClients := voiceClients[guild := Resumed(voiceClients[guild])];
      status := Done;
    }

    /**
     * `stop`: stops and disconnects the guild's client, then deletes its
     * client and its queue. A missing client raises before anything is
     * deleted; a missing queue raises after the client entry is gone. Both
     * are caught and logged. Other guilds are untouched.
     */
    method Stop(guild: int) returns (ok: bool)
      requires Valid()
      modifies this
      ensures Valid()
      ensures guild !in old(voiceClients) ==> !ok && queues == old(queues) && voiceClients == old(voiceClients)
      ensures guild in old(voiceClients) ==>
                && ok == (guild in old(queues))
                && voiceClients == old(voiceClients) - {guild}
                && queues == old(queues) - {guild}
    {
      if guild !in voiceClients {
        return false;
      }
      voiceClients := voiceClients - {guild};
      if guild !in queues {
        return false;
      }
      queues := queues - {guild};
      ok := true;
    }
  }
}
