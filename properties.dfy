/** Properties of server_improved.py that relate several handler calls:
    what a poll sees after enqueues and clears, what unregistering forgets,
    and the bot count that `list_bots` and `health` report. */
module RegistryProperties {
  import opened Values
  import opened Validation
  import opened Registry
  import opened RegistryInvariant

  /** A send-command body that passes validation and names bot `k`. */
  predicate SendsTo(body: map<string, Json>, k: Key) {
    && Present(body, "bot_id") && Present(body, "command")
    && KeyOf(body["bot_id"]) == Some(k)
  }

  /** A register body that passes validation and names bot `k`. */
  predicate RegistersAs(body: map<string, Json>, k: Key) {
    Present(body, "bot_id") && KeyOf(body["bot_id"]) == Some(k)
  }

  /** An accepted send-command body for a known bot queues one entry. */
  lemma SendAccepted(s: State, body: map<string, Json>, k: Key, now: string)
    requires SendsTo(body, k) && k in s.bots && k in s.queues
    ensures SendCommand(s, Some(body), now) == Outcome(Enqueue(s, k, NewEntry(body, now)), CommandSent(body["command"]))
  {
    assert ValidateJsonData(Some(body), ["bot_id", "command"]).Valid?;
  }

  /** Registering a bot, whether new or known, makes it known, and a poll
      right after a first registration finds an empty queue, not an error. */
  lemma RegisterThenPoll(s: State, body: map<string, Json>, botId: string, now: string, later: string)
    requires Inv(s) && RegistersAs(body, KStr(botId))
    ensures var t := Register(s, Some(body), now).state;
      && KStr(botId) in t.bots
      && GetCommands(t, botId, later).response == Commands(botId, Pending(s, KStr(botId)))
      && (KStr(botId) !in s.bots ==> GetCommands(t, botId, later).response == Commands(botId, []))
  {
    var k := KStr(botId);
    assert Register(s, Some(body), now).state == Upsert(s, k, body, now);
    if k !in s.bots {
      assert k !in s.queues;
    }
  }

  /** The sequential effect of several send-command calls: the linearised
      view of concurrent senders under `bot_lock`. */
  function SendAll(s: State, bodies: seq<map<string, Json>>, nows: seq<string>): State
    requires |bodies| == |nows|
    decreases |bodies|
  {
    if bodies == [] then s
    else SendAll(SendCommand(s, Some(bodies[0]), nows[0]).state, bodies[1..], nows[1..])
  }

  /** The entries those calls queue, in call order. */
  function Entries(bodies: seq<map<string, Json>>, nows: seq<string>): (es: seq<Entry>)
    requires |bodies| == |nows|
    requires forall i :: 0 <= i < |bodies| ==> "command" in bodies[i]
    ensures |es| == |bodies|
    ensures forall i :: 0 <= i < |es| ==> es[i] == NewEntry(bodies[i], nows[i])
    decreases |bodies|
  {
    if bodies == [] then []
    else [NewEntry(bodies[0], nows[0])] + Entries(bodies[1..], nows[1..])
  }

  /** `Enqueue` of several entries to one bot, one after another. */
  function EnqueueAll(s: State, k: Key, es: seq<Entry>): State
    requires k in s.queues
    decreases |es|
  {
    if es == [] then s else EnqueueAll(Enqueue(s, k, es[0]), k, es[1..])
  }

  /** Entries appended one by one end up after the old queue, in order,
      and no other queue and no record moves. */
  lemma {:induction false} EnqueueAllAppends(s: State, k: Key, es: seq<Entry>)
    requires k in s.queues
    ensures var t := EnqueueAll(s, k, es);
      && Pending(t, k) == Pending(s, k) + es
      && t.bots == s.bots && t.order == s.order && t.queues.Keys == s.queues.Keys
      && forall j :: j != k ==> Pending(t, j) == Pending(s, j)
    decreases |es|
  {
    if es != [] {
      var s1 := Enqueue(s, k, es[0]);
      EnqueueAllAppends(s1, k, es[1..]);
      assert Pending(s, k) + es == Pending(s1, k) + es[1..];
    }
  }

  /** Accepted sends to a known bot are exactly enqueues of their entries. */
  lemma {:induction false} SendAllEnqueues(s: State, k: Key, bodies: seq<map<string, Json>>, nows: seq<string>)
    requires k in s.bots && k in s.queues && |bodies| == |nows|
    requires forall i :: 0 <= i < |bodies| ==> SendsTo(bodies[i], k)
    ensures forall i :: 0 <= i < |bodies| ==> "command" in bodies[i]
    ensures SendAll(s, bodies, nows) == EnqueueAll(s, k, Entries(bodies, nows))
    decreases |bodies|
  {
    forall i | 0 <= i < |bodies| ensures "command" in bodies[i] {
      assert SendsTo(bodies[i], k);
    }
    if bodies != [] {
      var rest, restNows := bodies[1..], nows[1..];
      SendAccepted(s, bodies[0], k, nows[0]);
      var s1 := Enqueue(s, k, NewEntry(bodies[0], nows[0]));
      forall i | 0 <= i < |rest| ensures SendsTo(rest[i], k) {
        assert rest[i] == bodies[i + 1];
      }
      SendAllEnqueues(s1, k, rest, restNows);
      assert Entries(bodies, nows)[1..] == Entries(rest, restNows);
    }
  }

  /** No lost updates: N accepted sends to one bot leave exactly N more
      entries at the end of its queue, in call order, touch no other queue
      and no record, and keep the registry invariant. */
  lemma SendAllAppendsEach(s: State, k: Key, bodies: seq<map<string, Json>>, nows: seq<string>)
    requires Inv(s) && k in s.bots && |bodies| == |nows|
    requires forall i :: 0 <= i < |bodies| ==> SendsTo(bodies[i], k)
    ensures forall i :: 0 <= i < |bodies| ==> "command" in bodies[i]
    ensures var t := SendAll(s, bodies, nows);
      && Pending(t, k) == Pending(s, k) + Entries(bodies, nows)
      && |Pending(t, k)| == |Pending(s, k)| + |bodies|
      && t.bots == s.bots && t.order == s.order && Inv(t)
      && forall j :: j != k ==> Pending(t, j) == Pending(s, j)
  {
    SendAllEnqueues(s, k, bodies, nows);
    EnqueueAllAppends(s, k, Entries(bodies, nows));
  }

  /** Two sends then a poll answer the two commands in the order sent. */
  lemma SendTwiceThenPoll(s: State, botId: string, b1: map<string, Json>, b2: map<string, Json>, t1: string, t2: string, t3: string)
    requires KStr(botId) in s.bots && KStr(botId) in s.queues && Pending(s, KStr(botId)) == []
    requires SendsTo(b1, KStr(botId)) && SendsTo(b2, KStr(botId))
    ensures var t := SendCommand(SendCommand(s, Some(b1), t1).state, Some(b2), t2).state;
      GetCommands(t, botId, t3).response == Commands(botId, [NewEntry(b1, t1), NewEntry(b2, t2)])
  {
    var k := KStr(botId);
    SendAccepted(s, b1, k, t1);
    var u := Enqueue(s, k, NewEntry(b1, t1));
    SendAccepted(u, b2, k, t2);
    EnqueueTwiceThenPoll(s, botId, NewEntry(b1, t1), NewEntry(b2, t2), t3);
  }

  lemma EnqueueTwiceThenPoll(s: State, botId: string, e1: Entry, e2: Entry, now: string)
    requires KStr(botId) in s.bots && KStr(botId) in s.queues && Pending(s, KStr(botId)) == []
    ensures var t := Enqueue(Enqueue(s, KStr(botId), e1), KStr(botId), e2);
      GetCommands(t, botId, now).response == Commands(botId, [e1, e2])
  {
  }

  /** A clear reports the entries it drops; after it a poll finds nothing
      and a second clear reports zero. */
  lemma ClearThenPollThenClear(s: State, botId: string, now: string)
    requires Inv(s) && KStr(botId) in s.bots
    ensures var o := ClearCommands(s, botId);
      && o.response == Cleared(|Pending(s, KStr(botId))|)
      && GetCommands(o.state, botId, now).response == Commands(botId, [])
      && ClearCommands(o.state, botId).response == Cleared(0)
      && ClearCommands(o.state, botId).state == o.state
  {
    var t := ClearCommands(s, botId).state;
    assert t.queues[KStr(botId) := []] == t.queues;
  }

  /** An unregistered bot is unknown to every handler that names it. */
  lemma UnregisterForgets(s: State, botId: string, body: map<string, Json>, now: string)
    requires KStr(botId) in s.bots
    requires SendsTo(body, KStr(botId))
    ensures var t := UnregisterBot(s, botId).state;
      && GetCommands(t, botId, now) == Outcome(t, NotFound(KStr(botId)))
      && ClearCommands(t, botId) == Outcome(t, NotFound(KStr(botId)))
      && UnregisterBot(t, botId) == Outcome(t, NotFound(KStr(botId)))
      && SendCommand(t, Some(body), now) == Outcome(t, NotFound(KStr(botId)))
  {
  }

  /** After an unregister the listing no longer shows the bot, and shows
      one bot fewer. */
  lemma UnregisterUnlists(s: State, botId: string)
    requires Inv(s) && KStr(botId) in s.bots
    ensures var t := UnregisterBot(s, botId).state;
      && Inv(t)
      && (forall i :: 0 <= i < |ListBots(t).bots| ==> ListBots(t).bots[i].botId != KStr(botId))
      && ListBots(t).totalCount == ListBots(s).totalCount - 1
  {
    UnregisterBotKeepsInv(s, botId);
  }

  /** Commands do not leak across a re-registration: unregistering and then
      registering again starts from an empty queue. */
  lemma ReregisterAfterUnregister(s: State, botId: string, body: map<string, Json>, now: string, later: string)
    requires Inv(s) && KStr(botId) in s.bots && RegistersAs(body, KStr(botId))
    ensures var t := Register(UnregisterBot(s, botId).state, Some(body), now).state;
      && KStr(botId) in t.bots
      && Pending(t, KStr(botId)) == []
      && GetCommands(t, botId, later).response == Commands(botId, [])
  {
    var u := UnregisterBot(s, botId).state;
    UnregisterBotKeepsInv(s, botId);
    RegisterThenPoll(u, body, botId, now, later);
  }

  lemma {:induction false} WithoutAppended(xs: seq<Key>, k: Key)
    requires k !in xs
    ensures Without(xs + [k], k) == xs
    decreases |xs|
  {
    if xs == [] {
      assert [] + [k] == [k];
    } else {
      assert (xs + [k])[1..] == xs[1..] + [k];
      WithoutAppended(xs[1..], k);
    }
  }

  /** Unregistering a bot that was just registered for the first time
      gives back the registry exactly as it was before. Under the registry
      invariant a key unknown to `bots` is unknown to the other two parts. */
  lemma UnregisterUndoesFirstRegister(s: State, botId: string, body: map<string, Json>, now: string)
    requires KStr(botId) !in s.bots && KStr(botId) !in s.queues && KStr(botId) !in s.order
    requires RegistersAs(body, KStr(botId))
    ensures UnregisterBot(Register(s, Some(body), now).state, botId).state == s
  {
    assert Register(s, Some(body), now).state == Upsert(s, KStr(botId), body, now);
    UnregisterUndoesUpsert(s, botId, body, now);
  }

  /** The same for the critical section alone. */
  lemma UnregisterUndoesUpsert(s: State, botId: string, body: map<string, Json>, now: string)
    requires KStr(botId) !in s.bots && KStr(botId) !in s.queues && KStr(botId) !in s.order
    requires "bot_id" in body && KeyOf(body["bot_id"]) == Some(KStr(botId))
    ensures UnregisterBot(Upsert(s, KStr(botId), body, now), botId).state == s
  {
    var k := KStr(botId);
    var u := UnregisterBot(Upsert(s, k, body, now), botId).state;
    WithoutAppended(s.order, k);
    assert u.bots == s.bots;
    assert u.queues == s.queues;
  }

  /** Re-registering a known bot replaces its attributes, restamps
      `registered_at` as well as `last_seen`, and keeps its pending queue. */
  lemma ReregisterReplaces(s: State, body: map<string, Json>, k: Key, old_field: string, now: string)
    requires Inv(s) && k in s.bots && RegistersAs(body, k)
    requires old_field in s.bots[k] && old_field !in body
    requires old_field != "registered_at" && old_field != "last_seen"
    ensures var t := Register(s, Some(body), now).state;
      && old_field !in t.bots[k]
      && t.bots[k]["registered_at"] == JStr(now)
      && Pending(t, k) == Pending(s, k)
      && t.order == s.order
  {
    assert Register(s, Some(body), now).state == Upsert(s, k, body, now);
  }

  /** `list_bots`' `total_count` and `health`'s `registered_bots` agree. */
  lemma ListingAgreesWithHealth(s: State, now: string)
    requires Inv(s)
    ensures ListBots(s).totalCount == Health(s, now).registeredBots
    ensures ListBots(s).totalCount == |s.order|
  {
  }

  /** Registering adds one to the count exactly when it stores a new bot. */
  lemma RegisterCount(s: State, data: Option<map<string, Json>>, now: string)
    ensures var o := Register(s, data, now);
      |o.state.bots| == if o.response.Registered? && KeyOf(o.response.botId).value !in s.bots then |s.bots| + 1 else |s.bots|
  {
    var o := Register(s, data, now);
    if o.response.Registered? {
      var k := KeyOf(o.response.botId).value;
      assert o.state.bots.Keys == s.bots.Keys + {k};
    }
  }

  /** Unregistering takes one off the count exactly when the bot was known;
      no other handler changes it. */
  lemma UnregisterCount(s: State, data: Option<map<string, Json>>, botId: string, now: string)
    ensures |UnregisterBot(s, botId).state.bots| == if KStr(botId) in s.bots then |s.bots| - 1 else |s.bots|
    ensures |SendCommand(s, data, now).state.bots| == |s.bots|
    ensures |GetCommands(s, botId, now).state.bots| == |s.bots|
    ensures |ClearCommands(s, botId).state.bots| == |s.bots|
  {
    assert GetCommands(s, botId, now).state.bots.Keys == s.bots.Keys;
    if KStr(botId) in s.bots {
      assert UnregisterBot(s, botId).state.bots.Keys == s.bots.Keys - {KStr(botId)};
    }
  }
}
