/** What each handler of server_improved.py leaves alone: a handler that
    names one bot changes that bot's record and queue and no other, and
    within the record it writes only the fields the source assigns. */
module RegistryFrames {
  import opened Values
  import opened Validation
  import opened Registry

  /** Every bot other than `k` has the same record and the same pending
      queue in `t` as in `s`, and is registered in both or in neither. */
  ghost predicate OnlyTouches(s: State, t: State, k: Key) {
    forall j :: j != k ==>
      && (j in t.bots <==> j in s.bots)
      && (j in s.bots ==> t.bots[j] == s.bots[j])
      && Pending(t, j) == Pending(s, j)
  }

  lemma UpsertOnlyTouches(s: State, k: Key, body: map<string, Json>, now: string)
    requires "bot_id" in body && KeyOf(body["bot_id"]) == Some(k)
    ensures OnlyTouches(s, Upsert(s, k, body, now), k)
  {
    var t := Upsert(s, k, body, now);
    forall j | j != k ensures Pending(t, j) == Pending(s, j) {
      assert j in t.queues <==> j in s.queues;
    }
  }

  lemma RegisterOnlyTouches(s: State, k: Key, data: Option<map<string, Json>>, now: string)
    requires data.Some? && "bot_id" in data.value && KeyOf(data.value["bot_id"]) == Some(k)
    ensures OnlyTouches(s, Register(s, data, now).state, k)
  {
    if Register(s, data, now).response.Registered? {
      UpsertOnlyTouches(s, k, data.value, now);
    }
  }

  /** A registration stores the body as sent, keys and values, with the two
      stamps added; whatever the old record held is gone. */
  lemma RegisterStoresBody(s: State, k: Key, body: map<string, Json>, now: string)
    requires "bot_id" in body && KeyOf(body["bot_id"]) == Some(k)
    ensures var rec := Upsert(s, k, body, now).bots[k];
      && rec.Keys == body.Keys + {"registered_at", "last_seen"}
      && forall f :: f in body && f != "registered_at" && f != "last_seen" ==> rec[f] == body[f]
  {
  }

  lemma SendCommandOnlyTouches(s: State, k: Key, data: Option<map<string, Json>>, now: string)
    requires data.Some? && "bot_id" in data.value && KeyOf(data.value["bot_id"]) == Some(k)
    ensures OnlyTouches(s, SendCommand(s, data, now).state, k)
  {
    var o := SendCommand(s, data, now);
    if o.response.CommandSent? {
      assert o.state.queues.Keys == s.queues.Keys;
      forall j | j != k ensures Pending(o.state, j) == Pending(s, j) {
        assert j in o.state.queues <==> j in s.queues;
      }
    }
  }

  lemma GetCommandsOnlyTouches(s: State, botId: string, now: string)
    ensures OnlyTouches(s, GetCommands(s, botId, now).state, KStr(botId))
  {
  }

  /** A poll writes `last_seen` and nothing else of the record. */
  lemma GetCommandsOnlyStamps(s: State, botId: string, now: string)
    requires KStr(botId) in s.bots
    ensures var old_rec, rec := s.bots[KStr(botId)], GetCommands(s, botId, now).state.bots[KStr(botId)];
      && rec.Keys == old_rec.Keys + {"last_seen"}
      && forall f :: f in old_rec && f != "last_seen" ==> rec[f] == old_rec[f]
  {
  }

  lemma ClearCommandsOnlyTouches(s: State, botId: string)
    ensures OnlyTouches(s, ClearCommands(s, botId).state, KStr(botId))
  {
    var t := ClearCommands(s, botId).state;
    forall j | j != KStr(botId) ensures Pending(t, j) == Pending(s, j) {
      assert j in t.queues <==> j in s.queues;
    }
  }

  lemma UnregisterBotOnlyTouches(s: State, botId: string)
    ensures OnlyTouches(s, UnregisterBot(s, botId).state, KStr(botId))
  {
    var t := UnregisterBot(s, botId).state;
    forall j | j != KStr(botId) ensures Pending(t, j) == Pending(s, j) {
      assert j in t.queues <==> j in s.queues;
    }
  }
}
