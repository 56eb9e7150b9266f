/** Every handler of server_improved.py keeps the registry invariant: `bots`
    and `bot_commands` have the same keys, the iteration order lists them
    once each, and every record names its key and carries both stamps. */
module RegistryInvariant {
  import opened Values
  import opened Validation
  import opened Registry

  lemma EmptyKeepsInv()
    ensures Inv(Empty)
  {
  }

  lemma UpsertKeepsInv(s: State, k: Key, body: map<string, Json>, now: string)
    requires Inv(s)
    requires "bot_id" in body && KeyOf(body["bot_id"]) == Some(k)
    ensures Inv(Upsert(s, k, body, now))
  {
    var t := Upsert(s, k, body, now);
    assert Distinct(t.order) by {
      if k !in s.bots {
        assert k !in s.order;
      }
    }
    assert forall j :: j in t.order <==> j in t.bots;
    assert t.queues.Keys == t.bots.Keys;
    assert WellFormed(k, t.bots[k]) by {
      assert t.bots[k]["bot_id"] == body["bot_id"];
    }
  }

  lemma RegisterKeepsInv(s: State, data: Option<map<string, Json>>, now: string)
    requires Inv(s)
    ensures Inv(Register(s, data, now).state)
  {
    var v := ValidateJsonData(data, ["bot_id"]);
    if v.Valid? && KeyOf(data.value["bot_id"]).Some? {
      UpsertKeepsInv(s, KeyOf(data.value["bot_id"]).value, data.value, now);
    }
  }

  lemma SendCommandKeepsInv(s: State, data: Option<map<string, Json>>, now: string)
    requires Inv(s)
    ensures Inv(SendCommand(s, data, now).state)
  {
  }

  lemma GetCommandsKeepsInv(s: State, botId: string, now: string)
    requires Inv(s)
    ensures Inv(GetCommands(s, botId, now).state)
  {
    var k := KStr(botId);
    if k in s.bots {
      var t := GetCommands(s, botId, now).state;
      assert WellFormed(k, t.bots[k]) by {
        assert t.bots[k]["bot_id"] == s.bots[k]["bot_id"];
      }
    }
  }

  lemma ClearCommandsKeepsInv(s: State, botId: string)
    requires Inv(s)
    ensures Inv(ClearCommands(s, botId).state)
  {
  }

  lemma UnregisterBotKeepsInv(s: State, botId: string)
    requires Inv(s)
    ensures Inv(UnregisterBot(s, botId).state)
  {
    var t := UnregisterBot(s, botId).state;
    assert t.queues.Keys == t.bots.Keys;
  }
}
