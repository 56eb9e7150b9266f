/** The module-level state of server_improved.py as an object: the `bots`
    and `bot_commands` dictionaries are fields that the handler methods
    update in place, as the Python handlers do. Each method is proved to do
    what the transition function of the same name in `Registry` says, so
    every property proved about those functions holds of the object. */
module ImprovedServer {
  import opened Values
  import opened Validation
  import opened Registry
  import RegistryInvariant

  class BotServer {
    /** The iteration order of `bots`, which a Python dictionary keeps. */
    var order: seq<Key>
    var bots: map<Key, Record>
    var botCommands: map<Key, seq<Entry>>

    /** The object's state as a registry value. */
    function Snapshot(): State
      reads this
    {
      State(order, bots, botCommands)
    }

    ghost predicate Valid()
      reads this
    {
      Inv(Snapshot())
    }

    /** Start-up: both dictionaries empty (server_improved.py:16-17). */
    constructor()
      ensures Snapshot() == Empty && Valid()
    {
      order := [];
      bots := map[];
      botCommands := map[];
      new;
      RegistryInvariant.EmptyKeepsInv();
    }

    /** `register` (server_improved.py:43-72). */
    method Register(data: Option<map<string, Json>>, now: string) returns (r: Response)
      modifies this
      ensures var o := Registry.Register(old(Snapshot()), data, now);
        Snapshot() == o.state && r == o.response
      ensures old(Valid()) ==> Valid()
    {
      if Valid() {
        RegistryInvariant.RegisterKeepsInv(Snapshot(), data, now);
      }
      var v := ValidateJsonData(data, ["bot_id"]);
      if v.Invalid? {
        return BadRequest(v.reason);
      }
      var body := data.value;
      var id := body["bot_id"];
      body := body["registered_at" := JStr(now)];
      body := body["last_seen" := JStr(now)];
      var key := KeyOf(id);
      if key.None? {
        // `bot_id not in bot_commands` cannot hash a list or an object
        return InternalError;
      }
      var k := key.value;
      if k !in botCommands {
        botCommands := botCommands[k := []];
      }
      // a new key of a Python dictionary goes last in iteration order
      if k !in bots {
        order := order + [k];
      }
      bots := bots[k := body];
      r := Registered(id);
    }

    /** `send_command` (server_improved.py:79-118). */
    method SendCommand(data: Option<map<string, Json>>, now: string) returns (r: Response)
      modifies this
      ensures var o := Registry.SendCommand(old(Snapshot()), data, now);
        Snapshot() == o.state && r == o.response
      ensures old(Valid()) ==> Valid()
    {
      if Valid() {
        RegistryInvariant.SendCommandKeepsInv(Snapshot(), data, now);
      }
      var v := ValidateJsonData(data, ["bot_id", "command"]);
      if v.Invalid? {
        return BadRequest(v.reason);
      }
      var body := data.value;
      var key := KeyOf(body["bot_id"]);
      var command := body["command"];
      if key.None? {
        return InternalError;
      }
      var k := key.value;
      if k !in bots {
        return NotFound(k);
      }
      var entry := Entry(command, now, "pending", None);
      if "params" in body {
        entry := entry.(params := Some(body["params"]));
      }
      if k !in botCommands {
        // `bot_commands[bot_id]` raises KeyError
        return InternalError;
      }
      botCommands := botCommands[k := botCommands[k] + [entry]];
      r := CommandSent(command);
    }

    /** `get_commands` (server_improved.py:125-145). The queue is returned
        as a value, a snapshot taken under the lock. */
    method GetCommands(botId: string, now: string) returns (r: Response)
      modifies this
      ensures var o := Registry.GetCommands(old(Snapshot()), botId, now);
        Snapshot() == o.state && r == o.response
      ensures old(Valid()) ==> Valid()
    {
      if Valid() {
        RegistryInvariant.GetCommandsKeepsInv(Snapshot(), botId, now);
      }
      var k := KStr(botId);
      if k !in bots {
        return NotFound(k);
      }
      bots := bots[k := bots[k]["last_seen" := JStr(now)]];
      var pending := if k in botCommands then botCommands[k] else [];
      r := Commands(botId, pending);
    }

    /** `clear_commands` (server_improved.py:152-174). */
    method ClearCommands(botId: string) returns (r: Response)
      modifies this
      ensures var o := Registry.ClearCommands(old(Snapshot()), botId);
        Snapshot() == o.state && r == o.response
      ensures old(Valid()) ==> Valid()
    {
      if Valid() {
        RegistryInvariant.ClearCommandsKeepsInv(Snapshot(), botId);
      }
      var k := KStr(botId);
      if k !in bots {
        return NotFound(k);
      }
      var clearedCount := if k in botCommands then |botCommands[k]| else 0;
      botCommands := botCommands[k := []];
      r := Cleared(clearedCount);
    }

    /** `unregister_bot` (server_improved.py:206-230). */
    method UnregisterBot(botId: string) returns (r: Response)
      modifies this
      ensures var o := Registry.UnregisterBot(old(Snapshot()), botId);
        Snapshot() == o.state && r == o.response
      ensures old(Valid()) ==> Valid()
    {
      if Valid() {
        RegistryInvariant.UnregisterBotKeepsInv(Snapshot(), botId);
      }
      var k := KStr(botId);
      if k !in bots {
        return NotFound(k);
      }
      bots := bots - {k};
      order := Without(order, k);
      if k in botCommands {
        botCommands := botCommands - {k};
      }
      r := Unregistered;
    }

    /** `list_bots` (server_improved.py:176-204). */
    method ListBots() returns (l: Listing)
      requires Valid()
      ensures l == Registry.ListBots(Snapshot())
    {
      assert forall k :: k in order ==> k in bots;
      var botList := CollectSummaries();
      l := Listing(botList, |botList|);
    }

    /** The `bot_list` loop of `list_bots` over `bots.items()`
        (server_improved.py:181-194). */
    method CollectSummaries() returns (botList: seq<Summary>)
      requires forall k :: k in order ==> k in bots
      ensures botList == Summaries(Snapshot())
    {
      ghost var s := Snapshot();
      botList := [];
      var i := 0;
      while i < |order|
        invariant 0 <= i <= |order|
        invariant |botList| == i
        invariant forall j :: 0 <= j < i ==> botList[j] == Summarize(s, order[j])
      {
        var k := order[i];
        var rec := bots[k];
        var attributes := CopyWhitelisted(rec);
        var pending := if k in botCommands then |botCommands[k]| else 0;
        botList := botList + [Summary(k, Lookup(rec, "registered_at"), Lookup(rec, "last_seen"), pending, attributes)];
        i := i + 1;
      }
    }

    /** The inner loop of `list_bots` (server_improved.py:190-192): copy
        `name`, `version` and `status` when the record has them. */
    static method CopyWhitelisted(rec: Record) returns (attributes: map<string, Json>)
      ensures attributes == Whitelisted(rec)
    {
      attributes := map[];
      var n := 0;
      while n < |Whitelist|
        invariant 0 <= n <= |Whitelist|
        invariant forall f :: f in attributes <==> f in Whitelist[..n] && f in rec
        invariant forall f :: f in attributes ==> attributes[f] == rec[f]
      {
        var field := Whitelist[n];
        if field in rec {
          attributes := attributes[field := rec[field]];
        }
        assert Whitelist[..n + 1] == Whitelist[..n] + [field];
        n := n + 1;
      }
      assert Whitelist[..n] == Whitelist;
    }

    /** `health` (server_improved.py:33-40). */
    method Health(now: string) returns (h: HealthReport)
      ensures h == Registry.Health(Snapshot(), now)
    {
      h := HealthReport("healthy", now, |bots|);
    }
  }
}
