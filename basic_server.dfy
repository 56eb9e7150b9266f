/** server.py, the earlier server: one `bots` dictionary, a `register` that
    stores the body under its `bot_id`, and a `command` that only tests
    membership. It validates nothing, so a body without the keys it reads
    ends in an exception, which Flask answers with status 500. */
module BasicServer {
  import opened Values

  /** `{"status": "success"}`, `{"status": "failure"}`, or an uncaught
      exception (a `TypeError` or `KeyError`). */
  datatype Reply = Success | Failure | ServerError

  type Bots = map<Key, map<string, Json>>

  datatype Outcome = Outcome(bots: Bots, reply: Reply)

  /** `register` (server.py:7-12) on the map `bots`. */
  function RegisterStep(bots: Bots, data: Option<map<string, Json>>): (o: Outcome)
    // success exactly when there is a body with a hashable `bot_id`
    ensures o.reply == Success <==>
      data.Some? && "bot_id" in data.value && KeyOf(data.value["bot_id"]).Some?
    ensures o.reply != Failure
    // the whole body replaces any earlier record for that key
    ensures o.reply == Success ==> o.bots == bots[KeyOf(data.value["bot_id"]).value := data.value]
    ensures o.reply != Success ==> o.bots == bots
  {
    if data.None? || "bot_id" !in data.value then Outcome(bots, ServerError)
    else
      match KeyOf(data.value["bot_id"])
      case None => Outcome(bots, ServerError)
      case Some(k) => Outcome(bots[k := data.value], Success)
  }

  /** `command` (server.py:14-22): both keys are read before the membership
      test. */
  function CommandReply(bots: Bots, data: Option<map<string, Json>>): (r: Reply)
    ensures r == Success <==>
      && data.Some? && "bot_id" in data.value && "command" in data.value
      && KeyOf(data.value["bot_id"]).Some? && KeyOf(data.value["bot_id"]).value in bots
    ensures r == Failure <==>
      && data.Some? && "bot_id" in data.value && "command" in data.value
      && KeyOf(data.value["bot_id"]).Some? && KeyOf(data.value["bot_id"]).value !in bots
    ensures data.None? || "bot_id" !in data.value || "command" !in data.value ==> r == ServerError
  {
    if data.None? || "bot_id" !in data.value || "command" !in data.value then ServerError
    else
      match KeyOf(data.value["bot_id"])
      case None => ServerError
      case Some(k) => if k in bots then Success else Failure
  }

  /** A bot is known to `command` right after it registers, and a later
      registration under the same id replaces the earlier record whole. */
  lemma RegisterThenCommand(bots: Bots, reg: map<string, Json>, cmd: map<string, Json>, k: Key)
    requires "bot_id" in reg && KeyOf(reg["bot_id"]) == Some(k)
    requires "bot_id" in cmd && "command" in cmd && KeyOf(cmd["bot_id"]) == Some(k)
    ensures CommandReply(RegisterStep(bots, Some(reg)).bots, Some(cmd)) == Success
    ensures RegisterStep(bots, Some(reg)).bots[k] == reg
  {
  }

  /** The module-level `bots` of server.py as an object. */
  class Server {
    var bots: Bots

    constructor()
      ensures bots == map[]
    {
      bots := map[];
    }

    /** `bots[bot_id] = data` (server.py:11). */
    method Register(data: Option<map<string, Json>>) returns (r: Reply)
      modifies this
      ensures var o := RegisterStep(old(bots), data);
        bots == o.bots && r == o.reply
    {
      if data.None? || "bot_id" !in data.value {
        return ServerError;
      }
      var botId := data.value["bot_id"];
      var key := KeyOf(botId);
      if key.None? {
        return ServerError;
      }
      bots := bots[key.value := data.value];
      r := Success;
    }

    /** `command` (server.py:14-22); the method has no `modifies` clause, so
        `bots` is the same after it as before. */
    method Command(data: Option<map<string, Json>>) returns (r: Reply)
      ensures r == CommandReply(bots, data)
      ensures r == Success <==>
        data.Some? && "bot_id" in data.value && "command" in data.value
        && KeyOf(data.value["bot_id"]).Some? && KeyOf(data.value["bot_id"]).value in bots
    {
      if data.None? || "bot_id" !in data.value || "command" !in data.value {
        return ServerError;
      }
      var key := KeyOf(data.value["bot_id"]);
      if key.None? {
        return ServerError;
      }
      if key.value in bots {
        return Success;
      }
      return Failure;
    }
  }
}
