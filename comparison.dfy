/** Where the two servers part ways on the same request: server.py trusts
    its input and raises, server_improved.py validates it first and answers
    400; both replace a re-registered bot's record whole. */
module Comparison {
  import opened Values
  import opened Validation
  import Registry
  import BasicServer

  /** A non-empty body without `bot_id`: an exception in server.py, a 400
      naming the field in server_improved.py, and neither changes a thing. */
  lemma MissingBotId(bots: BasicServer.Bots, s: Registry.State, body: map<string, Json>, now: string)
    requires body != map[] && "bot_id" !in body
    ensures BasicServer.RegisterStep(bots, Some(body)) == BasicServer.Outcome(bots, BasicServer.ServerError)
    ensures Registry.Register(s, Some(body), now) == Registry.Outcome(s, Registry.BadRequest(MissingField("bot_id")))
  {
    assert FirstFailureAt(body, ["bot_id"], 0);
  }

  /** A blank `bot_id` is stored by server.py and refused by
      server_improved.py. */
  lemma BlankBotId(bots: BasicServer.Bots, s: Registry.State, body: map<string, Json>, blank: string, now: string)
    requires "bot_id" in body && body["bot_id"] == JStr(blank) && IsBlank(blank)
    ensures BasicServer.RegisterStep(bots, Some(body)).reply == BasicServer.Success
    ensures Registry.Register(s, Some(body), now) == Registry.Outcome(s, Registry.BadRequest(EmptyField("bot_id")))
  {
    assert FirstFailureAt(body, ["bot_id"], 0);
  }

  /** Re-registration drops any attribute the new body lacks, in both. */
  lemma BothReplaceRecords(bots: BasicServer.Bots, s: Registry.State, body: map<string, Json>, k: Key, f: string, now: string)
    requires Present(body, "bot_id") && KeyOf(body["bot_id"]) == Some(k)
    requires f !in body && f != "registered_at" && f != "last_seen"
    ensures f !in BasicServer.RegisterStep(bots, Some(body)).bots[k]
    ensures f !in Registry.Register(s, Some(body), now).state.bots[k]
  {
    assert ValidateJsonData(Some(body), ["bot_id"]).Valid?;
    assert Registry.Register(s, Some(body), now).state == Registry.Upsert(s, k, body, now);
  }
}
