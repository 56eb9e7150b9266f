/** The registry of server_improved.py as values: the `bots` and
    `bot_commands` dictionaries, and one transition function per request
    handler. Each handler holds `bot_lock` for its whole critical section, so
    each is one atomic step from a state to a state and a response. The
    clock reading `datetime.now().isoformat()` is the parameter `now`. */
module Registry {
  import opened Values
  import opened Validation

  /** A bot's attribute record: the request body it registered with, plus
      the `registered_at` and `last_seen` stamps. */
  type Record = map<string, Json>

  /** One queued command, as `send_command` builds it. */
  datatype Entry = Entry(command: Json, timestamp: string, status: string, params: Option<Json>)

  /** One element of the `bots` list that `list_bots` answers with. */
  datatype Summary = Summary(
    botId: Key,
    registeredAt: Option<Json>,
    lastSeen: Option<Json>,
    pendingCommands: nat,
    attributes: map<string, Json>)

  datatype Listing = Listing(bots: seq<Summary>, totalCount: nat)

  datatype HealthReport = HealthReport(status: string, timestamp: string, registeredBots: nat)

  /** What a handler answers, without the HTTP wrapping. */
  datatype Response =
    | Registered(botId: Json)
    | CommandSent(command: Json)
    | Commands(bot: string, commands: seq<Entry>)
    | Cleared(clearedCount: nat)
    | Unregistered
    | BadRequest(reason: Reason)
    | NotFound(unknown: Key)
    | InternalError

  function StatusCode(r: Response): int {
    match r
    case BadRequest(_) => 400
    case NotFound(_) => 404
    case InternalError => 500
    case _ => 200
  }

  /** `order` lists the keys of `bots` in the order a Python dictionary
      iterates them: first insertion, with a deleted key forgotten. */
  datatype State = State(order: seq<Key>, bots: map<Key, Record>, queues: map<Key, seq<Entry>>)

  datatype Outcome = Outcome(state: State, response: Response)

  /** The registry when the process starts. */
  const Empty: State := State([], map[], map[])

  /** The attributes `list_bots` copies into a summary. */
  const Whitelist: seq<string> := ["name", "version", "status"]

  predicate Distinct(xs: seq<Key>) {
    forall i, j :: 0 <= i < j < |xs| ==> xs[i] != xs[j]
  }

  /** A stored record names its own key and carries both stamps. */
  predicate WellFormed(k: Key, rec: Record) {
    && "bot_id" in rec && KeyOf(rec["bot_id"]) == Some(k)
    && "registered_at" in rec && "last_seen" in rec
  }

  /** The registry invariant: both dictionaries have the same keys, the
      iteration order lists each of them once, and records are well formed. */
  ghost predicate Inv(s: State) {
    && Distinct(s.order)
    && (forall k :: k in s.order <==> k in s.bots)
    && s.queues.Keys == s.bots.Keys
    && forall k :: k in s.bots ==> WellFormed(k, s.bots[k])
  }

  /** `bot_commands.get(bot_id, [])`. */
  function Pending(s: State, k: Key): (q: seq<Entry>)
    ensures k in s.queues ==> q == s.queues[k]
    // a bot without a queue reads as having no commands
    ensures k !in s.queues ==> q == []
  {
    if k in s.queues then s.queues[k] else []
  }

  /** Python's `del` on the iteration order: drop the key, keep the rest in order. */
  function Without(xs: seq<Key>, k: Key): (r: seq<Key>)
    ensures forall x :: x in r <==> x in xs && x != k
    ensures Distinct(xs) ==> Distinct(r)
    ensures k !in xs ==> r == xs
    ensures Distinct(xs) && k in xs ==> |r| == |xs| - 1
    decreases |xs|
  {
    if xs == [] then []
    else if xs[0] == k then Without(xs[1..], k)
    else
      var r := Without(xs[1..], k);
      assert Distinct(xs) ==> xs[0] !in xs[1..];
      [xs[0]] + r
  }

  /** Slicing out index `p > 0` commutes with dropping the head. */
  lemma CutShifts(xs: seq<Key>, p: nat)
    requires 0 < p < |xs|
    ensures xs[..p] + xs[p + 1..] == [xs[0]] + (xs[1..][..p - 1] + xs[1..][p..])
  {
    assert xs[..p] == [xs[0]] + xs[1..][..p - 1];
    assert xs[p + 1..] == xs[1..][p..];
  }

  /** Deleting a key that occurs only at the head leaves the tail. */
  lemma WithoutHead(xs: seq<Key>, k: Key)
    requires xs != [] && xs[0] == k
    requires forall i :: 1 <= i < |xs| ==> xs[i] != k
    ensures Without(xs, k) == xs[1..]
  {
    assert k !in xs[1..] by {
      forall i | 0 <= i < |xs[1..]| ensures xs[1..][i] != k { assert xs[1..][i] == xs[i + 1]; }
    }
  }

  /** `del` cuts out the one occurrence of `k`, at index `p`, and keeps
      what is before and after it, in order. */
  lemma {:induction false} WithoutCutsOut(xs: seq<Key>, k: Key, p: nat)
    requires p < |xs| && xs[p] == k
    requires forall i :: 0 <= i < |xs| && i != p ==> xs[i] != k
    ensures Without(xs, k) == xs[..p] + xs[p + 1..]
    decreases p
  {
    if p == 0 {
      WithoutHead(xs, k);
      assert xs[..0] + xs[1..] == xs[1..];
    } else {
      var tail := xs[1..];
      assert xs[0] != k;
      assert forall i :: 0 <= i < |tail| && i != p - 1 ==> tail[i] != k by {
        forall i | 0 <= i < |tail| && i != p - 1 ensures tail[i] != k { assert tail[i] == xs[i + 1]; }
      }
      WithoutCutsOut(tail, k, p - 1);
      CutShifts(xs, p);
    }
  }

  /** `del` keeps the remaining keys in their order: the result is the old
      order with the one occurrence of `k` cut out. */
  lemma WithoutKeepsOrder(xs: seq<Key>, k: Key)
    requires Distinct(xs) && k in xs
    ensures exists p :: 0 <= p < |xs| && xs[p] == k && Without(xs, k) == xs[..p] + xs[p + 1..]
  {
    var p :| 0 <= p < |xs| && xs[p] == k;
    forall i | 0 <= i < |xs| && i != p ensures xs[i] != k {
      if i < p { assert xs[i] != xs[p]; } else { assert xs[p] != xs[i]; }
    }
    WithoutCutsOut(xs, k, p);
  }

  /** The record `register` stores: the body, with the stamps written into it. */
  function Stamped(body: map<string, Json>, now: string): (rec: Record)
    ensures rec.Keys == body.Keys + {"registered_at", "last_seen"}
    ensures rec["registered_at"] == JStr(now) && rec["last_seen"] == JStr(now)
    // every other field is the body's, as sent
    ensures forall f :: f in body && f != "registered_at" && f != "last_seen" ==> rec[f] == body[f]
  {
    body["registered_at" := JStr(now)]["last_seen" := JStr(now)]
  }

  /** The critical section of `register` (server_improved.py:56-65) for a
      body naming key `k`. */
  function Upsert(s: State, k: Key, body: map<string, Json>, now: string): (t: State)
    requires "bot_id" in body && KeyOf(body["bot_id"]) == Some(k)
    ensures k in t.bots && t.bots.Keys == s.bots.Keys + {k} && t.queues.Keys == s.queues.Keys + {k}
    ensures "registered_at" in t.bots[k] && t.bots[k]["registered_at"] == JStr(now)
    ensures "last_seen" in t.bots[k] && t.bots[k]["last_seen"] == JStr(now)
    // the pending queue survives a re-registration
    ensures Pending(t, k) == Pending(s, k)
    // a new key goes last in iteration order, an old one keeps its place
    ensures t.order == if k in s.bots then s.order else s.order + [k]
  {
    var queues := if k !in s.queues then s.queues[k := []] else s.queues;
    var order := if k in s.bots then s.order else s.order + [k];
    State(order, s.bots[k := Stamped(body, now)], queues)
  }

  /** `register` (server_improved.py:43-72). */
  function Register(s: State, data: Option<map<string, Json>>, now: string): (o: Outcome)
    ensures var v := ValidateJsonData(data, ["bot_id"]);
      && (v.Invalid? ==> o == Outcome(s, BadRequest(v.reason)))
      && (v.Valid? ==> KeyOf(data.value["bot_id"]).None? ==> o == Outcome(s, InternalError))
      && (v.Valid? ==> KeyOf(data.value["bot_id"]).Some? ==>
            var id := data.value["bot_id"];
            o == Outcome(Upsert(s, KeyOf(id).value, data.value, now), Registered(id)))
    ensures o.response.Registered? || o.response.BadRequest? || o.response.InternalError?
    ensures !o.response.Registered? ==> o.state == s
  {
    match ValidateJsonData(data, ["bot_id"])
    case Invalid(reason) => Outcome(s, BadRequest(reason))
    case Valid =>
      var id := data.value["bot_id"];
      match KeyOf(id)
      case None => Outcome(s, InternalError)
      case Some(k) => Outcome(Upsert(s, k, data.value, now), Registered(id))
  }

  /** The entry `send_command` queues for a validated body
      (server_improved.py:102-109). */
  function NewEntry(body: map<string, Json>, now: string): (e: Entry)
    requires "command" in body
    ensures e.command == body["command"] && e.timestamp == now && e.status == "pending"
    ensures e.params.Some? <==> "params" in body
    ensures e.params.Some? ==> e.params.value == body["params"]
  {
    Entry(body["command"], now, "pending", if "params" in body then Some(body["params"]) else None)
  }

  /** `bot_commands[bot_id].append(command_entry)` (server_improved.py:111). */
  function Enqueue(s: State, k: Key, e: Entry): (t: State)
    requires k in s.queues
    // exactly one entry, at the end of this bot's queue
    ensures k in t.queues && t.queues[k] == s.queues[k] + [e]
    ensures t.order == s.order && t.bots == s.bots && t.queues.Keys == s.queues.Keys
  {
    s.(queues := s.queues[k := s.queues[k] + [e]])
  }

  /** `send_command` (server_improved.py:79-118). */
  function SendCommand(s: State, data: Option<map<string, Json>>, now: string): (o: Outcome)
    ensures var v := ValidateJsonData(data, ["bot_id", "command"]);
      && (v.Invalid? ==> o == Outcome(s, BadRequest(v.reason)))
      && (v.Valid? ==> KeyOf(data.value["bot_id"]).None? ==> o == Outcome(s, InternalError))
      && (v.Valid? ==> KeyOf(data.value["bot_id"]).Some? ==>
            var k := KeyOf(data.value["bot_id"]).value;
            && (k !in s.bots ==> o == Outcome(s, NotFound(k)))
            && (k in s.bots && k in s.queues ==>
                  o == Outcome(Enqueue(s, k, NewEntry(data.value, now)), CommandSent(data.value["command"])))
            && (o.response.CommandSent? <==> k in s.bots && k in s.queues))
    ensures o.response.CommandSent? || o.response.BadRequest? || o.response.NotFound? || o.response.InternalError?
    ensures !o.response.CommandSent? ==> o.state == s
  {
    match ValidateJsonData(data, ["bot_id", "command"])
    case Invalid(reason) => Outcome(s, BadRequest(reason))
    case Valid =>
      match KeyOf(data.value["bot_id"])
      case None => Outcome(s, InternalError)
      case Some(k) =>
        if k !in s.bots then Outcome(s, NotFound(k))
        // `bot_commands[bot_id]` raises KeyError when the queue is missing
        else if k !in s.queues then Outcome(s, InternalError)
        else Outcome(Enqueue(s, k, NewEntry(data.value, now)), CommandSent(data.value["command"]))
  }

  /** `get_commands` (server_improved.py:125-145); `bot_id` comes from the
      URL path and so is always a string. */
  function GetCommands(s: State, botId: string, now: string): (o: Outcome)
    ensures KStr(botId) !in s.bots ==> o == Outcome(s, NotFound(KStr(botId)))
    ensures KStr(botId) in s.bots ==>
      var k, t := KStr(botId), o.state;
      // the queue is handed back whole, in enqueue order, and not consumed
      && o.response == Commands(botId, Pending(s, k))
      && t.queues == s.queues && t.order == s.order && t.bots.Keys == s.bots.Keys
      && "last_seen" in t.bots[k] && t.bots[k]["last_seen"] == JStr(now)
  {
    var k := KStr(botId);
    if k !in s.bots then Outcome(s, NotFound(k))
    else
      var rec := s.bots[k]["last_seen" := JStr(now)];
      Outcome(s.(bots := s.bots[k := rec]), Commands(botId, Pending(s, k)))
  }

  /** `clear_commands` (server_improved.py:152-174). */
  function ClearCommands(s: State, botId: string): (o: Outcome)
    ensures KStr(botId) !in s.bots ==> o == Outcome(s, NotFound(KStr(botId)))
    ensures KStr(botId) in s.bots ==>
      var k, t := KStr(botId), o.state;
      // reports how many entries it dropped, and leaves the queue empty
      && o.response == Cleared(|Pending(s, k)|)
      && k in t.queues && t.queues[k] == []
      && t.order == s.order && t.bots == s.bots && t.queues.Keys == s.queues.Keys + {k}
  {
    var k := KStr(botId);
    if k !in s.bots then Outcome(s, NotFound(k))
    else Outcome(s.(queues := s.queues[k := []]), Cleared(|Pending(s, k)|))
  }

  /** `unregister_bot` (server_improved.py:207-230). */
  function UnregisterBot(s: State, botId: string): (o: Outcome)
    ensures KStr(botId) !in s.bots ==> o == Outcome(s, NotFound(KStr(botId)))
    ensures KStr(botId) in s.bots ==>
      var k, t := KStr(botId), o.state;
      && o.response == Unregistered
      // record and queue are both gone
      && t.bots.Keys == s.bots.Keys - {k} && t.queues.Keys == s.queues.Keys - {k}
      && t.order == Without(s.order, k)
  {
    var k := KStr(botId);
    if k !in s.bots then Outcome(s, NotFound(k))
    else
      var queues := if k in s.queues then s.queues - {k} else s.queues;
      Outcome(State(Without(s.order, k), s.bots - {k}, queues), Unregistered)
  }

  /** The attributes of a record that a summary may show. */
  function Whitelisted(rec: Record): (a: map<string, Json>)
    ensures forall f :: f in a <==> f in Whitelist && f in rec
    ensures forall f :: f in a ==> a[f] == rec[f]
  {
    map f | f in Whitelist && f in rec :: rec[f]
  }

  function Lookup(rec: Record, f: string): Option<Json> {
    if f in rec then Some(rec[f]) else None
  }

  /** The `bot_info` of one registered bot (server_improved.py:183-192). */
  function Summarize(s: State, k: Key): (sm: Summary)
    requires k in s.bots
    ensures sm.botId == k && sm.pendingCommands == |Pending(s, k)|
    ensures sm.registeredAt == Lookup(s.bots[k], "registered_at")
    ensures sm.lastSeen == Lookup(s.bots[k], "last_seen")
    ensures forall f :: f in sm.attributes <==> f in Whitelist && f in s.bots[k]
    ensures forall f :: f in sm.attributes ==> sm.attributes[f] == s.bots[k][f]
  {
    var rec := s.bots[k];
    Summary(k, Lookup(rec, "registered_at"), Lookup(rec, "last_seen"), |Pending(s, k)|, Whitelisted(rec))
  }

  lemma {:induction false} DistinctCard(xs: seq<Key>)
    requires Distinct(xs)
    ensures |set x | x in xs| == |xs|
  {
    if xs != [] {
      var rest := xs[1..];
      DistinctCard(rest);
      assert (set x | x in xs) == {xs[0]} + (set x | x in rest);
      assert xs[0] !in rest;
    }
  }

  /** Under the invariant the iteration order is as long as the registry. */
  lemma OrderCountsBots(s: State)
    requires Inv(s)
    ensures |s.order| == |s.bots|
  {
    DistinctCard(s.order);
    assert (set x | x in s.order) == s.bots.Keys;
  }

  /** The `bot_list` loop of `list_bots`, over the bots in iteration order. */
  function Summaries(s: State): (r: seq<Summary>)
    requires forall k :: k in s.order ==> k in s.bots
    ensures |r| == |s.order|
    ensures forall i :: 0 <= i < |r| ==> r[i] == Summarize(s, s.order[i])
  {
    seq(|s.order|, i requires 0 <= i < |s.order| => Summarize(s, s.order[i]))
  }

  lemma EveryBotListed(s: State, bots: seq<Summary>)
    requires Inv(s) && |bots| == |s.order|
    requires forall i :: 0 <= i < |bots| ==> bots[i].botId == s.order[i]
    ensures forall k :: k in s.bots <==> exists i :: 0 <= i < |bots| && bots[i].botId == k
  {
    forall k | k in s.bots ensures exists i :: 0 <= i < |bots| && bots[i].botId == k {
      assert k in s.order;
      var i :| 0 <= i < |s.order| && s.order[i] == k;
      assert bots[i].botId == k;
    }
    forall k | exists i :: 0 <= i < |bots| && bots[i].botId == k ensures k in s.bots {
      var i :| 0 <= i < |bots| && bots[i].botId == k;
      assert s.order[i] in s.order;
    }
  }

  /** `list_bots` (server_improved.py:177-200). */
  function ListBots(s: State): (l: Listing)
    requires Inv(s)
    ensures l.totalCount == |l.bots| == |s.bots| == |s.order|
    // one summary per registered bot, in iteration order
    ensures forall i :: 0 <= i < |l.bots| ==> l.bots[i].botId == s.order[i]
    ensures forall k :: k in s.bots <==> exists i :: 0 <= i < |l.bots| && l.bots[i].botId == k
    ensures forall i :: 0 <= i < |l.bots| ==> s.order[i] in s.bots && l.bots[i] == Summarize(s, s.order[i])
  {
    OrderCountsBots(s);
    var bots := Summaries(s);
    EveryBotListed(s, bots);
    Listing(bots, |bots|)
  }

  /** `health` (server_improved.py:34-40). */
  function Health(s: State, now: string): (h: HealthReport)
    ensures h.status == "healthy" && h.timestamp == now
    ensures h.registeredBots == |s.bots|
  {
    HealthReport("healthy", now, |s.bots|)
  }
}
