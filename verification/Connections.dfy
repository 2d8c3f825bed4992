/** WebSocket channel membership: the manager's table, and what holds while handlers come and go
    and broadcasts are in flight. */
module Connections {

  type Channel = string
  type Socket = nat

  type Table = map<Channel, set<Socket>>

  /** What became of one send; every failure makes the socket stale, expected or not. */
  datatype SendResult = Sent | ConnectionLost | UnexpectedError

  /******* The critical sections *******/

  function Added(t: Table, c: Channel, s: Socket): Table {
    t[c := (if c in t then t[c] else {}) + {s}]
  }

  /** Removes sockets from one channel and forgets the channel when nobody is left. */
  function Removed(t: Table, c: Channel, gone: set<Socket>): Table {
    if c !in t then t
    else if t[c] - gone == {} then t - {c}
    else t[c := t[c] - gone]
  }

  class ConnectionManager {
    var connections: Table

    constructor ()
      ensures connections == map[]
    {
      connections := map[];
    }

    method Connect(channel: Channel, socket: Socket)
      modifies this
      ensures connections == Added(old(connections), channel, socket)
    {
      if channel !in connections {
        connections := connections[channel := {}];
      }
      connections := connections[channel := connections[channel] + {socket}];
    }

    method Disconnect(channel: Channel, socket: Socket)
      modifies this
      ensures connections == Removed(old(connections), channel, {socket})
    {
      if channel !in connections {
        return;
      }
      var left := connections[channel] - {socket};
      if left != {} {
        connections := connections[channel := left];
      } else {
        connections := connections - {channel};
      }
    }

    /** The members of a channel, each once, in some order. */
    method Snapshot(channel: Channel) returns (members: seq<Socket>)
      ensures Distinct(members)
      ensures Elements(members) == if channel in connections then connections[channel] else {}
    {
      members := [];
      var rest := if channel in connections then connections[channel] else {};
      ghost var all := rest;
      while rest != {}
        invariant Distinct(members) && Elements(members) !! rest && Elements(members) + rest == all
        decreases rest
      {
        var s :| s in rest;
        assert Elements(members + [s]) == Elements(members) + {s};
        members := members + [s];
        rest := rest - {s};
      }
    }

    /** The last part of a broadcast: drops the sockets whose send failed. */
    method DropStale(channel: Channel, members: seq<Socket>, results: seq<SendResult>)
      requires |members| == |results|
      modifies this
      ensures connections == if Stale(members, results) == {} then old(connections)
        else Removed(old(connections), channel, Stale(members, results))
    {
      var stale: set<Socket> := {};
      for i := 0 to |members|
        invariant stale == Stale(members[..i], results[..i])
        invariant connections == old(connections)
      {
        StaleStep(members, results, i);
        if results[i] != Sent {
          stale := stale + {members[i]};
        }
      }
      assert members[..|members|] == members && results[..|members|] == results;
      if stale == {} || channel !in connections {
        return;
      }
      var left := connections[channel] - stale;
      if left != {} {
        connections := connections[channel := left];
      } else {
        connections := connections - {channel};
      }
    }
  }

  ghost predicate Distinct(s: seq<Socket>) {
    forall i, j :: 0 <= i < j < |s| ==> s[i] != s[j]
  }

  ghost function Elements(s: seq<Socket>): set<Socket> {
    set x | x in s
  }

  ghost function Stale(members: seq<Socket>, results: seq<SendResult>): set<Socket>
    requires |members| == |results|
  {
    set i | 0 <= i < |members| && results[i] != Sent :: members[i]
  }

  lemma StaleStep(members: seq<Socket>, results: seq<SendResult>, i: nat)
    requires |members| == |results| && i < |members|
    ensures Stale(members[..i + 1], results[..i + 1])
         == Stale(members[..i], results[..i]) + if results[i] != Sent then {members[i]} else {}
  {
    var m, r := members[..i + 1], results[..i + 1];
    forall s
      ensures s in Stale(m, r) <==> s in Stale(members[..i], results[..i]) || (results[i] != Sent && s == members[i])
    {
      if s in Stale(members[..i], results[..i]) {
        var k :| 0 <= k < i && members[..i][k] == s && results[..i][k] != Sent;
        assert m[k] == s && r[k] != Sent;
      }
      if results[i] != Sent {
        assert m[i] == members[i] && r[i] != Sent;
      }
    }
  }

  /******* The table as a plain set of (channel, socket) pairs *******/

  function Pairs(t: Table): set<(Channel, Socket)> {
    set c, s | c in t && s in t[c] :: (c, s)
  }

  /** The pairs of some sockets on one channel. */
  function On(c: Channel, sockets: set<Socket>): set<(Channel, Socket)> {
    set s | s in sockets :: (c, s)
  }

  ghost predicate NoEmptyChannel(t: Table) {
    forall c :: c in t ==> t[c] != {}
  }

  lemma AddedPairs(t: Table, c: Channel, s: Socket)
    ensures Pairs(Added(t, c, s)) == Pairs(t) + {(c, s)}
    ensures NoEmptyChannel(t) ==> NoEmptyChannel(Added(t, c, s))
  {
    var r := Added(t, c, s);
    assert s in r[c];
  }

  lemma RemovedPairs(t: Table, c: Channel, gone: set<Socket>)
    ensures Pairs(Removed(t, c, gone)) == Pairs(t) - On(c, gone)
    ensures NoEmptyChannel(t) ==> NoEmptyChannel(Removed(t, c, gone))
  {
    var r := Removed(t, c, gone);
    forall d, s ensures (d, s) in Pairs(r) <==> (d, s) in Pairs(t) && !(d == c && s in gone) {
      if c in t && d == c && s in t[c] && s !in gone {
        assert s in t[c] - gone;
      }
    }
  }

  /******* Handlers and broadcasts in any interleaving *******/

  datatype Phase = Accepting | Serving | Ended

  /** One run of the handler that serves a socket on its channel. */
  datatype Handler = Handler(channel: Channel, phase: Phase)

  /** One broadcast: its snapshot, the results so far, and whether its clean-up is done. */
  datatype Cast = Cast(channel: Channel, snapshot: set<Socket>, results: map<Socket, SendResult>, finished: bool)
  {
    function Failed(): set<Socket> {
      set s | s in results && results[s] != Sent
    }
  }

  datatype Hub = Hub(
    table: Table,
    handlers: map<Socket, Handler>,
    casts: map<nat, Cast>,
    sends: multiset<(nat, Socket)>)

  datatype Event =
    | Arrive(socket: Socket, channel: Channel)
    | FailAccept(socket: Socket)
    | Register(socket: Socket)
    | Leave(socket: Socket)
    | Start(cast: nat, channel: Channel)
    | Send(cast: nat, socket: Socket, result: SendResult)
    | Finish(cast: nat)

  const Idle := Hub(map[], map[], map[], multiset{})

  predicate Enabled(h: Hub, e: Event) {
    match e
    case Arrive(s, _) => s !in h.handlers
    case FailAccept(s) => s in h.handlers && h.handlers[s].phase.Accepting?
    case Register(s) => s in h.handlers && h.handlers[s].phase.Accepting?
    case Leave(s) => s in h.handlers && h.handlers[s].phase.Serving?
    case Start(b, _) => b !in h.casts
    case Send(b, s, _) => b in h.casts && !h.casts[b].finished && s in h.casts[b].snapshot && s !in h.casts[b].results
    case Finish(b) => b in h.casts && !h.casts[b].finished && h.casts[b].results.Keys == h.casts[b].snapshot
  }

  function After(h: Hub, e: Event): Hub
    requires Enabled(h, e)
  {
    match e
    case Arrive(s, c) => h.(handlers := h.handlers[s := Handler(c, Accepting)])
    case FailAccept(s) => h.(handlers := h.handlers[s := h.handlers[s].(phase := Ended)])
    case Register(s) =>
      h.(table := Added(h.table, h.handlers[s].channel, s),
         handlers := h.handlers[s := h.handlers[s].(phase := Serving)])
    case Leave(s) =>
      h.(table := Removed(h.table, h.handlers[s].channel, {s}),
         handlers := h.handlers[s := h.handlers[s].(phase := Ended)])
    case Start(b, c) =>
      h.(casts := h.casts[b := Cast(c, if c in h.table then h.table[c] else {}, map[], false)])
    case Send(b, s, r) =>
      h.(casts := h.casts[b := h.casts[b].(results := h.casts[b].results[s := r])], sends := h.sends + multiset{(b, s)})
    case Finish(b) =>
      var failed := h.casts[b].Failed();
      h.(table := if failed == {} then h.table else Removed(h.table, h.casts[b].channel, failed),
         casts := h.casts[b := h.casts[b].(finished := true)])
  }

  ghost predicate ValidRun(h: Hub, es: seq<Event>)
    decreases |es|
  {
    es == [] || (Enabled(h, es[0]) && ValidRun(After(h, es[0]), es[1..]))
  }

  ghost function End(h: Hub, es: seq<Event>): Hub
    requires ValidRun(h, es)
    decreases |es|
  {
    if es == [] then h else End(After(h, es[0]), es[1..])
  }

  /** A finished broadcast on the channel failed to reach the socket. */
  ghost predicate Dropped(h: Hub, c: Channel, s: Socket) {
    exists b :: b in h.casts && h.casts[b].finished && h.casts[b].channel == c && s in h.casts[b].Failed()
  }

  ghost predicate Live(h: Hub, c: Channel, s: Socket) {
    s in h.handlers && h.handlers[s] == Handler(c, Serving)
  }

  ghost predicate CastOk(h: Hub, b: nat, k: Cast) {
    && k.results.Keys <= k.snapshot
    && (k.finished ==> k.results.Keys == k.snapshot)
    && (forall s :: s in k.snapshot ==>
          s in h.handlers && h.handlers[s].channel == k.channel && !h.handlers[s].phase.Accepting?)
    && (forall s :: h.sends[(b, s)] == if s in k.results then 1 else 0)
  }

  /** A pair is in the table exactly when its handler serves the socket and no finished broadcast
      found the connection broken. */
  ghost predicate Inv(h: Hub) {
    && NoEmptyChannel(h.table)
    && (forall c, s: Socket :: (c, s) in Pairs(h.table) <==> Live(h, c, s) && !Dropped(h, c, s))
    && (forall b :: b in h.casts ==> CastOk(h, b, h.casts[b]))
    && (forall b, s :: b !in h.casts ==> h.sends[(b, s)] == 0)
  }

  lemma NotDroppedWhileAccepting(h: Hub, c: Channel, s: Socket)
    requires Inv(h) && (s in h.handlers ==> h.handlers[s].phase.Accepting?)
    ensures !Dropped(h, c, s)
  {
    forall b | b in h.casts ensures s !in h.casts[b].results { assert CastOk(h, b, h.casts[b]); }
  }

  lemma HandlerStepKeepsCasts(h: Hub, e: Event)
    requires Inv(h) && Enabled(h, e) && (e.Arrive? || e.FailAccept? || e.Register? || e.Leave?)
    ensures var r := After(h, e);
      && (forall b :: b in r.casts ==> CastOk(r, b, r.casts[b]))
      && (forall c, x: Socket :: Dropped(r, c, x) <==> Dropped(h, c, x))
  {
    var r := After(h, e);
    forall b | b in r.casts ensures CastOk(r, b, r.casts[b]) {
      assert CastOk(h, b, h.casts[b]);
    }
    forall c, x: Socket ensures Dropped(r, c, x) <==> Dropped(h, c, x) {}
  }

  lemma HandlerStepKeepsInv(h: Hub, e: Event)
    requires Inv(h) && Enabled(h, e) && (e.Arrive? || e.FailAccept? || e.Register? || e.Leave?)
    ensures Inv(After(h, e))
  {
    var r := After(h, e);
    HandlerStepKeepsCasts(h, e);
    StepRefinesPairs(h, e);
    if e.Register? {
      AddedPairs(h.table, h.handlers[e.socket].channel, e.socket);
      NotDroppedWhileAccepting(h, h.handlers[e.socket].channel, e.socket);
    } else if e.Leave? {
      RemovedPairs(h.table, h.handlers[e.socket].channel, {e.socket});
    }
    forall c, x: Socket ensures (c, x) in Pairs(r.table) <==> Live(r, c, x) && !Dropped(r, c, x) {
      assert (c, x) in Pairs(h.table) <==> Live(h, c, x) && !Dropped(h, c, x);
    }
  }

  lemma CastStepKeepsInv(h: Hub, e: Event)
    requires Inv(h) && Enabled(h, e) && (e.Start? || e.Send?)
    ensures Inv(After(h, e))
  {
    var r := After(h, e);
    forall c, s ensures Dropped(r, c, s) <==> Dropped(h, c, s) {
      if Dropped(h, c, s) {
        var b :| b in h.casts && h.casts[b].finished && h.casts[b].channel == c && s in h.casts[b].Failed();
        assert b in r.casts && r.casts[b] == h.casts[b];
      }
    }
    if e.Start? {
      forall s | s in r.casts[e.cast].snapshot ensures Live(h, e.channel, s) {
        assert (e.channel, s) in Pairs(h.table);
      }
    }
    forall b | b in r.casts ensures CastOk(r, b, r.casts[b]) {
      if b in h.casts { assert CastOk(h, b, h.casts[b]); }
    }
    forall c, x: Socket ensures (c, x) in Pairs(r.table) <==> Live(r, c, x) && !Dropped(r, c, x) {
      assert (c, x) in Pairs(h.table) <==> Live(h, c, x) && !Dropped(h, c, x);
    }
  }

  lemma FinishKeepsInv(h: Hub, e: Event)
    requires Inv(h) && Enabled(h, e) && e.Finish?
    ensures Inv(After(h, e))
  {
    var r := After(h, e);
    var k := h.casts[e.cast];
    RemovedPairs(h.table, k.channel, k.Failed());
    assert CastOk(h, e.cast, k);
    forall b | b in r.casts ensures CastOk(r, b, r.casts[b]) {
      assert CastOk(h, b, h.casts[b]);
    }
    forall c, s ensures Dropped(r, c, s) <==> Dropped(h, c, s) || (c == k.channel && s in k.Failed()) {
      if Dropped(h, c, s) {
        var b :| b in h.casts && h.casts[b].finished && h.casts[b].channel == c && s in h.casts[b].Failed();
        assert b in r.casts && r.casts[b] == h.casts[b];
      }
      if c == k.channel && s in k.Failed() {
        assert r.casts[e.cast].finished && s in r.casts[e.cast].Failed();
      }
    }
    forall c, s: Socket ensures (c, s) in Pairs(r.table) <==> Live(r, c, s) && !Dropped(r, c, s) {
      assert (c, s) in Pairs(h.table) <==> Live(h, c, s) && !Dropped(h, c, s);
    }
  }

  lemma {:induction false} RunKeepsInv(h: Hub, es: seq<Event>)
    requires Inv(h) && ValidRun(h, es)
    ensures Inv(End(h, es))
    decreases |es|
  {
    if es != [] {
      var e := es[0];
      if e.Finish? { FinishKeepsInv(h, e); }
      else if e.Start? || e.Send? { CastStepKeepsInv(h, e); }
      else { HandlerStepKeepsInv(h, e); }
      RunKeepsInv(After(h, e), es[1..]);
    }
  }

  /** At every point of every run: a subscription is in the table exactly while its handler serves
      the socket, unless a finished broadcast found it broken; no channel without members is kept;
      and every broadcast has sent at most once to each socket of its snapshot and to nobody else,
      and exactly once when it is finished. */
  lemma MembershipOverRuns(es: seq<Event>)
    requires ValidRun(Idle, es)
    ensures var h := End(Idle, es);
      && NoEmptyChannel(h.table)
      && (forall c, s: Socket :: (c, s) in Pairs(h.table) <==> Live(h, c, s) && !Dropped(h, c, s))
      && (forall b, s :: h.sends[(b, s)] <= if b in h.casts && s in h.casts[b].snapshot then 1 else 0)
      && (forall b, s :: b in h.casts && h.casts[b].finished && s in h.casts[b].snapshot ==> h.sends[(b, s)] == 1)
  {
    RunKeepsInv(Idle, es);
    var h := End(Idle, es);
    forall b, s | b in h.casts
      ensures h.sends[(b, s)] <= (if s in h.casts[b].snapshot then 1 else 0)
      ensures h.casts[b].finished && s in h.casts[b].snapshot ==> h.sends[(b, s)] == 1
    {
      assert CastOk(h, b, h.casts[b]);
    }
  }

  /** No subscription leaks: once every handler has ended the table is empty, even while broadcasts
      are still cleaning up. */
  lemma EmptyOnceHandlersEnd(es: seq<Event>)
    requires ValidRun(Idle, es)
    requires forall s :: s in End(Idle, es).handlers ==> !End(Idle, es).handlers[s].phase.Serving?
    ensures End(Idle, es).table == map[]
  {
    RunKeepsInv(Idle, es);
    var h := End(Idle, es);
    forall c, s: Socket ensures (c, s) !in Pairs(h.table) {
      assert (c, s) in Pairs(h.table) <==> Live(h, c, s) && !Dropped(h, c, s);
    }
    forall c ensures c in h.table ==> h.table[c] == {} {
      forall s | c in h.table && s in h.table[c] ensures (c, s) in Pairs(h.table) {}
    }
  }

  /** Seen as a set of pairs, connecting adds one pair, disconnecting removes one, a broadcast's
      clean-up removes the sockets whose own send failed, and nothing else changes the table. */
  lemma StepRefinesPairs(h: Hub, e: Event)
    requires Enabled(h, e)
    ensures Pairs(After(h, e).table) == match e
      case Register(s) => Pairs(h.table) + {(h.handlers[s].channel, s)}
      case Leave(s) => Pairs(h.table) - On(h.handlers[s].channel, {s})
      case Finish(b) => Pairs(h.table) - On(h.casts[b].channel, h.casts[b].Failed())
      case _ => Pairs(h.table)
  {
    match e
    case Register(s) => AddedPairs(h.table, h.handlers[s].channel, s);
    case Leave(s) => RemovedPairs(h.table, h.handlers[s].channel, {s});
    case Finish(b) => RemovedPairs(h.table, h.casts[b].channel, h.casts[b].Failed());
    case _ =>
  }

  /** A broadcast is for those who are registered on the channel when it starts. */
  lemma StartTakesMembers(h: Hub, b: nat, c: Channel, s: Socket)
    requires Enabled(h, Start(b, c))
    ensures var k := After(h, Start(b, c)).casts[b];
      k.channel == c && k.results == map[] && !k.finished && (s in k.snapshot <==> (c, s) in Pairs(h.table))
  {
  }

  /** The starting step is what the manager's Snapshot promises. */
  lemma StartIsSnapshot(h: Hub, b: nat, c: Channel, members: seq<Socket>)
    requires Enabled(h, Start(b, c)) && Distinct(members)
    requires Elements(members) == if c in h.table then h.table[c] else {}
    ensures After(h, Start(b, c)).casts[b].snapshot == Elements(members)
    ensures |members| == |After(h, Start(b, c)).casts[b].snapshot|
  {
    DistinctSize(members);
  }

  lemma {:induction false} DistinctSize(s: seq<Socket>)
    requires Distinct(s)
    ensures |Elements(s)| == |s|
  {
    if s != [] {
      DistinctSize(s[1..]);
      assert s == [s[0]] + s[1..];
      assert Elements(s) == Elements(s[1..]) + {s[0]};
    }
  }

  /** Delivery. A socket that is served on the channel, and that no finished broadcast found broken, when
      a broadcast starts there is sent the event exactly once by the time the broadcast is finished,
      whatever connects, leaves or is broadcast meanwhile. */
  lemma EveryMemberIsSent(before: seq<Event>, b: nat, c: Channel, s: Socket, meanwhile: seq<Event>)
    requires ValidRun(Idle, before) && Enabled(End(Idle, before), Start(b, c))
    requires Live(End(Idle, before), c, s) && !Dropped(End(Idle, before), c, s)
    requires ValidRun(After(End(Idle, before), Start(b, c)), meanwhile)
    ensures var r := End(After(End(Idle, before), Start(b, c)), meanwhile);
      b in r.casts && (r.casts[b].finished ==> r.sends[(b, s)] == 1)
  {
    var h := End(Idle, before);
    RunKeepsInv(Idle, before);
    assert (c, s) in Pairs(h.table);
    CastStepKeepsInv(h, Start(b, c));
    var x := After(h, Start(b, c));
    RunKeepsInv(x, meanwhile);
    SnapshotIsFixed(x, meanwhile, b);
    var r := End(x, meanwhile);
    assert CastOk(r, b, r.casts[b]);
  }

  lemma Before(h: Hub, e: Event, es: seq<Event>)
    requires Enabled(h, e) && ValidRun(After(h, e), es)
    ensures ValidRun(h, [e] + es) && End(h, [e] + es) == End(After(h, e), es)
  {
    assert ([e] + es)[1..] == es;
  }

  /** Progress: a broadcast under way can be finished, whatever its remaining sends result in. */
  lemma {:induction false} BroadcastsCanFinish(h: Hub, b: nat, outcome: Socket -> SendResult) returns (es: seq<Event>)
    requires b in h.casts && !h.casts[b].finished && h.casts[b].results.Keys <= h.casts[b].snapshot
    ensures ValidRun(h, es)
    ensures var r := End(h, es);
      && b in r.casts && r.casts[b].finished && r.casts[b].snapshot == h.casts[b].snapshot
      && forall s :: s in h.casts[b].snapshot ==>
           s in r.casts[b].results
           && r.casts[b].results[s] == if s in h.casts[b].results then h.casts[b].results[s] else outcome(s)
    decreases h.casts[b].snapshot - h.casts[b].results.Keys
  {
    var k := h.casts[b];
    if k.results.Keys == k.snapshot {
      es := [Finish(b)];
      assert es[1..] == [];
      assert ValidRun(After(h, Finish(b)), []);
    } else {
      assert k.results.Keys + (k.snapshot - k.results.Keys) == k.snapshot;
      assert k.snapshot - k.results.Keys != {};
      var s :| s in k.snapshot - k.results.Keys;
      var x := After(h, Send(b, s, outcome(s)));
      assert x.casts[b].snapshot - x.casts[b].results.Keys == (k.snapshot - k.results.Keys) - {s};
      var rest := BroadcastsCanFinish(x, b, outcome);
      Before(h, Send(b, s, outcome(s)), rest);
      es := [Send(b, s, outcome(s))] + rest;
    }
  }

  /** A socket that arrives is accepted and registered on its channel, and leaves it again. */
  lemma ArrivalsAreServed(h: Hub, s: Socket, c: Channel)
    requires Enabled(h, Arrive(s, c))
    ensures var x := After(h, Arrive(s, c));
      && s !in h.handlers && Enabled(x, Register(s)) && Enabled(x, FailAccept(s))
      && Live(After(x, Register(s)), c, s) && (c, s) in Pairs(After(x, Register(s)).table)
      && Enabled(After(x, Register(s)), Leave(s)) && (c, s) !in Pairs(After(After(x, Register(s)), Leave(s)).table)
  {
    var x := After(h, Arrive(s, c));
    StepRefinesPairs(x, Register(s));
    StepRefinesPairs(After(x, Register(s)), Leave(s));
  }

  /** A finished broadcast cleans up as the manager's last critical section does: for any order of its
      snapshot and the results in that order, the sockets it found failed are the stale ones, and the
      table is the one that DropStale promises. */
  lemma FinishIsDropStale(h: Hub, b: nat, members: seq<Socket>, results: seq<SendResult>)
    requires Enabled(h, Finish(b)) && |members| == |results| && Elements(members) == h.casts[b].snapshot
    requires forall i :: 0 <= i < |members| ==>
      members[i] in h.casts[b].results && results[i] == h.casts[b].results[members[i]]
    ensures Stale(members, results) == h.casts[b].Failed()
    ensures After(h, Finish(b)).table ==
      if Stale(members, results) == {} then h.table else Removed(h.table, h.casts[b].channel, Stale(members, results))
  {
    var k := h.casts[b];
    forall s ensures s in Stale(members, results) <==> s in k.Failed() {
      if s in k.Failed() {
        assert s in k.snapshot && s in members;
        var i :| 0 <= i < |members| && members[i] == s;
        assert results[i] != Sent;
      }
    }
  }

  /** A socket that registers while a broadcast is sending is not in that broadcast's snapshot at
      any later time, so its clean-up leaves the socket alone. */
  lemma {:induction false} JoinersSurvive(h: Hub, es: seq<Event>, b: nat, s: Socket)
    requires Inv(h) && ValidRun(h, es)
    requires b in h.casts && s in h.handlers && h.handlers[s].phase.Accepting?
    ensures b in End(h, es).casts && s !in End(h, es).casts[b].snapshot
    ensures Enabled(End(h, es), Finish(b)) ==>
      forall c :: (c, s) in Pairs(After(End(h, es), Finish(b)).table) <==> (c, s) in Pairs(End(h, es).table)
  {
    assert CastOk(h, b, h.casts[b]);
    SnapshotIsFixed(h, es, b);
    RunKeepsInv(h, es);
    var r := End(h, es);
    assert CastOk(r, b, r.casts[b]);
    if Enabled(r, Finish(b)) {
      StepRefinesPairs(r, Finish(b));
    }
  }

  lemma {:induction false} SnapshotIsFixed(h: Hub, es: seq<Event>, b: nat)
    requires ValidRun(h, es) && b in h.casts
    ensures b in End(h, es).casts && End(h, es).casts[b].snapshot == h.casts[b].snapshot
    decreases |es|
  {
    if es != [] { SnapshotIsFixed(After(h, es[0]), es[1..], b); }
  }
}
