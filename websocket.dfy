/** The WebSocket connection manager: which sockets are open, which sockets
    follow which research session, and who is sent an agent update or a
    session update. A socket is known by its identity (`Conn`); whether a
    send to it goes through is an oracle, since the network is not modelled.
    The manager's state as a value is a `Registry`; the class
    `AgentWebSocketManager` holds the same two collections as fields and
    each of its methods is proved to move the state exactly as the matching
    function on `Registry` says. */
module WebSocket {
  import opened Wrappers

  /** The identity of one open socket (Python compares them with `==`). */
  type Conn = nat

  /** The manager's state: every accepted socket, in connection order, and
      for each session id the sockets that subscribed to it. */
  datatype Registry = Registry(active: seq<Conn>, sessions: map<string, seq<Conn>>)

  /** Python's `if session_id:` — a missing id and the empty id mean "no session". */
  predicate Given(sid: Option<string>) {
    sid.Some? && sid.value != ""
  }

  /** The sockets following session `s` (none when the key is absent). */
  function Subscribers(m: map<string, seq<Conn>>, s: string): seq<Conn> {
    if s in m then m[s] else []
  }

  /** The invariant the manager keeps: no key is the empty id and no session
      is listed with an empty list of sockets. */
  predicate WellFormed(r: Registry) {
    forall s :: s in r.sessions ==> s != "" && r.sessions[s] != []
  }

  // ---------------------------------------------------------------------
  // list.remove
  // ---------------------------------------------------------------------

  /** The index of the first occurrence of `x` in `s`. */
  function Position(s: seq<Conn>, x: Conn): (i: nat)
    requires x in s
    ensures i < |s| && s[i] == x
    ensures forall j :: 0 <= j < i ==> s[j] != x
  {
    if s[0] == x then 0 else 1 + Position(s[1..], x)
  }

  /** Python's `list.remove` guarded by `in`: drops the first occurrence of
      `x`, or leaves the list alone when `x` does not occur. */
  function RemoveFirst(s: seq<Conn>, x: Conn): seq<Conn> {
    if s == [] then []
    else if s[0] == x then s[1..]
    else [s[0]] + RemoveFirst(s[1..], x)
  }

  /** Removing a socket that does not occur changes nothing. */
  lemma {:induction false} RemoveFirstAbsent(s: seq<Conn>, x: Conn)
    requires x !in s
    ensures RemoveFirst(s, x) == s
  {
    if s != [] {
      RemoveFirstAbsent(s[1..], x);
      assert s == [s[0]] + s[1..];
    }
  }

  /** Removing cuts out exactly the first occurrence and keeps the order of
      the rest. */
  lemma {:induction false} RemoveFirstSplice(s: seq<Conn>, x: Conn)
    requires x in s
    ensures RemoveFirst(s, x) == s[..Position(s, x)] + s[Position(s, x) + 1..]
  {
    if s[0] != x {
      assert x in s[1..];
      RemoveFirstSplice(s[1..], x);
      var p := Position(s[1..], x);
      assert s[..p + 1] == [s[0]] + s[1..][..p];
      assert s[p + 2..] == s[1..][p + 1..];
    }
  }

  /** Removing a socket just appended, when it was not there before, undoes
      the append. */
  lemma {:induction false} RemoveAppended(s: seq<Conn>, x: Conn)
    requires x !in s
    ensures RemoveFirst(s + [x], x) == s
  {
    if s != [] {
      assert (s + [x])[1..] == s[1..] + [x];
      RemoveAppended(s[1..], x);
      assert s == [s[0]] + s[1..];
    }
  }

  /** Removing takes away one copy of `x` and nothing else. */
  lemma {:induction false} RemoveFirstMultiset(s: seq<Conn>, x: Conn)
    ensures multiset(RemoveFirst(s, x)) == multiset(s) - multiset{x}
  {
    if s == [] {
    } else if s[0] == x {
      assert s == [s[0]] + s[1..];
    } else {
      RemoveFirstMultiset(s[1..], x);
      assert s == [s[0]] + s[1..];
    }
  }

  // ---------------------------------------------------------------------
  // connect / disconnect
  // ---------------------------------------------------------------------

  /** connect: the socket is appended to the open sockets and, when a
      session id is given, to that session's list (created if missing). */
  function Connected(r: Registry, ws: Conn, sid: Option<string>): (c: Registry)
    ensures c.active == r.active + [ws]
  {
    Registry(r.active + [ws],
             if Given(sid) then r.sessions[sid.value := Subscribers(r.sessions, sid.value) + [ws]]
             else r.sessions)
  }

  /** After connect, the given session lists the socket last; every other
      session is as it was. */
  lemma ConnectedSubscribers(r: Registry, ws: Conn, sid: Option<string>, s: string)
    ensures Subscribers(Connected(r, ws, sid).sessions, s)
      == if Given(sid) && s == sid.value then Subscribers(r.sessions, s) + [ws]
         else Subscribers(r.sessions, s)
  {
  }

  /** disconnect's session half: with a given id that is present, the socket
      leaves that session's list, and a list left empty loses its key. */
  function Unsubscribed(m: map<string, seq<Conn>>, ws: Conn, sid: Option<string>): map<string, seq<Conn>> {
    if Given(sid) && sid.value in m then
      var rest := if ws in m[sid.value] then RemoveFirst(m[sid.value], ws) else m[sid.value];
      if rest == [] then m - {sid.value} else m[sid.value := rest]
    else m
  }

  /** disconnect: the socket's first copy leaves the open sockets, and it
      leaves the given session's list. */
  function Disconnected(r: Registry, ws: Conn, sid: Option<string>): Registry {
    Registry(RemoveFirst(r.active, ws), Unsubscribed(r.sessions, ws, sid))
  }

  /** disconnect takes one copy of the socket out of the open sockets. */
  lemma DisconnectedActive(r: Registry, ws: Conn, sid: Option<string>)
    ensures multiset(Disconnected(r, ws, sid).active) == multiset(r.active) - multiset{ws}
  {
    RemoveFirstMultiset(r.active, ws);
  }

  /** disconnect takes the socket's first entry out of the given session's
      list and leaves every other session as it was. */
  lemma DisconnectedSubscribers(r: Registry, ws: Conn, sid: Option<string>, s: string)
    ensures Subscribers(Disconnected(r, ws, sid).sessions, s)
      == if Given(sid) && s == sid.value then RemoveFirst(Subscribers(r.sessions, s), ws)
         else Subscribers(r.sessions, s)
  {
    if ws !in Subscribers(r.sessions, s) {
      RemoveFirstAbsent(Subscribers(r.sessions, s), ws);
    }
  }

  lemma ConnectedWellFormed(r: Registry, ws: Conn, sid: Option<string>)
    requires WellFormed(r)
    ensures WellFormed(Connected(r, ws, sid))
  {
  }

  lemma DisconnectedWellFormed(r: Registry, ws: Conn, sid: Option<string>)
    requires WellFormed(r)
    ensures WellFormed(Disconnected(r, ws, sid))
  {
  }

  /** Disconnecting a socket that was just connected, with the same session
      id, gives back the state before the connection. */
  lemma ConnectThenDisconnect(r: Registry, ws: Conn, sid: Option<string>)
    requires WellFormed(r)
    requires ws !in r.active
    requires Given(sid) ==> ws !in Subscribers(r.sessions, sid.value)
    ensures Disconnected(Connected(r, ws, sid), ws, sid) == r
  {
    var c := Connected(r, ws, sid);
    RemoveAppended(r.active, ws);
    if Given(sid) {
      var s := sid.value;
      RemoveAppended(Subscribers(r.sessions, s), ws);
      assert c.sessions[s] == Subscribers(r.sessions, s) + [ws];
      if s in r.sessions {
        assert Unsubscribed(c.sessions, ws, sid) == c.sessions[s := r.sessions[s]];
        assert c.sessions[s := r.sessions[s]] == r.sessions;
      } else {
        assert Unsubscribed(c.sessions, ws, sid) == c.sessions - {s};
        assert c.sessions - {s} == r.sessions;
      }
    }
  }

  // ---------------------------------------------------------------------
  // Sending
  // ---------------------------------------------------------------------

  /** The sockets of `cs`, in order, whose send raised. */
  function Failures(cs: seq<Conn>, delivers: Conn -> bool): (f: seq<Conn>)
    ensures forall c :: c in f ==> c in cs && !delivers(c)
  {
    if cs == [] then []
    else Failures(cs[..|cs| - 1], delivers) + (if delivers(cs[|cs| - 1]) then [] else [cs[|cs| - 1]])
  }

  /** A socket fails once for each time it is listed, when its sends raise,
      and never otherwise. */
  lemma {:induction false} FailuresCount(cs: seq<Conn>, delivers: Conn -> bool, ws: Conn)
    ensures multiset(Failures(cs, delivers))[ws] == if delivers(ws) then 0 else multiset(cs)[ws]
  {
    if cs != [] {
      FailuresCount(cs[..|cs| - 1], delivers, ws);
      assert cs == cs[..|cs| - 1] + [cs[|cs| - 1]];
    }
  }

  /** The cleanup loops: `disconnect(conn, sid)` for each socket of `cs` in turn. */
  function DisconnectAll(r: Registry, cs: seq<Conn>, sid: Option<string>): Registry {
    if cs == [] then r
    else Disconnected(DisconnectAll(r, cs[..|cs| - 1], sid), cs[|cs| - 1], sid)
  }

  lemma {:induction false} DisconnectAllWellFormed(r: Registry, cs: seq<Conn>, sid: Option<string>)
    requires WellFormed(r)
    ensures WellFormed(DisconnectAll(r, cs, sid))
  {
    if cs != [] {
      DisconnectAllWellFormed(r, cs[..|cs| - 1], sid);
      DisconnectedWellFormed(DisconnectAll(r, cs[..|cs| - 1], sid), cs[|cs| - 1], sid);
    }
  }

  /** Taking away a bag and then one more element is taking away both. */
  lemma LessOneMore(a: multiset<Conn>, b: multiset<Conn>, x: Conn)
    ensures (a - b) - multiset{x} == a - (b + multiset{x})
  {
    forall y
      ensures ((a - b) - multiset{x})[y] == (a - (b + multiset{x}))[y]
    {
    }
  }

  /** `list.remove` applied for each socket of `cs` in turn. */
  function RemoveEach(s: seq<Conn>, cs: seq<Conn>): seq<Conn> {
    if cs == [] then s else RemoveFirst(RemoveEach(s, cs[..|cs| - 1]), cs[|cs| - 1])
  }

  /** Removing each socket of `cs` takes away one copy per entry of `cs`. */
  lemma {:induction false} RemoveEachMultiset(s: seq<Conn>, cs: seq<Conn>)
    ensures multiset(RemoveEach(s, cs)) == multiset(s) - multiset(cs)
  {
    if cs != [] {
      var init := cs[..|cs| - 1];
      var last := cs[|cs| - 1];
      RemoveEachMultiset(s, init);
      RemoveFirstMultiset(RemoveEach(s, init), last);
      assert cs == init + [last];
      assert multiset(cs) == multiset(init) + multiset{last};
      LessOneMore(multiset(s), multiset(init), last);
    }
  }

  /** The cleanup loop removes each listed socket from the open sockets. */
  lemma {:induction false} DisconnectAllOpen(r: Registry, cs: seq<Conn>, sid: Option<string>)
    ensures DisconnectAll(r, cs, sid).active == RemoveEach(r.active, cs)
  {
    if cs != [] {
      DisconnectAllOpen(r, cs[..|cs| - 1], sid);
    }
  }

  /** Each listed socket takes one of its copies out of the open sockets. */
  lemma DisconnectAllActive(r: Registry, cs: seq<Conn>, sid: Option<string>)
    ensures multiset(DisconnectAll(r, cs, sid).active) == multiset(r.active) - multiset(cs)
  {
    DisconnectAllOpen(r, cs, sid);
    RemoveEachMultiset(r.active, cs);
  }

  /** The cleanup loop with a session id removes each listed socket from
      that session's list. */
  lemma {:induction false} DisconnectAllOwnSession(r: Registry, cs: seq<Conn>, s: string)
    requires s != ""
    ensures Subscribers(DisconnectAll(r, cs, Some(s)).sessions, s) == RemoveEach(Subscribers(r.sessions, s), cs)
  {
    if cs != [] {
      DisconnectAllOwnSession(r, cs[..|cs| - 1], s);
      DisconnectedSubscribers(DisconnectAll(r, cs[..|cs| - 1], Some(s)), cs[|cs| - 1], Some(s), s);
    }
  }

  /** Every session other than the given one keeps its list. */
  lemma {:induction false} DisconnectAllOtherSessions(r: Registry, cs: seq<Conn>, sid: Option<string>, s: string)
    requires !(Given(sid) && s == sid.value)
    ensures Subscribers(DisconnectAll(r, cs, sid).sessions, s) == Subscribers(r.sessions, s)
  {
    if cs != [] {
      DisconnectAllOtherSessions(r, cs[..|cs| - 1], sid, s);
      DisconnectedSubscribers(DisconnectAll(r, cs[..|cs| - 1], sid), cs[|cs| - 1], sid, s);
    }
  }

  /** Both cases together, counted per socket. */
  lemma DisconnectAllSessions(r: Registry, cs: seq<Conn>, sid: Option<string>, s: string)
    ensures multiset(Subscribers(DisconnectAll(r, cs, sid).sessions, s))
      == if Given(sid) && s == sid.value then multiset(Subscribers(r.sessions, s)) - multiset(cs)
         else multiset(Subscribers(r.sessions, s))
  {
    if Given(sid) && s == sid.value {
      DisconnectAllOwnSession(r, cs, s);
      RemoveEachMultiset(Subscribers(r.sessions, s), cs);
    } else {
      DisconnectAllOtherSessions(r, cs, sid, s);
    }
  }

  /** send_personal_message: a failed send disconnects the socket, without a
      session id. */
  function PersonalSent(r: Registry, ws: Conn, delivered: bool): Registry {
    if delivered then r else Disconnected(r, ws, None)
  }

  /** A failed personal send takes the socket out of the open sockets and
      leaves every session list as it was. */
  lemma PersonalFailure(r: Registry, ws: Conn, s: string)
    ensures multiset(PersonalSent(r, ws, false).active) == multiset(r.active) - multiset{ws}
    ensures Subscribers(PersonalSent(r, ws, false).sessions, s) == Subscribers(r.sessions, s)
  {
    DisconnectedActive(r, ws, None);
  }

  // ---------------------------------------------------------------------
  // broadcast_agent_update
  // ---------------------------------------------------------------------

  /** The state after the session loop and its cleanup. */
  function AfterSessionPass(r: Registry, sid: string, delivers: Conn -> bool): Registry {
    DisconnectAll(r, Failures(Subscribers(r.sessions, sid), delivers), Some(sid))
  }

  /** Every send of an agent update, in order: the session's sockets, then
      every socket still open after the first cleanup. */
  function AgentAttempts(r: Registry, sid: string, delivers: Conn -> bool): seq<Conn> {
    Subscribers(r.sessions, sid) + AfterSessionPass(r, sid, delivers).active
  }

  /** The state after an agent update: the general failures are
      disconnected without a session id. */
  function AgentUpdated(r: Registry, sid: string, delivers: Conn -> bool): Registry {
    var mid := AfterSessionPass(r, sid, delivers);
    DisconnectAll(mid, Failures(mid.active, delivers), None)
  }

  /** How many times an agent update is sent to a socket: once per entry in
      the session's list, plus once per entry among the open sockets; a
      socket whose sends raise loses, before the second loop, one open entry
      per session entry, so it is not sent to again when it was open once. */
  lemma AgentUpdateCount(r: Registry, sid: string, delivers: Conn -> bool, ws: Conn)
    ensures var subs := multiset(Subscribers(r.sessions, sid))[ws];
            var open := multiset(r.active)[ws];
            multiset(AgentAttempts(r, sid, delivers))[ws]
              == subs + if delivers(ws) then open else if open <= subs then 0 else open - subs
  {
    var subs := Subscribers(r.sessions, sid);
    DisconnectAllActive(r, Failures(subs, delivers), Some(sid));
    FailuresCount(subs, delivers, ws);
  }

  /** A session subscriber that is also open and reachable receives an agent
      update twice. */
  lemma AgentUpdateTwice(r: Registry, sid: string, delivers: Conn -> bool, ws: Conn)
    requires ws in Subscribers(r.sessions, sid) && ws in r.active && delivers(ws)
    ensures multiset(AgentAttempts(r, sid, delivers))[ws] >= 2
  {
    AgentUpdateCount(r, sid, delivers, ws);
  }

  /** After an agent update, a socket whose sends raise is no longer open;
      a reachable socket keeps all its open entries. */
  lemma AgentUpdateCloses(r: Registry, sid: string, delivers: Conn -> bool, ws: Conn)
    ensures multiset(AgentUpdated(r, sid, delivers).active)[ws]
      == if delivers(ws) then multiset(r.active)[ws] else 0
  {
    var subs := Subscribers(r.sessions, sid);
    var mid := AfterSessionPass(r, sid, delivers);
    DisconnectAllActive(r, Failures(subs, delivers), Some(sid));
    DisconnectAllActive(mid, Failures(mid.active, delivers), None);
    FailuresCount(subs, delivers, ws);
    FailuresCount(mid.active, delivers, ws);
  }

  /** After an agent update, a socket whose sends raise no longer follows
      the updated session, but every other session still lists it. */
  lemma AgentUpdateSubscriptions(r: Registry, sid: string, delivers: Conn -> bool, ws: Conn, s: string)
    ensures multiset(Subscribers(AgentUpdated(r, sid, delivers).sessions, s))[ws]
      == if s == sid && sid != "" && !delivers(ws) then 0 else multiset(Subscribers(r.sessions, s))[ws]
  {
    var subs := Subscribers(r.sessions, sid);
    var mid := AfterSessionPass(r, sid, delivers);
    DisconnectAllSessions(r, Failures(subs, delivers), Some(sid), s);
    DisconnectAllSessions(mid, Failures(mid.active, delivers), None, s);
    FailuresCount(subs, delivers, ws);
  }

  // ---------------------------------------------------------------------
  // broadcast_session_update
  // ---------------------------------------------------------------------

  /** `order` lists the set of the open sockets and the session's sockets,
      each once, in the order Python's set iteration happens to give. */
  predicate Enumerates(order: seq<Conn>, r: Registry, sid: string) {
    (forall c :: c in order ==> c in r.active || c in Subscribers(r.sessions, sid)) &&
    (forall c :: c in r.active ==> c in order) &&
    (forall c :: c in Subscribers(r.sessions, sid) ==> c in order) &&
    (forall i, j :: 0 <= i < j < |order| ==> order[i] != order[j])
  }

  /** The state after a session update sent in `order`: each failure is
      disconnected with the session id. */
  function SessionUpdated(r: Registry, sid: string, order: seq<Conn>, delivers: Conn -> bool): Registry {
    DisconnectAll(r, Failures(order, delivers), Some(sid))
  }

  lemma {:induction false} DistinctCount(order: seq<Conn>, ws: Conn)
    requires forall i, j :: 0 <= i < j < |order| ==> order[i] != order[j]
    ensures multiset(order)[ws] == if ws in order then 1 else 0
  {
    if order != [] {
      var init := order[..|order| - 1];
      DistinctCount(init, ws);
      assert order == init + [order[|order| - 1]];
    }
  }

  /** A session update reaches every open or subscribed socket exactly once;
      a socket whose send raises loses one open entry and one entry in this
      session's list, and keeps its entries in every other session. */
  lemma SessionUpdateEffect(r: Registry, sid: string, order: seq<Conn>, delivers: Conn -> bool,
                            ws: Conn, s: string)
    requires Enumerates(order, r, sid)
    ensures multiset(order)[ws] == if ws in r.active || ws in Subscribers(r.sessions, sid) then 1 else 0
    ensures var u := SessionUpdated(r, sid, order, delivers);
            var open := multiset(r.active)[ws];
            var subs := multiset(Subscribers(r.sessions, s))[ws];
            multiset(u.active)[ws] == (if delivers(ws) || open == 0 then open else open - 1) &&
            multiset(Subscribers(u.sessions, s))[ws]
              == if s == sid && sid != "" && !delivers(ws) && subs > 0 then subs - 1 else subs
  {
    DistinctCount(order, ws);
    FailuresCount(order, delivers, ws);
    DisconnectAllActive(r, Failures(order, delivers), Some(sid));
    DisconnectAllSessions(r, Failures(order, delivers), Some(sid), s);
    if s == sid && multiset(Subscribers(r.sessions, s))[ws] > 0 {
      assert ws in Subscribers(r.sessions, sid);
    }
  }

  // ---------------------------------------------------------------------
  // The manager
  // ---------------------------------------------------------------------

  /** Sends to each socket of `targets` in turn, collecting those whose
      send raised; nothing in the manager changes while sending. */
  method SendAll(targets: seq<Conn>, delivers: Conn -> bool) returns (failed: seq<Conn>)
    ensures failed == Failures(targets, delivers)
  {
    failed := [];
    var i := 0;
    while i < |targets|
      invariant i <= |targets|
      invariant failed == Failures(targets[..i], delivers)
    {
      assert targets[..i + 1][..i] == targets[..i];
      if !delivers(targets[i]) {
        failed := failed + [targets[i]];
      }
      i := i + 1;
    }
    assert targets[..i] == targets;
  }

  class AgentWebSocketManager {
    var activeConnections: seq<Conn>
    var sessionConnections: map<string, seq<Conn>>

    function State(): Registry
      reads this
    {
      Registry(activeConnections, sessionConnections)
    }

    ghost predicate Valid()
      reads this
    {
      WellFormed(State())
    }

    constructor()
      ensures Valid()
      ensures State() == Registry([], map[])
    {
      activeConnections := [];
      sessionConnections := map[];
    }

    /** connect (the socket's accept handshake is not modelled). */
    method Connect(ws: Conn, sid: Option<string>)
      requires Valid()
      modifies this
      ensures Valid()
      ensures State() == Connected(old(State()), ws, sid)
    {
      ConnectedWellFormed(State(), ws, sid);
      activeConnections := activeConnections + [ws];
      if Given(sid) {
        if sid.value !in sessionConnections {
          sessionConnections := sessionConnections[sid.value := []];
        }
        sessionConnections := sessionConnections[sid.value := sessionConnections[sid.value] + [ws]];
      }
    }

    method Disconnect(ws: Conn, sid: Option<string>)
      requires Valid()
      modifies this
      ensures Valid()
      ensures State() == Disconnected(old(State()), ws, sid)
    {
      DisconnectedWellFormed(State(), ws, sid);
      if ws in activeConnections {
        activeConnections := RemoveFirst(activeConnections, ws);
      }
      if Given(sid) && sid.value in sessionConnections {
        if ws in sessionConnections[sid.value] {
          sessionConnections := sessionConnections[sid.value := RemoveFirst(sessionConnections[sid.value], ws)];
        }
        if sessionConnections[sid.value] == [] {
          sessionConnections := sessionConnections - {sid.value};
        }
      }
      if ws !in old(activeConnections) {
        RemoveFirstAbsent(old(activeConnections), ws);
      }
    }

    /** Disconnects each socket of `cs` in turn, with the same session id. */
    method DisconnectEach(cs: seq<Conn>, sid: Option<string>)
      requires Valid()
      modifies this
      ensures Valid()
      ensures State() == DisconnectAll(old(State()), cs, sid)
    {
      var j := 0;
      while j < |cs|
        invariant j <= |cs|
        invariant Valid()
        invariant State() == DisconnectAll(old(State()), cs[..j], sid)
      {
        assert cs[..j + 1][..j] == cs[..j];
        Disconnect(cs[j], sid);
        j := j + 1;
      }
      assert cs[..j] == cs;
    }

    /** send_personal_message, where `delivered` says whether the send went
        through. */
    method SendPersonalMessage(ws: Conn, delivered: bool)
      requires Valid()
      modifies this
      ensures Valid()
      ensures State() == PersonalSent(old(State()), ws, delivered)
    {
      if !delivered {
        Disconnect(ws, None);
      }
    }

    /** broadcast_agent_update; `attempts` lists every send, in order. */
    method BroadcastAgentUpdate(sid: string, delivers: Conn -> bool) returns (attempts: seq<Conn>)
      requires Valid()
      modifies this
      ensures Valid()
      ensures attempts == AgentAttempts(old(State()), sid, delivers)
      ensures State() == AgentUpdated(old(State()), sid, delivers)
    {
      attempts := [];
      if sid in sessionConnections {
        var subs := sessionConnections[sid];
        var disconnected := SendAll(subs, delivers);
        attempts := subs;
        DisconnectEach(disconnected, Some(sid));
      }
      assert State() == AfterSessionPass(old(State()), sid, delivers);
      var general := activeConnections;
      var disconnectedGeneral := SendAll(general, delivers);
      attempts := attempts + general;
      DisconnectEach(disconnectedGeneral, None);
    }

    /** broadcast_session_update, sending in `order`, the iteration order of
        the set of recipients; `attempts` lists every send. */
    method BroadcastSessionUpdate(sid: string, order: seq<Conn>, delivers: Conn -> bool)
      returns (attempts: seq<Conn>)
      requires Valid()
      requires Enumerates(order, State(), sid)
      modifies this
      ensures Valid()
      ensures attempts == order
      ensures State() == SessionUpdated(old(State()), sid, order, delivers)
    {
      var disconnected := SendAll(order, delivers);
      attempts := order;
      DisconnectEach(disconnected, Some(sid));
    }
  }
}
