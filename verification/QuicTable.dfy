/** The connection-ID table of `QuicProtocol` and the IDs each connection remembers
    (section 5.1 of RFC 9000). The table must stay the exact inverse of the connections'
    ID sets: a deletion that misses would raise, and an ID left behind would keep the
    protocol from ever being idle. aioquic's events are parameters. */
module QuicTables {
  import opened Bytes

  type Cid = Bytes
  type ConnId = nat

  /** `entries` is the protocol's dictionary; `cids` the ID set of every connection made. */
  datatype Table = Table(entries: map<Cid, ConnId>, cids: map<ConnId, set<Cid>>)

  /** The keys pointing to a connection are exactly its IDs. */
  ghost predicate Inverse(t: Table) {
    && (forall id <- t.entries :: t.entries[id] in t.cids && id in t.cids[t.entries[id]])
    && (forall c, id :: c in t.cids && id in t.cids[c] ==> id in t.entries && t.entries[id] == c)
  }

  /** A new connection `c` for an initial packet: known by the packet's destination and by
      the ID aioquic has chosen. */
  function Create(t: Table, c: ConnId, destination: Cid, host: Cid): Table {
    Table(t.entries[destination := c][host := c], t.cids[c := {destination, host}])
  }

  function Issue(t: Table, c: ConnId, id: Cid): Table
    requires c in t.cids
  {
    Table(t.entries[id := c], t.cids[c := t.cids[c] + {id}])
  }

  /** `None` stands for the KeyError of a deletion that misses. */
  function Retire(t: Table, c: ConnId, id: Cid): Option<Table>
    requires c in t.cids
  {
    if id in t.cids[c] && id in t.entries then Some(Table(t.entries - {id}, t.cids[c := t.cids[c] - {id}])) else None
  }

  function Terminate(t: Table, c: ConnId): Option<Table>
    requires c in t.cids
  {
    if t.cids[c] <= t.entries.Keys then Some(Table(t.entries - t.cids[c], t.cids[c := {}])) else None
  }

  /** What `handle` does with a packet: the table, the connection that is given it, and the
      version negotiation sent instead, from the packet's destination to its source. */
  datatype Handled = Handled(t: Table, receiver: Option<ConnId>, negotiation: Option<(Cid, Cid)>)

  /** A packet header: its version is supported, it may start a connection (it is an initial
      packet of at least 1200 bytes), and its IDs. */
  datatype Header = Header(supported: bool, startsConnection: bool, source: Cid, destination: Cid)

  function Datagram(t: Table, header: Header, terminated: bool, c: ConnId, host: Cid): Handled {
    var destination := header.destination;
    if !header.supported then Handled(t, None, Some((destination, header.source)))
    else if destination in t.entries then Handled(t, Some(t.entries[destination]), None)
    else if header.startsConnection && !terminated then Handled(Create(t, c, destination, host), Some(c), None)
    else Handled(t, None, None)
  }

  // ---------------------------------------------------------------------------
  // Exactly when the inverse is kept

  /** A key handed to `c` while another connection still has the ID breaks the inverse. */
  lemma OwnedElsewhere(t: Table, t': Table, id: Cid, c: ConnId)
    requires Inverse(t) && id in t.entries && t.entries[id] != c
    requires id in t'.entries && t'.entries[id] == c
    requires forall d <- t.cids :: d != c ==> d in t'.cids && t'.cids[d] == t.cids[d]
    ensures !Inverse(t')
  {
    var d := t.entries[id];
    assert d in t'.cids && id in t'.cids[d] && t'.entries[id] != d;
  }

  /** An issued ID keeps the table exact if and only if no other connection owns it. */
  lemma IssueKeepsIff(t: Table, c: ConnId, id: Cid)
    requires Inverse(t) && c in t.cids
    ensures Inverse(Issue(t, c, id)) <==> (id in t.entries ==> t.entries[id] == c)
  {
    var t' := Issue(t, c, id);
    if id in t.entries && t.entries[id] != c {
      OwnedElsewhere(t, t', id, c);
    } else {
      assert forall d, i :: d in t'.cids && i in t'.cids[d] ==> (i == id && d == c) || (d in t.cids && i in t.cids[d]);
    }
  }

  /** A new connection keeps the table exact if and only if its host ID is not in use. */
  lemma CreateKeepsIff(t: Table, c: ConnId, destination: Cid, host: Cid)
    requires Inverse(t) && c !in t.cids && destination !in t.entries
    ensures Inverse(Create(t, c, destination, host)) <==> host !in t.entries
  {
    var t' := Create(t, c, destination, host);
    if host in t.entries {
      OwnedElsewhere(t, t', host, c);
    } else {
      assert forall d, i :: d in t'.cids && i in t'.cids[d] ==> d == c || (d in t.cids && i in t.cids[d]);
    }
  }

  /** Retiring an ID misses if and only if the connection does not have it. */
  lemma RetireExact(t: Table, c: ConnId, id: Cid)
    requires Inverse(t) && c in t.cids
    ensures Retire(t, c, id).Some? <==> id in t.cids[c]
    ensures Retire(t, c, id).Some? ==> Inverse(Retire(t, c, id).value)
  {
  }

  /** Terminating never misses, and leaves no key of the connection and all others. */
  lemma TerminateExact(t: Table, c: ConnId)
    requires Inverse(t) && c in t.cids
    ensures Terminate(t, c).Some?
    ensures var t' := Terminate(t, c).value;
      && Inverse(t')
      && (forall id <- t'.entries :: t'.entries[id] != c)
      && (forall id <- t.entries :: t.entries[id] != c ==> id in t'.entries && t'.entries[id] == t.entries[id])
  {
  }

  // ---------------------------------------------------------------------------
  // Runs

  datatype Action =
    | Packet(header: Header, c: ConnId, host: Cid)
    | Issued(c: ConnId, id: Cid)
    | Retired(c: ConnId, id: Cid)
    | Terminated(c: ConnId)
    | ShutDown

  datatype State = State(t: Table, terminated: bool)

  const NEW := State(Table(map[], map[]), false)

  /** aioquic makes fresh IDs and retires only IDs it has issued. */
  predicate Enabled(s: State, a: Action) {
    match a
    case Packet(_, c, host) => c !in s.t.cids && host !in s.t.entries
    case Issued(c, id) => c in s.t.cids && id !in s.t.entries
    case Retired(c, id) => c in s.t.cids && id in s.t.cids[c]
    case Terminated(c) => c in s.t.cids
    case ShutDown => true
  }

  /** A step; the table stays as it is when a deletion would miss. */
  function Step(s: State, a: Action): State
    requires Enabled(s, a)
  {
    match a
    case Packet(header, c, host) => s.(t := Datagram(s.t, header, s.terminated, c, host).t)
    case Issued(c, id) => s.(t := Issue(s.t, c, id))
    case Retired(c, id) => s.(t := Retire(s.t, c, id).GetOr(s.t))
    case Terminated(c) => s.(t := Terminate(s.t, c).GetOr(s.t))
    case ShutDown => s.(terminated := true)
  }

  ghost predicate Legal(s: State, run: seq<Action>)
    decreases |run|
  {
    run == [] || (Enabled(s, run[0]) && Legal(Step(s, run[0]), run[1..]))
  }

  ghost function Run(s: State, run: seq<Action>): State
    requires Legal(s, run)
    decreases |run|
  {
    if run == [] then s else Run(Step(s, run[0]), run[1..])
  }

  lemma StepKeeps(s: State, a: Action)
    requires Inverse(s.t) && Enabled(s, a)
    ensures Inverse(Step(s, a).t)
  {
    match a
    case Packet(header, c, host) =>
      if header.destination !in s.t.entries {
        CreateKeepsIff(s.t, c, header.destination, host);
      }
    case Issued(c, id) => IssueKeepsIff(s.t, c, id);
    case Retired(c, id) => RetireExact(s.t, c, id);
    case Terminated(c) => TerminateExact(s.t, c);
    case ShutDown =>
  }

  /** In every run the table and the ID sets are inverses, so no deletion ever misses. */
  lemma {:induction false} RunKeeps(s: State, run: seq<Action>)
    requires Inverse(s.t) && Legal(s, run)
    ensures Inverse(Run(s, run).t)
    decreases |run|
  {
    hide Inverse, Step, Enabled;
    if run != [] {
      StepKeeps(s, run[0]);
      RunKeeps(Step(s, run[0]), run[1..]);
    }
  }

  lemma NoDeletionMisses(run: seq<Action>, c: ConnId, id: Cid)
    requires Legal(NEW, run) && c in Run(NEW, run).t.cids
    ensures var t := Run(NEW, run).t;
      Terminate(t, c).Some? && (Retire(t, c, id).Some? <==> id in t.entries && t.entries[id] == c)
  {
    RunKeeps(NEW, run);
    TerminateExact(Run(NEW, run).t, c);
  }

  /** `idle` holds exactly when no connection owns an ID. */
  lemma IdleIff(run: seq<Action>)
    requires Legal(NEW, run)
    ensures var t := Run(NEW, run).t; t.entries == map[] <==> forall c <- t.cids :: t.cids[c] == {}
  {
    RunKeeps(NEW, run);
    var t := Run(NEW, run).t;
    if t.entries != map[] {
      var id :| id in t.entries;
      assert id in t.cids[t.entries[id]];
    } else {
      forall c | c in t.cids ensures t.cids[c] == {} {
        assert forall id :: id in t.cids[c] ==> id in t.entries;
      }
    }
  }

  /** Once the server is terminating, no new connection enters the table. */
  lemma {:induction false} NoConnectionAfterShutDown(s: State, run: seq<Action>)
    requires s.terminated && Legal(s, run)
    ensures Run(s, run).t.cids.Keys == s.t.cids.Keys && Run(s, run).terminated
    decreases |run|
  {
    if run != [] {
      var s' := Step(s, run[0]);
      assert s'.t.cids.Keys == s.t.cids.Keys;
      NoConnectionAfterShutDown(s', run[1..]);
    }
  }

  // ---------------------------------------------------------------------------
  // The objects

  class Connection {
    const number: ConnId
    var cids: set<Cid>

    constructor (number: ConnId, cids: set<Cid>)
      ensures this.number == number && this.cids == cids
    {
      this.number, this.cids := number, cids;
    }
  }

  class QuicProtocol {
    var connections: map<Cid, Connection>
    /** Every connection made, by its number. */
    ghost var made: map<ConnId, Connection>

    ghost predicate Valid()
      reads this
    {
      && (forall c <- made :: made[c].number == c)
      && (forall id <- connections :: connections[id].number in made && made[connections[id].number] == connections[id])
    }

    ghost function View(): Table
      reads this, made.Values
    {
      Table(map id | id in connections :: connections[id].number, map c | c in made :: made[c].cids)
    }

    constructor ()
      ensures Valid() && View() == NEW.t
    {
      connections, made := map[], map[];
    }

    predicate Idle()
      reads this
      ensures Idle() <==> connections == map[]
    {
      |connections| == 0
    }

    method HandlePacket(header: Header, terminated: bool, c: ConnId, host: Cid)
      returns (connection: Option<Connection>, negotiation: Option<(Cid, Cid)>)
      requires Valid() && c !in made
      modifies this
      ensures Valid()
      ensures Handled(View(), if connection.Some? then Some(connection.value.number) else None, negotiation) ==
        Datagram(old(View()), header, terminated, c, host)
    {
      if !header.supported {
        return None, Some((header.destination, header.source));
      }
      if header.destination in connections {
        return Some(connections[header.destination]), None;
      }
      if !header.startsConnection || terminated {
        return None, None;
      }
      var created := Register(header.destination, c, host);
      return Some(created), None;
    }

    /** A connection is entered under both of its IDs. */
    method Register(destination: Cid, c: ConnId, host: Cid) returns (connection: Connection)
      requires Valid() && c !in made
      modifies this
      ensures Valid() && connection.number == c && c in made && made[c] == connection
      ensures View() == Create(old(View()), c, destination, host)
    {
      ghost var before := View();
      connection := new Connection(c, {destination, host});
      made := made[c := connection];
      assert View() == Table(before.entries, before.cids[c := {destination, host}]);
      Enter(destination, connection);
      Enter(host, connection);
    }

    method Enter(id: Cid, connection: Connection)
      requires Valid() && connection.number in made && made[connection.number] == connection
      modifies this`connections
      ensures Valid() && View() == Table(old(View()).entries[id := connection.number], old(View()).cids)
    {
      connections := connections[id := connection];
      assert View().entries == old(View()).entries[id := connection.number];
    }

    method HandleIssued(connection: Connection, id: Cid)
      requires Valid() && connection.number in made && made[connection.number] == connection
      modifies this, connection
      ensures Valid() && View() == Issue(old(View()), connection.number, id)
    {
      connection.cids := connection.cids + {id};
      connections := connections[id := connection];
      assert View().cids == old(View()).cids[connection.number := connection.cids];
    }

    /** Both deletions; `missed` when one of them raises. */
    method HandleRetired(connection: Connection, id: Cid) returns (missed: bool)
      requires Valid() && connection.number in made && made[connection.number] == connection
      modifies this, connection
      ensures Valid()
      ensures var t := Retire(old(View()), connection.number, id); missed == t.None? && (!missed ==> View() == t.value)
    {
      if id !in connection.cids || id !in connections {
        return true;
      }
      connection.cids := connection.cids - {id};
      connections := connections - {id};
      assert View().cids == old(View()).cids[connection.number := connection.cids];
      assert View().entries == old(View()).entries - {id};
      missed := false;
    }

    /** Deletes the connection's keys one by one. */
    method HandleTerminated(connection: Connection)
      requires Valid() && connection.number in made && made[connection.number] == connection
      requires Inverse(View())
      modifies this, connection
      ensures Valid() && Some(View()) == Terminate(old(View()), connection.number)
    {
      ghost var before := View();
      var left := connection.cids;
      while left != {}
        invariant left <= connection.cids && connection.cids == old(connection.cids) && made == old(made)
        invariant connections == old(connections) - (connection.cids - left)
        invariant connection.cids <= before.entries.Keys
        decreases left
      {
        var id :| id in left;
        assert id in connections;
        connections := connections - {id};
        left := left - {id};
      }
      connection.cids := {};
      assert View().cids == before.cids[connection.number := {}];
      assert View().entries == before.entries - before.cids[connection.number];
    }
  }
}
