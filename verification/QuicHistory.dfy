/** Who owns a connection ID, told from the history alone, and who is given a packet. */
module QuicHistory {
  import opened Bytes
  import opened QuicTables

  lemma {:induction false} Prefix(s: State, run: seq<Action>)
    requires Legal(s, run) && run != []
    ensures var n := |run| - 1;
      && Legal(s, run[..n]) && Enabled(Run(s, run[..n]), run[n])
      && Run(s, run) == Step(Run(s, run[..n]), run[n])
    decreases |run|
  {
    hide Step, Enabled;
    var n := |run| - 1;
    if n == 0 {
      assert run[1..] == [];
    } else {
      Prefix(Step(s, run[0]), run[1..]);
      assert run[1..][..n - 1] == run[..n][1..] && run[1..][n - 1] == run[n];
    }
  }

  /** The owner of an ID after `run`. A supported packet that may start a connection, before
      any shut-down, gives an ID nobody owns and the connection's own to the new connection;
      an issued ID is its connection's until it is retired or the connection terminated. */
  ghost function Owner(run: seq<Action>, id: Cid): Option<ConnId>
    decreases |run|
  {
    if run == [] then None
    else
      var before := run[..|run| - 1];
      var owner := Owner(before, id);
      match run[|run| - 1]
      case Packet(header, c, host) =>
        var starts := header.supported && header.startsConnection && ShutDown !in before;
        if starts && Owner(before, header.destination) == None && (id == header.destination || id == host) then Some(c)
        else owner
      case Issued(c, issued) => if id == issued then Some(c) else owner
      case Retired(_, retired) => if id == retired then None else owner
      case Terminated(c) => if owner == Some(c) then None else owner
      case ShutDown => owner
  }

  /** The table and the ID sets say what the history says. */
  ghost predicate Tells(s: State, run: seq<Action>) {
    && (s.terminated <==> ShutDown in run)
    && (forall id :: Owner(run, id) == if id in s.t.entries then Some(s.t.entries[id]) else None)
  }

  lemma TellsStep(s: State, run: seq<Action>, a: Action)
    requires Inverse(s.t) && Tells(s, run) && Enabled(s, a)
    ensures Tells(Step(s, a), run + [a])
  {
    assert (run + [a])[..|run|] == run;
    var s' := Step(s, a);
    assert s'.terminated <==> ShutDown in run + [a];
    forall id
      ensures Owner(run + [a], id) == if id in s'.t.entries then Some(s'.t.entries[id]) else None
    {
      match a
      case Packet(header, _, _) =>
        assert Owner(run, header.destination) == None <==> header.destination !in s.t.entries;
      case _ =>
    }
  }

  /** In every run the table gives each ID the owner the history gives it, and each
      connection's set holds the IDs it owns. */
  lemma {:induction false} TableTellsHistory(run: seq<Action>)
    requires Legal(NEW, run)
    ensures var s := Run(NEW, run);
      && Tells(s, run)
      && (forall c, id :: c in s.t.cids ==> (id in s.t.cids[c] <==> Owner(run, id) == Some(c)))
    decreases |run|
  {
    if run != [] {
      var n := |run| - 1;
      Prefix(NEW, run);
      TableTellsHistory(run[..n]);
      RunKeeps(NEW, run[..n]);
      RunKeeps(NEW, run);
      assert run == run[..n] + [run[n]];
      hide Step, Enabled, Legal, Run;
      TellsStep(Run(NEW, run[..n]), run[..n], run[n]);
    }
  }

  /** In every reached state a supported packet is given to the connection whose set has its
      destination, or, when nobody's has, to the new connection, if the packet may start
      one and the server is not terminating; otherwise to nobody. An unsupported one is given
      to nobody and is answered, to its source, and no other is. */
  lemma PacketGivenIff(run: seq<Action>, header: Header, c: ConnId, host: Cid, d: ConnId)
    requires Legal(NEW, run) && Enabled(Run(NEW, run), Packet(header, c, host))
    ensures var s := Run(NEW, run); var o := Datagram(s.t, header, s.terminated, c, host);
      var owned := exists x :: x in s.t.cids && header.destination in s.t.cids[x];
      && (o.receiver == Some(d) <==>
            && header.supported
            && if owned then d in s.t.cids && header.destination in s.t.cids[d]
               else d == c && header.startsConnection && ShutDown !in run)
      && o.negotiation == (if header.supported then None else Some((header.destination, header.source)))
  {
    RunKeeps(NEW, run);
    TableTellsHistory(run);
    hide Legal, Run, Owner;
    var t := Run(NEW, run).t;
    if header.destination in t.entries {
      assert header.destination in t.cids[t.entries[header.destination]];
    }
  }
}
