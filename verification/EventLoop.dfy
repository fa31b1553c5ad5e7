/** Many connections under one event loop, one read buffer for all of them, and the orderly end:
    bjoern/server.c, server_run, ev_io_on_request and ev_signal_on_sigint. */
module EventLoop {
  import opened Octets
  import opened Session
  import opened Connection
  import opened Environ
  import opened Peer
  import Reply

  /** What libev may report. `On` is for the connection accepted as number `id`. */
  datatype Happening = Connect | On(id: nat, turn: Turn) | Sigint

  /** The connections that a sequence of happenings lets in. */
  ghost function Accepted(hs: seq<Happening>): nat {
    if hs == [] then 0
    else Accepted(hs[..|hs| - 1]) + (if hs[|hs| - 1].Connect? && Sigint !in hs[..|hs| - 1] then 1 else 0)
  }

  /** What connection `id` sees of the whole. */
  ghost function Projection(hs: seq<Happening>, id: nat): seq<Turn> {
    if hs == [] then []
    else
      var before, h := hs[..|hs| - 1], hs[|hs| - 1];
      Projection(before, id) + (if h.On? && h.id == id && id < Accepted(before) then [h.turn] else [])
  }

  ghost predicate InScope(h: Happening) { h.On? ==> ArrivalInScope(h.turn.arrival) }

  lemma {:induction false} NothingBeforeAccept(hs: seq<Happening>, id: nat)
    requires Accepted(hs) <= id
    ensures Projection(hs, id) == []
  {
    if hs != [] { NothingBeforeAccept(hs[..|hs| - 1], id); }
  }

  /** After the signal nobody is let in any more. */
  lemma {:induction false} NoneAfterSigint(hs: seq<Happening>, more: seq<Happening>)
    requires Sigint in hs
    ensures Accepted(hs + more) == Accepted(hs)
  {
    if more == [] {
      assert hs + more == hs;
    } else {
      var all, before := hs + more, more[..|more| - 1];
      assert all[..|all| - 1] == hs + before;
      NoneAfterSigint(hs, before);
      assert Sigint in hs + before;
    }
  }

  /** The turns of a connection are those that the loop had for it, up to its close. */
  ghost predicate Served(turns: seq<Turn>, open: bool, projection: seq<Turn>) {
    turns <= projection && (open ==> turns == projection)
  }

  lemma SnocParts(hs: seq<Happening>, h: Happening)
    ensures (hs + [h])[..|hs|] == hs && (hs + [h])[|hs|] == h
    ensures Sigint in hs + [h] <==> Sigint in hs || h == Sigint
  {
  }

  lemma ProjectionSnoc(hs: seq<Happening>, h: Happening, id: nat)
    ensures Projection(hs + [h], id)
         == Projection(hs, id) + (if h.On? && h.id == id && id < Accepted(hs) then [h.turn] else [])
    ensures Accepted(hs + [h]) == Accepted(hs) + (if h.Connect? && Sigint !in hs then 1 else 0)
  {
    SnocParts(hs, h);
  }

  lemma ServedLonger(turns: seq<Turn>, open: bool, hs: seq<Happening>, h: Happening, id: nat)
    requires Served(turns, open, Projection(hs, id)) && (h.On? && h.id == id && id < Accepted(hs) ==> !open)
    ensures Served(turns, open, Projection(hs + [h], id))
  {
    ProjectionSnoc(hs, h, id);
  }

  // The connections

  /** The objects of the connections that are not in the list itself. */
  ghost function Parts(ps: seq<Peer>): set<object> {
    (set p | p in ps :: p.request) + (set p | p in ps :: p.builder)
  }

  /** No two connections share an object. */
  ghost predicate Apart(ps: seq<Peer>) {
    forall i, j :: 0 <= i < |ps| && 0 <= j < |ps| && i != j ==>
      ps[i] != ps[j] && ps[i].request != ps[j].request && ps[i].builder != ps[j].builder
  }

  ghost predicate ApartFrom(ps: seq<Peer>, p: Peer) {
    forall i :: 0 <= i < |ps| ==> ps[i] != p && ps[i].request != p.request && ps[i].builder != p.builder
  }

  lemma ApartSnoc(ps: seq<Peer>, p: Peer)
    requires Apart(ps) && ApartFrom(ps, p)
    ensures Apart(ps + [p])
  {
  }

  /** `p` is a valid connection whose history is its part of what the loop has seen. */
  ghost predicate PeerServed(p: Peer, id: nat, hs: seq<Happening>, base: Dict)
    reads p, p.request, p.builder
  {
    p.Valid() && p.builder.base == base && Served(Turns(p.history), p.request.open, Projection(hs, id))
  }

  ghost predicate AllServed(ps: seq<Peer>, hs: seq<Happening>, base: Dict)
    reads ps, Parts(ps)
  {
    forall i :: 0 <= i < |ps| ==> PeerServed(ps[i], i, hs, base)
  }

  lemma AllServedSnoc(ps: seq<Peer>, p: Peer, hs: seq<Happening>, base: Dict)
    requires AllServed(ps, hs, base) && PeerServed(p, |ps|, hs, base)
    ensures AllServed(ps + [p], hs, base)
  {
    forall i | 0 <= i < |ps + [p]|
      ensures PeerServed((ps + [p])[i], i, hs, base)
    {
      if i < |ps| { assert PeerServed(ps[i], i, hs, base); }
    }
  }

  /** A happening that calls no handler of a connection. */
  lemma AllServedLonger(ps: seq<Peer>, hs: seq<Happening>, h: Happening, base: Dict)
    requires AllServed(ps, hs, base) && (h.On? && h.id < |ps| ==> !ps[h.id].request.open)
    ensures AllServed(ps, hs + [h], base)
  {
    forall i | 0 <= i < |ps|
      ensures PeerServed(ps[i], i, hs + [h], base)
    {
      assert PeerServed(ps[i], i, hs, base);
      ServedLonger(Turns(ps[i].history), ps[i].request.open, hs, h, i);
    }
  }

  /** Every connection but `id` is served as far as `hs`; `id` has its turn still to come. */
  ghost predicate AtTurn(ps: seq<Peer>, id: nat, t: Turn, hs: seq<Happening>, base: Dict)
    requires id < |ps|
    reads ps, Parts(ps)
  {
    && (forall i :: 0 <= i < |ps| && i != id ==> PeerServed(ps[i], i, hs, base))
    && ps[id].Valid() && ps[id].builder.base == base && Projection(hs, id) == Turns(ps[id].history) + [t]
  }

  lemma TurnComes(ps: seq<Peer>, id: nat, t: Turn, hs: seq<Happening>, base: Dict)
    requires AllServed(ps, hs, base) && id < |ps| && ps[id].request.open && id < Accepted(hs)
    ensures AtTurn(ps, id, t, hs + [On(id, t)], base)
  {
    var h := On(id, t);
    assert PeerServed(ps[id], id, hs, base);
    ProjectionSnoc(hs, h, id);
    forall i | 0 <= i < |ps| && i != id
      ensures PeerServed(ps[i], i, hs + [h], base)
    {
      assert PeerServed(ps[i], i, hs, base);
      ServedLonger(Turns(ps[i].history), ps[i].request.open, hs, h, i);
    }
  }

  /** What is added is new. */
  twostate predicate AllFresh(before: seq<Peer>, new after: seq<Peer>) {
    forall p :: p in after ==> p in before || (fresh(p) && fresh(p.request) && fresh(p.builder))
  }

  /** The fields of a connection, the octets on its wire, its parse and its history are as they were. */
  twostate predicate Untouched(p: Peer)
    reads p, p.request, p.builder
  {
    unchanged(p) && unchanged(p.request) && unchanged(p.builder)
  }

  method RunTurn(p: Peer, t: Turn, buf: array<char>, ghost id: nat, ghost hs: seq<Happening>)
    requires p.Valid() && p.request.open && Projection(hs, id) == Turns(p.history) + [t]
    requires ArrivalInScope(t.arrival) && buf.Length == READ_BUFFER_SIZE
    modifies p, p.request, p.builder, buf
    ensures PeerServed(p, id, hs, p.builder.base)
  {
    p.On(t, buf);
  }

  lemma ClosedIsComplete(p: Peer)
    requires p.Valid() && p.request.watcher == Stopped && Run(Labels(p.history)) == Some(p.request.View())
    ensures !p.request.open && (NeverStray(Labels(p.history)) ==> p.request.closables == p.request.closeCalls)
    ensures var ls := Labels(p.history);
            Undisturbed(ls) ==> AllScoped(Begun(ls)) && p.request.wire == Ideal(Begun(ls))
  {
    if Undisturbed(Labels(p.history)) { RunIsAccounted(Labels(p.history)); }
  }

  class Server {
    const base: Dict
    /** static char read_buf[READ_BUFFER_SIZE]: every read of every connection goes through it. */
    const readBuf: array<char>
    var accepting: bool
    var peers: seq<Peer>

    /** The state that the happenings `hs` lead to. */
    ghost predicate Valid(hs: seq<Happening>)
      reads this, peers, Parts(peers)
    {
      && readBuf.Length == READ_BUFFER_SIZE && Apart(peers) && AllServed(peers, hs, base)
      && |peers| == Accepted(hs) && (accepting <==> Sigint !in hs)
    }

    /** ev_run goes on as long as some watcher is active. */
    predicate ActiveWatcher()
      reads this, Parts(peers)
    {
      accepting || exists i :: 0 <= i < |peers| && peers[i].request.watcher != Stopped
    }

    constructor (base: Dict)
      ensures Valid([]) && peers == [] && fresh(readBuf)
    {
      this.base := base;
      readBuf := new char[READ_BUFFER_SIZE];
      accepting, peers := true, [];
    }

    /** Request_new, and the watcher for it. */
    method LetIn(ghost hs: seq<Happening>) returns (p: Peer)
      requires Projection(hs, |peers|) == []
      ensures fresh(p) && fresh(p.request) && fresh(p.builder) && PeerServed(p, |peers|, hs, base)
      ensures ApartFrom(peers, p)
    {
      p := new Peer(base);
    }

    method Enlist(p: Peer, ghost hs: seq<Happening>)
      requires AllServed(peers, hs, base) && Apart(peers) && PeerServed(p, |peers|, hs, base)
      requires ApartFrom(peers, p)
      modifies `peers
      ensures AllServed(peers, hs, base) && Apart(peers) && peers == old(peers) + [p]
    {
      ApartSnoc(peers, p);
      AllServedSnoc(peers, p, hs, base);
      peers := peers + [p];
    }

    /** A new connection behind the others. */
    method Admit(ghost hs: seq<Happening>)
      requires AllServed(peers, hs, base) && Apart(peers) && Projection(hs, |peers|) == []
      modifies `peers
      ensures AllServed(peers, hs, base) && Apart(peers)
      ensures |peers| == |old(peers)| + 1 && AllFresh(old(peers), peers)
    {
      var p := LetIn(hs);
      Enlist(p, hs);
    }

    /** ev_io_on_request. */
    method OnAccept(ghost hs: seq<Happening>)
      requires Valid(hs) && accepting
      modifies `peers
      ensures Valid(hs + [Connect]) && AllFresh(old(peers), peers)
    {
      SnocParts(hs, Connect);
      ProjectionSnoc(hs, Connect, |peers|);
      NothingBeforeAccept(hs, |peers|);
      AllServedLonger(peers, hs, Connect, base);
      Admit(hs + [Connect]);
    }

    /** ev_signal_on_sigint. */
    method OnSigint(ghost hs: seq<Happening>)
      requires Valid(hs)
      modifies `accepting
      ensures Valid(hs + [Sigint]) && !accepting
    {
      SnocParts(hs, Sigint);
      ProjectionSnoc(hs, Sigint, 0);
      AllServedLonger(peers, hs, Sigint, base);
      accepting := false;
    }

    /** The handler of one connection; the others do not notice. */
    method TakeTurn(id: nat, t: Turn, ghost hs: seq<Happening>)
      requires Apart(peers) && id < |peers| && peers[id].request.open && AtTurn(peers, id, t, hs, base)
      requires ArrivalInScope(t.arrival) && readBuf.Length == READ_BUFFER_SIZE
      modifies readBuf, peers[id], peers[id].request, peers[id].builder
      ensures AllServed(peers, hs, base)
      ensures forall i :: 0 <= i < |peers| && i != id ==> Untouched(peers[i])
    {
      var p := peers[id];
      RunTurn(p, t, readBuf, id, hs);
      forall i | 0 <= i < |peers| && i != id
        ensures PeerServed(peers[i], i, hs, base) <==> old(PeerServed(peers[i], i, hs, base))
      {
        assert peers[i] != p && peers[i].request != p.request && peers[i].builder != p.builder;
      }
    }

    /** An event on a connection whose watcher is active. Whatever it does to the shared buffer, every
        other connection is as it was. */
    method OnPeer(id: nat, t: Turn, ghost hs: seq<Happening>)
      requires Valid(hs) && id < |peers| && peers[id].request.open && ArrivalInScope(t.arrival)
      modifies readBuf, peers[id], peers[id].request, peers[id].builder
      ensures Valid(hs + [On(id, t)])
      ensures forall i :: 0 <= i < |peers| && i != id ==> Untouched(peers[i])
    {
      SnocParts(hs, On(id, t));
      ProjectionSnoc(hs, On(id, t), id);
      TurnComes(peers, id, t, hs, base);
      TakeTurn(id, t, hs + [On(id, t)]);
    }

    /** libev reports nothing for a watcher that is not active. */
    predicate Reports(h: Happening)
      reads this, Parts(peers)
    {
      match h
      case Connect => accepting
      case On(id, _) => id < |peers| && peers[id].request.watcher != Stopped
      case Sigint => accepting
    }

    /** So what concerns such a watcher changes nothing. */
    lemma NotReported(hs: seq<Happening>, h: Happening)
      requires Valid(hs) && !Reports(h)
      ensures Valid(hs + [h])
    {
      SnocParts(hs, h);
      ProjectionSnoc(hs, h, 0);
      if h.On? && h.id < |peers| { assert PeerServed(peers[h.id], h.id, hs, base); }
      AllServedLonger(peers, hs, h, base);
    }

    /** The handler of the active watcher. */
    method Dispatch(h: Happening, ghost hs: seq<Happening>)
      requires Valid(hs) && Reports(h) && InScope(h)
      modifies this, readBuf, peers, Parts(peers)
      ensures Valid(hs + [h])
      ensures AllFresh(old(peers), peers)
    {
      match h {
        case Connect => OnAccept(hs);
        case On(id, t) =>
          assert PeerServed(peers[id], id, hs, base);
          OnPeer(id, t, hs);
        case Sigint => OnSigint(hs);
      }
    }

    /** Round `k` of ev_run. */
    method Round(hs: seq<Happening>, k: nat)
      requires k < |hs| && Valid(hs[..k]) && InScope(hs[k])
      modifies this, readBuf, peers, Parts(peers)
      ensures Valid(hs[..k + 1]) && AllFresh(old(peers), peers)
    {
      assert hs[..k] + [hs[k]] == hs[..k + 1];
      if Reports(hs[k]) {
        Dispatch(hs[k], hs[..k]);
      } else {
        NotReported(hs[..k], hs[k]);
      }
    }

    /** Any interleaving of connections over the one buffer, seen from one of them, is a run of that
        connection alone: its turns are what the loop had for it, all of them while it is open. */
    lemma ProjectionIsRun(hs: seq<Happening>, id: nat)
      requires Valid(hs) && id < |peers|
      ensures var p := peers[id];
              && Served(Turns(p.history), p.request.open, Projection(hs, id))
              && Conversation(p.history, base) && StageOf(p.history) == p.Now()
              && Run(Labels(p.history)) == Some(p.request.View())
    {
      assert PeerServed(peers[id], id, hs, base);
      ConversationIsRun(peers[id].history, base);
    }

    /** When no watcher is active any more, the signal has come and every connection is closed, with all
        its iterables unless a final reply was left behind half sent, and every reply begun on an undisturbed
        one is complete on its wire. */
    lemma GracefulStop(hs: seq<Happening>, id: nat)
      requires Valid(hs) && !ActiveWatcher() && id < |peers|
      ensures Sigint in hs
      ensures !peers[id].request.open
      ensures var ls := Labels(peers[id].history);
              && Run(ls) == Some(peers[id].request.View())
              && (NeverStray(ls) ==> peers[id].request.closables == peers[id].request.closeCalls)
              && (Undisturbed(ls) ==> AllScoped(Begun(ls)) && peers[id].request.wire == Ideal(Begun(ls)))
    {
      ProjectionIsRun(hs, id);
      ClosedIsComplete(peers[id]);
    }

    /** ev_run, from round `k` on. */
    method RunFrom(hs: seq<Happening>, k: nat)
      requires k <= |hs| && Valid(hs[..k]) && forall i :: 0 <= i < |hs| ==> InScope(hs[i])
      modifies this, readBuf, peers, Parts(peers)
      ensures Valid(hs) && AllFresh(old(peers), peers)
      decreases |hs| - k
    {
      if k < |hs| {
        Round(hs, k);
        RunFrom(hs, k + 1);
      } else {
        assert hs[..k] == hs;
      }
    }
  }

  /** server_run. Whatever happens, in whatever order, each connection has its part of it. */
  method ServerRun(base: Dict, hs: seq<Happening>) returns (server: Server)
    requires forall i :: 0 <= i < |hs| ==> InScope(hs[i])
    ensures server.Valid(hs)
  {
    server := new Server(base);
    assert hs[..0] == [];
    server.RunFrom(hs, 0);
  }
}
