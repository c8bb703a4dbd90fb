/**
 The WebSocket handler and its broadcast, as they run on the shared table:
 a `Hub` holds the connection table and every session, and its methods
 change them in place. Each method is proved against the functions of
 `WsSpec`, whose lemmas state what the handler promises.
 */
module Ws {
  import opened Frames
  import opened WsSpec

  class Hub<Id(==)> {
    /** The key set of the process-wide connection table. */
    var connections: set<Id>
    /** What has been sent on each session ever opened, oldest first. */
    var outboxes: map<Id, seq<Frame>>

    /** Every registered id names a session that exists. */
    ghost predicate Valid()
      reads this
    {
      WsSpec.Valid(State())
    }

    function State(): HubState<Id>
      reads this
    {
      HubState(connections, outboxes)
    }

    /** The table starts empty when the server starts. */
    constructor ()
      ensures Valid()
      ensures connections == {} && outboxes == map[]
    {
      connections, outboxes := {}, map[];
    }

    /** Hands one frame to a session; when the transport fails, nothing is sent. */
    method Send(to: Id, f: Frame, fails: bool) returns (ok: bool)
      requires to in outboxes
      modifies this
      ensures ok == !fails
      ensures connections == old(connections)
      ensures outboxes == if fails then old(outboxes) else old(outboxes)[to := old(outboxes)[to] + [f]]
    {
      ok := !fails;
      if ok {
        outboxes := outboxes[to := outboxes[to] + [f]];
      }
    }

    /** Inserts the freshly minted id of an upgraded socket, with its new session. */
    method Connect(id: Id)
      requires Valid() && id !in outboxes
      modifies this
      ensures Valid()
      ensures connections == old(connections) + {id}
      ensures outboxes == old(outboxes)[id := []]
      ensures State() == WsSpec.Connect(old(State()), id)
    {
      connections := connections + {id};
      outboxes := outboxes[id := []];
    }

    /** Removes an id from the table; a no-op when it is absent. */
    method Disconnect(id: Id)
      requires Valid()
      modifies this
      ensures Valid()
      ensures connections == old(connections) - {id}
      ensures outboxes == old(outboxes)
      ensures State() == WsSpec.Disconnect(old(State()), id)
    {
      connections := connections - {id};
    }

    /**
     Visits every registered id, in no particular order, and sends `message`
     to each one that is not the sender; a failed send (an id in `failed`)
     is ignored and the visit goes on.
     */
    method Broadcast(sender: Id, message: string, failed: set<Id>)
      requires Valid()
      modifies this
      ensures Valid()
      ensures connections == old(connections)
      ensures outboxes == Deliver(old(outboxes), connections - {sender} - failed, TextOut(message))
      ensures State() == WsSpec.Broadcast(old(State()), sender, message, failed)
    {
      var pending := connections;
      while pending != {}
        invariant pending <= connections == old(connections)
        invariant outboxes.Keys == old(outboxes).Keys
        invariant outboxes == Deliver(old(outboxes), connections - pending - {sender} - failed, TextOut(message))
        decreases pending
      {
        var id :| id in pending;
        ghost var before := outboxes;
        if id != sender {
          var _ := Send(id, TextOut(message), id in failed);
        }
        pending := pending - {id};
        assert outboxes == Deliver(old(outboxes), connections - pending - {sender} - failed, TextOut(message)) by {
          assert forall k :: k in outboxes ==> k in before;
        }
      }
    }

    /**
     The spawned task of connection `id`: handles events until the stream
     ends or yields an error, then removes `id` from the table. `fails[i]`
     is the set of sessions whose send fails while event `i` is handled.
     */
    method Run(id: Id, events: seq<Event>, fails: seq<set<Id>>)
      requires Valid() && id in outboxes && |fails| == |events|
      modifies this
      ensures Valid()
      ensures State() == WsSpec.Run(old(State()), id, events, fails)
    {
      var i := 0;
      while i < |events| && !events[i].ProtocolError?
        invariant 0 <= i <= |events|
        invariant Valid() && id in outboxes
        invariant RunLoop(State(), id, events[i..], fails[i..]) == RunLoop(old(State()), id, events, fails)
        decreases |events| - i
      {
        ghost var before := State();
        match events[i] {
          case Text(text) =>
            Broadcast(id, text, fails[i]);
          case Ping(payload) =>
            var _ := Send(id, PongOut(payload), id in fails[i]);
          case _ =>
        }
        assert State() == Apply(before, id, events[i], fails[i]);
        assert events[i..][1..] == events[i + 1..];
        assert fails[i..][1..] == fails[i + 1..];
        i := i + 1;
      }
      Disconnect(id);
    }

    /**
     The handler: when the upgrade fails nothing changes and the request is
     refused; otherwise `id` (freshly minted, so never seen before) is
     registered and its task runs to the end.
     */
    method Serve(upgraded: bool, id: Id, events: seq<Event>, fails: seq<set<Id>>) returns (accepted: bool)
      requires Valid() && id !in outboxes && |fails| == |events|
      modifies this
      ensures Valid()
      ensures accepted == upgraded
      ensures State() == WsSpec.Serve(old(State()), upgraded, id, events, fails)
      ensures connections == old(connections)
    {
      accepted := upgraded;
      if !upgraded {
        return;
      }
      Connect(id);
      Run(id, events, fails);
    }
  }

  /** Two clients; the first one's text reaches the second and not itself. */
  method TwoClients()
  {
    var hub := new Hub<int>();
    hub.Connect(1);
    hub.Connect(2);
    hub.Broadcast(1, "hello", {});
    assert hub.outboxes[2] == [TextOut("hello")];
    assert hub.outboxes[1] == [];
  }
}
