/**
 * `ConnectionManager` (backend/main.py): the list of dashboards connected over the
 * WebSocket, and the broadcast that pushes one command envelope to each of them.
 *
 * A socket is an identity (`list.remove` compares WebSockets by identity). Sending
 * is I/O: the set of sockets whose `send_json` raises is an input, and the first
 * such socket ends the broadcast with its exception.
 */
module Connections {
  import opened Common

  type Socket = nat

  /** The JSON object pushed to the dashboards. */
  datatype Envelope = Envelope(command: string, payload: map<string, string>)

  /** `{"command": command, "payload": payload or {}}`: a missing payload becomes `{}`. */
  function MakeEnvelope(command: string, payload: Option<map<string, string>>): (e: Envelope)
    ensures e.command == command
    ensures payload.None? ==> e.payload == map[]
    ensures payload.Some? ==> e.payload == payload.value
  {
    Envelope(command, if payload.Some? then payload.value else map[])
  }

  /** The index of the first occurrence of `x`, or `|s|`. */
  function IndexOf(s: seq<Socket>, x: Socket): (k: nat)
    ensures k <= |s|
    ensures forall j :: 0 <= j < k ==> s[j] != x
    ensures k < |s| ==> s[k] == x
    ensures k == |s| <==> x !in s
  {
    if s == [] then 0 else if s[0] == x then 0 else 1 + IndexOf(s[1..], x)
  }

  /** `list.remove(x)` on a list that holds `x`: its first occurrence is taken out. */
  function RemoveFirst(s: seq<Socket>, x: Socket): (r: seq<Socket>)
    requires x in s
    ensures |r| == |s| - 1
    ensures multiset(r) == multiset(s) - multiset{x}
  {
    var k := IndexOf(s, x);
    assert s == s[..k] + [x] + s[k + 1..];
    s[..k] + s[k + 1..]
  }

  /** The sockets before the first `x` keep their places; those after it move up by one. */
  lemma RemoveFirstOrder(s: seq<Socket>, x: Socket)
    requires x in s
    ensures var k, r := IndexOf(s, x), RemoveFirst(s, x);
      (forall j :: 0 <= j < k ==> r[j] == s[j]) && (forall j :: k <= j < |r| ==> r[j] == s[j + 1])
  {
  }

  /** Connecting a new socket and disconnecting it gives back the list as it was. */
  lemma ConnectThenDisconnect(s: seq<Socket>, x: Socket)
    requires x !in s
    ensures RemoveFirst(s + [x], x) == s
  {
    assert IndexOf(s + [x], x) == |s|;
    assert (s + [x])[..|s|] == s;
  }

  /** A socket connected twice loses its earlier entry, not the one just appended. */
  lemma DisconnectRemovesEarliest(s: seq<Socket>, x: Socket)
    requires x in s
    ensures RemoveFirst(s + [x], x) == RemoveFirst(s, x) + [x]
  {
    var k := IndexOf(s, x);
    assert IndexOf(s + [x], x) == k by {
      assert forall j :: 0 <= j < k ==> (s + [x])[j] == s[j];
      assert (s + [x])[k] == x;
    }
    assert (s + [x])[..k] == s[..k];
    assert (s + [x])[k + 1..] == s[k + 1..] + [x];
  }

  /**
   * The envelopes sent by a broadcast over `sockets`, in list order, up to the first
   * socket whose send raises.
   */
  function Deliveries(sockets: seq<Socket>, e: Envelope, failing: set<Socket>): (d: seq<(Socket, Envelope)>)
    ensures |d| <= |sockets|
  {
    if sockets == [] || sockets[0] in failing then []
    else [(sockets[0], e)] + Deliveries(sockets[1..], e, failing)
  }

  /** The first socket of the list whose send raises, if any. */
  function FirstFailing(sockets: seq<Socket>, failing: set<Socket>): (f: Option<Socket>)
    ensures f.Some? ==> f.value in sockets && f.value in failing
  {
    if sockets == [] then None
    else if sockets[0] in failing then Some(sockets[0])
    else FirstFailing(sockets[1..], failing)
  }

  /**
   * Each delivery pairs a socket with the same envelope; they follow the list from its
   * start; and all sockets are served exactly when none of them fails.
   */
  lemma {:induction false} DeliveriesMeaning(sockets: seq<Socket>, e: Envelope, failing: set<Socket>)
    ensures var d := Deliveries(sockets, e, failing);
      forall i :: 0 <= i < |d| ==> d[i] == (sockets[i], e) && sockets[i] !in failing
    ensures |Deliveries(sockets, e, failing)| == |sockets| <==> FirstFailing(sockets, failing).None?
    ensures FirstFailing(sockets, failing).Some? ==>
      sockets[|Deliveries(sockets, e, failing)|] == FirstFailing(sockets, failing).value
  {
    if sockets != [] && sockets[0] !in failing {
      DeliveriesMeaning(sockets[1..], e, failing);
    }
  }

  /** The `ConnectionManager` instance and its `active_connections` list. */
  class ConnectionManager {
    var active: seq<Socket>

    constructor ()
      ensures active == []
    {
      active := [];
    }

    /** `connect`: the accepted socket joins the end of the list. */
    method Connect(ws: Socket)
      modifies this
      ensures active == old(active) + [ws]
    {
      active := active + [ws];
    }

    /**
     * `disconnect`: removes the first occurrence of the socket; `list.remove` raises
     * `ValueError` (here `ok == false`) when the socket is not in the list, which is
     * then unchanged.
     */
    method Disconnect(ws: Socket) returns (ok: bool)
      modifies this
      ensures ok == (ws in old(active))
      ensures ok ==> active == RemoveFirst(old(active), ws)
      ensures !ok ==> active == old(active)
    {
      if ws !in active {
        return false;
      }
      active := RemoveFirst(active, ws);
      return true;
    }

    /**
     * `broadcast_command`: sends one envelope to every connection in list order. The
     * list is not changed; `raised` is the socket whose send ended the loop, if any.
     */
    method BroadcastCommand(command: string, payload: Option<map<string, string>>, failing: set<Socket>)
      returns (sent: seq<(Socket, Envelope)>, raised: Option<Socket>)
      ensures sent == Deliveries(active, MakeEnvelope(command, payload), failing)
      ensures raised == FirstFailing(active, failing)
    {
      var message := MakeEnvelope(command, payload);
      sent := [];
      var i := 0;
      while i < |active|
        invariant 0 <= i <= |active|
        invariant forall j :: 0 <= j < i ==> active[j] !in failing
        invariant sent + Deliveries(active[i..], message, failing) == Deliveries(active, message, failing)
        invariant FirstFailing(active[i..], failing) == FirstFailing(active, failing)
      {
        var connection := active[i];
        if connection in failing {
          return sent, Some(connection);
        }
        assert active[i..][1..] == active[i + 1..];
        sent := sent + [(connection, message)];
        i := i + 1;
      }
      raised := None;
    }
  }
}
