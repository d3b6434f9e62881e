/**
 * The server's WebSocket fan-out: the set of connected clients and what
 * `broadcastUpdate` delivers to each of them. A client is an opaque handle;
 * what has been sent to it is recorded per handle.
 */
module Notifier {
  import opened Documents
  import Seqs

  type Handle = nat

  /** The two frames the server sends: `{type: 'INITIAL_DATA', data}` and `{type: 'DATA_UPDATE', data}`. */
  datatype Message = InitialData(data: Document) | DataUpdate(data: Document)

  /** Everything `ws.send` has delivered, per client handle, oldest first. */
  type Outbox = map<Handle, seq<Message>>

  /**
   * One `broadcastUpdate`: every client of `clients` whose readyState is OPEN
   * (the handles in `open`) receives `m` once; every other handle receives nothing.
   */
  function Deliver(sent: Outbox, clients: set<Handle>, open: set<Handle>, m: Message): (r: Outbox)
    requires clients <= sent.Keys
    ensures r.Keys == sent.Keys
    ensures forall h :: h in clients && h in open ==> r[h] == sent[h] + [m]
    ensures forall h :: h in sent && (h !in clients || h !in open) ==> r[h] == sent[h]
  {
    map h | h in sent :: if h in clients && h in open then sent[h] + [m] else sent[h]
  }

  /** One call of `broadcastUpdate`: the clients OPEN at that moment and the frame sent. */
  datatype Publication = Publication(open: set<Handle>, message: Message)

  /** Several broadcasts in the order the server made them, to an unchanging set of clients. */
  function DeliverAll(sent: Outbox, clients: set<Handle>, ps: seq<Publication>): (r: Outbox)
    requires clients <= sent.Keys
    ensures r.Keys == sent.Keys
    decreases |ps|
  {
    if ps == [] then sent
    else DeliverAll(Deliver(sent, clients, ps[0].open, ps[0].message), clients, ps[1..])
  }

  function Messages(ps: seq<Publication>): (r: seq<Message>)
    ensures |r| == |ps|
    ensures forall i :: 0 <= i < |ps| ==> r[i] == ps[i].message
    decreases |ps|
  {
    if ps == [] then [] else [ps[0].message] + Messages(ps[1..])
  }

  /**
   * A client connected and OPEN throughout N broadcasts receives exactly those
   * N frames, once each, in the order they were published.
   */
  lemma {:induction false} BroadcastFidelity(sent: Outbox, clients: set<Handle>, ps: seq<Publication>, h: Handle)
    requires clients <= sent.Keys
    requires h in clients
    requires forall i :: 0 <= i < |ps| ==> h in ps[i].open
    ensures DeliverAll(sent, clients, ps)[h] == sent[h] + Messages(ps)
  {
    if ps != [] {
      var next := Deliver(sent, clients, ps[0].open, ps[0].message);
      var rest := ps[1..];
      assert h in ps[0].open;
      assert next[h] == sent[h] + [ps[0].message];
      assert forall i :: 0 <= i < |rest| ==> h in rest[i].open by {
        forall i | 0 <= i < |rest| ensures h in rest[i].open {
          assert rest[i] == ps[i + 1];
        }
      }
      BroadcastFidelity(next, clients, rest, h);
      var m, tail := ps[0].message, Messages(rest);
      calc {
        DeliverAll(sent, clients, ps)[h];
        DeliverAll(next, clients, rest)[h];
        next[h] + tail;
        (sent[h] + [m]) + tail;
        { Seqs.AppendAssociative(sent[h], [m], tail); }
        sent[h] + ([m] + tail);
        sent[h] + Messages(ps);
      }
    }
  }

  /** A handle that is not in the client set receives nothing from any broadcast. */
  lemma {:induction false} BroadcastSkipsOthers(sent: Outbox, clients: set<Handle>, ps: seq<Publication>, h: Handle)
    requires clients <= sent.Keys
    requires h in sent && h !in clients
    ensures DeliverAll(sent, clients, ps)[h] == sent[h]
  {
    if ps != [] {
      BroadcastSkipsOthers(Deliver(sent, clients, ps[0].open, ps[0].message), clients, ps[1..], h);
    }
  }
}
