/** The client half of the authorization exchange (rds-client `request` and `lib`): the guards that
    own the request's streams and the connection while the outcome is open. */
module ClientAuthz {
  import opened Prelude
  import opened Grant
  import opened AuthzState
  import opened AuthzProtocol
  import opened ConnAuthzObject

  datatype SendState = Sending | Finished | WasReset

  /** A stream pair; `held` says whether the guard still owns it. */
  class RequestStreams {
    var held: bool
    var send: SendState
    var stopped: bool

    constructor ()
      ensures held && send == Sending && !stopped
    {
      held, send, stopped := true, Sending, false;
    }

    /** Observe the end of the response, then release the pair and finish the request. `fin` says
        whether the end comes, with nothing before it, while the caller still waits. */
    method Complete(fin: bool) returns (ok: bool)
      requires held
      modifies this
      ensures ok == fin && held == !fin && stopped == old(stopped)
      ensures send == if fin then Finished else old(send)
    {
      if !fin {
        return false;
      }
      held := false;
      send := Finished;
      return true;
    }

    /** Dropping the guard resets what it still owns; it never finishes a request implicitly. */
    method Drop()
      modifies this
      ensures held == old(held)
      ensures if held then send == WasReset && stopped else send == old(send) && stopped == old(stopped)
    {
      if held {
        send := WasReset;
        stopped := true;
      }
    }
  }

  /** Unless committed, dropping the guard closes the connection. */
  class Authorization {
    const conn: Connection
    var committed: bool

    constructor (conn: Connection)
      ensures this.conn == conn && !committed
    {
      this.conn := conn;
      committed := false;
    }

    method Commit()
      modifies this
      ensures committed
    {
      committed := true;
    }

    method Drop()
      modifies conn
      ensures conn.closed == (old(conn.closed) || !committed)
    {
      if !committed {
        conn.Close();
      }
    }
  }

  /** `authorize_connection` and `renew_authorization`. `heard` is what reaches the caller before its
      deadline or cancellation; any acknowledgement but Ok counts as an error. The call succeeds
      exactly when it saw the positive acknowledgement and the end of the response; otherwise the
      connection is closed and the request reset. */
  method RequestAuthorization(conn: Connection, connected: bool, heard: Response) returns (ok: bool,
                              streams: RequestStreams?)
    modifies conn
    ensures ok <==> connected && heard == Response(Some(AckOk), true)
    ensures conn.closed == (old(conn.closed) || !ok)
    ensures connected <==> streams != null
    ensures streams != null ==>
              fresh(streams) &&
              if ok then !streams.held && streams.send == Finished else streams.send == WasReset && streams.stopped
  {
    var authorization := new Authorization(conn);
    ok, streams := false, null;
    if connected {
      streams := new RequestStreams();
      if heard.ack == Some(AckOk) {
        ok := streams.Complete(heard.fin);
      }
      streams.Drop();
    }
    if ok {
      authorization.Commit();
    }
    authorization.Drop();
  }

  /** The part of a response that a client which stops waiting has seen. */
  predicate Seen(heard: Response, sent: Response) {
    (heard.ack.Some? ==> heard.ack == sent.ack) && (heard.fin ==> sent.fin)
  }

  /** The whole exchange, both halves run to their ends with nothing else going on; `reaches` is the
      part of the response that the client sees. Server and client never part: the client succeeds
      only on a connection granted for its token, and when it does not succeed the connection is
      closed. */
  method Exchange(d: Deployment, conn: Connection, peer: Key, policy: AgentPolicy, authz: ConnAuthz, token: Token,
                  renewal: bool, clock: Readings, delivered: bool, finished: bool, reaches: Response -> Response)
    returns (served: bool, ok: bool)
    requires forall sent :: Seen(reaches(sent), sent)
    requires !conn.closed
    modifies conn, policy, authz
    ensures ok ==>
              && served && !conn.closed && authz.state.Granted?
              && d.verify(token, peer, authz.audience, clock.unix) == Ok(authz.state.held.current.grant.payload)
              && policy.active == old(policy.active) + (if renewal then {} else {authz.state.held.slot})
    ensures !ok ==> conn.closed
    ensures !served ==>
              policy.active == old(policy.active) || policy.active == Released(old(authz.state), old(policy.active))
  {
    var sent;
    served, sent := Authorize(d, conn, peer, policy, authz, token, renewal, clock, delivered, finished);
    assert Seen(reaches(sent), sent);
    var streams;
    ok, streams := RequestAuthorization(conn, true, reaches(sent));
  }

  /** The protocol's client, left alone with a finished response, ends as the call does. */
  lemma ClientUninterrupted(c: Conn, active: set<GrantId>, t: TaskId)
    requires t in c.tasks && c.tasks[t].client == AwaitAck && c.tasks[t].sent.fin
    ensures var s := After((c, active), ClientStep(c, active, ClientAck(t)));
            var end := After(s, ClientStep(s.0, s.1, ClientFin(t)));
            && t in end.0.tasks && end.1 == active
            && (end.0.tasks[t].client == Succeeded <==> c.tasks[t].sent == Response(Some(AckOk), true))
            && (end.0.tasks[t].client != Succeeded ==> end.0.tasks[t].client == Client.Failed)
  {
  }
}
