/** Which requests are served, for every state of a connection, and what serving them leaves on record. */
module Gate {
  import opened Text
  import opened Names
  import opened Server
  import opened ServerInvariant
  import Connections
  import R = Registration

  // ---- registered clients

  /** A registered client is served whatever it asks, PASS, USER and a bad nickname aside. */
  lemma RegisteredIsServed(cfg: Config, s: State, id: Id, req: R.Request)
    requires Live(s, id) && !req.Pass? && !req.User? && (req.Nick? ==> IsNickname(req.nick))
    ensures Handle(cfg, s, id, req) == Finish(Dispatch(cfg, s, id, req), id, req)
  {
    hide Dispatch, Finish;
  }

  lemma RegisteredIsRefused(cfg: Config, s: State, id: Id, req: R.Request)
    requires Live(s, id) && (req.Pass? || req.User?)
    ensures Handle(cfg, s, id, req) == Deliver(s, id, [Numeric("462")])
  {
    hide Dispatch, Finish;
  }

  lemma BadNickIsRefused(cfg: Config, s: State, id: Id, nick: string)
    requires id in s.clients && !IsNickname(nick)
    ensures Handle(cfg, s, id, R.Nick(nick)) == Deliver(s, id, [Numeric("432")])
  {
    hide Dispatch, Finish;
  }

  // ---- the others

  /** What a client may ask before it is registered, by the requests accepted so far: USER only once. */
  predicate MayAsk(log: R.Log, req: R.Request)
  {
    || req.Nick? || req.Pass? || req.Ping? || req.Authenticate? || req.CapLs? || req.CapReq? || req.CapEnd? || req.Quit?
    || (req.User? && !R.UserKept(log))
  }

  /** The gate lets an unregistered client ask exactly what its accepted requests allow. */
  lemma GateIsMemory(log: R.Log, req: R.Request)
    requires R.RunLog(log).Some? && R.RunLog(log) != Some(R.Gone) && R.RunLog(log) != Some(R.Registered)
    ensures R.Apply(R.RunLog(log).value, req).Some? <==> MayAsk(log, req)
  {
    R.StateIsMemory(log);
    R.MemoryIsLog(log);
    hide R.RunLog, R.Memory, R.UserKept, R.NickKept, R.CapPending;
  }

  lemma UnregisteredIsServed(cfg: Config, s: State, id: Id, req: R.Request)
    requires Connections.ClientsOk(cfg, s) && id in s.clients && s.clients[id].state != R.Registered
    requires req.Nick? ==> IsNickname(req.nick)
    ensures Handle(cfg, s, id, req) == if MayAsk(s.clients[id].log, req) then Finish(Dispatch(cfg, s, id, req), id, req)
                                       else Deliver(s, id, [Numeric("451")])
  {
    assert Connections.ClientOk(cfg, s.clients[id]);
    GateIsMemory(s.clients[id].log, req);
    hide Dispatch, Finish, R.Apply, MayAsk, Connections.ClientsOk;
  }

  // ---- what serving leaves on record

  /** The request is served: it gets past the nickname check and the gate. */
  predicate Served(s: State, id: Id, req: R.Request)
    requires id in s.clients
  {
    && (req.Nick? ==> IsNickname(req.nick))
    && if s.clients[id].state == R.Registered then !req.Pass? && !req.User? else MayAsk(s.clients[id].log, req)
  }

  /** Everybody is served exactly then; what is not served is answered and changes nothing else. */
  lemma ServedIff(cfg: Config, s: State, id: Id, req: R.Request)
    requires Connections.ClientsOk(cfg, s) && id in s.clients
    ensures Handle(cfg, s, id, req) == if Served(s, id, req) then Finish(Dispatch(cfg, s, id, req), id, req)
                                       else Deliver(s, id, [Numeric(Refusal(s, id, req))])
  {
    if req.Nick? && !IsNickname(req.nick) {
      BadNickIsRefused(cfg, s, id, req.nick);
    } else if s.clients[id].state != R.Registered {
      UnregisteredIsServed(cfg, s, id, req);
    } else if req.Pass? || req.User? {
      RegisteredIsRefused(cfg, s, id, req);
    } else {
      RegisteredIsServed(cfg, s, id, req);
    }
    hide Handle, Dispatch, Finish, MayAsk, Connections.ClientsOk;
  }

  function Refusal(s: State, id: Id, req: R.Request): string
    requires id in s.clients
  {
    if req.Nick? && !IsNickname(req.nick) then "432" else if s.clients[id].state == R.Registered then "462" else "451"
  }

  /** The log says that the connection has registered by its last request. */
  predicate Complete(log: R.Log)
  {
    R.NickKept(log) && R.UserKept(log) && !R.CapPending(log)
  }

  /** The state after a handler is kept; its replies, the request and a registration are put on record. */
  predicate Recorded(c: Client, out: Out, t: State, id: Id, req: R.Request)
    requires id in out.s.clients
  {
    var log := if out.ok then c.log + [req] else c.log;
    var registers := out.ok && c.state != R.Registered && Complete(log);
    && t.channels == out.s.channels && t.nicks == out.s.nicks && t.clients.Keys == out.s.clients.Keys
    && (forall o :: o in t.clients && o != id ==> t.clients[o] == out.s.clients[o])
    && t.clients[id] == out.s.clients[id].(state := t.clients[id].state, log := log, queue := t.clients[id].queue)
    && t.clients[id].queue == out.s.clients[id].queue + (if registers then out.rb + [Welcome] else out.rb)
    && (t.clients[id].state == R.Registered <==> c.state == R.Registered || registers)
  }

  /**
   * What the issuer finds after a request that is served and does not remove it: the handler's replies
   * on its queue; if the handler succeeded, the request on record and, once its requests are complete,
   * the registration with its welcome.
   */
  lemma ServedIsRecorded(cfg: Config, s: State, id: Id, req: R.Request)
    requires Connections.ClientsOk(cfg, s) && id in s.clients && Served(s, id, req) && !req.Quit?
    requires id in Dispatch(cfg, s, id, req).s.clients
    ensures Recorded(s.clients[id], Dispatch(cfg, s, id, req), Handle(cfg, s, id, req), id, req)
  {
    var c, out := s.clients[id], Dispatch(cfg, s, id, req);
    ServedIff(cfg, s, id, req);
    ServedMoves(cfg, c, req) by { assert Connections.ClientOk(cfg, c); }
    Connections.DispatchEffects(cfg, s, id, req);
    EffectsKeep(cfg, s, id, req, out);
    hide Handle, Dispatch, Finish, Served, Connections.ClientsOk, Connections.Effects, R.Apply, Complete, Recorded;
    FinishRecords(c, out, id, req);
  }

  /** The same for a registered client: its request is served and its replies are what it is told. */
  lemma LiveIsRecorded(cfg: Config, s: State, id: Id, req: R.Request)
    requires Connections.ClientsOk(cfg, s) && Live(s, id) && id in Dispatch(cfg, s, id, req).s.clients
    requires !req.Pass? && !req.User? && !req.Quit? && (req.Nick? ==> IsNickname(req.nick))
    ensures var out, t := Dispatch(cfg, s, id, req), Step(cfg, s, Request(id, req));
            && t.channels == out.s.channels && t.nicks == out.s.nicks && t.clients.Keys == out.s.clients.Keys
            && (forall o :: o in t.clients && o != id ==> t.clients[o] == out.s.clients[o])
            && t.clients[id] == out.s.clients[id].(state := R.Registered, log := t.clients[id].log,
                                                   queue := out.s.clients[id].queue + out.rb)
  {
    hide Handle, Dispatch, Connections.ClientsOk, Recorded, Served;
    LiveIsServed(s, id, req);
    ServedIsRecorded(cfg, s, id, req);
    RecordedLive(s.clients[id], Dispatch(cfg, s, id, req), Handle(cfg, s, id, req), id, req);
  }

  lemma LiveIsServed(s: State, id: Id, req: R.Request)
    requires Live(s, id) && !req.Pass? && !req.User? && (req.Nick? ==> IsNickname(req.nick))
    ensures Served(s, id, req)
  {
    hide MayAsk;
  }

  lemma RecordedLive(c: Client, out: Out, t: State, id: Id, req: R.Request)
    requires id in out.s.clients && Recorded(c, out, t, id, req) && c.state == R.Registered
    ensures t.channels == out.s.channels && t.nicks == out.s.nicks && t.clients.Keys == out.s.clients.Keys
    ensures forall o :: o in t.clients && o != id ==> t.clients[o] == out.s.clients[o]
    ensures id in t.clients && t.clients[id] == out.s.clients[id].(state := R.Registered, log := t.clients[id].log,
                                                                  queue := out.s.clients[id].queue + out.rb)
  {
    hide Complete;
  }

  lemma EffectsKeep(cfg: Config, s: State, id: Id, req: R.Request, out: Out)
    requires id in s.clients && id in out.s.clients && Connections.Effects(cfg, s, id, req, out)
    ensures out.s.clients[id].state == s.clients[id].state && out.s.clients[id].log == s.clients[id].log
  {
  }

  /** A served request moves the connection on, to registration exactly when its requests are complete. */
  lemma ServedMoves(cfg: Config, c: Client, req: R.Request)
    requires Connections.ClientOk(cfg, c) && !req.Quit?
    requires if c.state == R.Registered then !req.Pass? && !req.User? else MayAsk(c.log, req)
    ensures R.Apply(c.state, req).Some?
    ensures R.Apply(c.state, req).value == R.Registered <==> c.state == R.Registered || Complete(c.log + [req])
  {
    if c.state != R.Registered {
      GateIsMemory(c.log, req);
      Connections.LogGrows(c.log, req, "");
      Connections.StateMoves(c.state, req);
      assert R.Init(c.log + [req]) == c.log;
      R.RegisteredIff(c.log + [req]);
      hide R.Apply, R.RunLog, R.NickKept, R.UserKept, R.CapPending, MayAsk;
    }
  }

  lemma FinishRecords(c: Client, out: Out, id: Id, req: R.Request)
    requires id in out.s.clients && out.s.clients[id].state == c.state && out.s.clients[id].log == c.log
    requires var next := R.Apply(c.state, req);
             next.Some? && (next.value == R.Registered <==> c.state == R.Registered || Complete(c.log + [req]))
    ensures Recorded(c, out, Finish(out, id, req), id, req)
  {
    hide R.Apply, Complete;
    var q := out.s.clients[id].queue;
    assert out.rb + [] == out.rb;
  }
}
