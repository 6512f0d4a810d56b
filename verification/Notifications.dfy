/** Who hears of a QUIT, KILL, NICK, AWAY or SETNAME: exactly one copy each, however many channels are shared. */
module Notifications {
  import opened Text
  import opened Names
  import opened Server
  import opened ServerInvariant
  import Mirror
  import R = Registration

  /**
   * The queues after a notification: one more copy for each live client but the issuer that shares a
   * channel with it and enabled the capability, if one is asked for; nothing on any other queue. The
   * issuer gets its replies.
   */
  predicate HeardOnce(s: State, t: State, issuer: Id, ev: Event, cap: Option<string>)
  {
    forall o :: o in s.clients && o in t.clients && o != issuer ==> HeardBy(s, t, issuer, ev, cap, o)
  }

  predicate HeardBy(s: State, t: State, issuer: Id, ev: Event, cap: Option<string>, o: Id)
    requires o in s.clients && o in t.clients
  {
    var hears := Shares(s, issuer, o) && (cap.None? || cap.value in s.clients[o].caps);
    t.clients[o].queue == s.clients[o].queue + if hears then [ev] else []
  }

  /** Nobody but the issuer hears of the request. */
  predicate NotHeard(s: State, t: State, issuer: Id)
  {
    t.clients.Keys == s.clients.Keys
    && forall o :: o in s.clients && o in t.clients && o != issuer ==> t.clients[o].queue == s.clients[o].queue
  }

  /** The nickname is acceptable, and free or the client's own. */
  predicate NickFree(s: State, id: Id, nick: string)
  {
    IsNickname(nick) && (Canonical(nick) in s.nicks ==> s.nicks[Canonical(nick)].id == id)
  }

  /** What a QUIT, KILL, NICK, AWAY or SETNAME of a registered client leaves on the queues. */
  predicate RequestHeard(cfg: Config, s: State, t: State, id: Id, req: R.Request)
    requires id in s.clients
  {
    var c := s.clients[id];
    && (req.Quit? ==> t.clients.Keys == s.clients.Keys - {id} && HeardOnce(s, t, id, Quitted(c.nick), None))
    && (req.Kill? ==>
          var found := FindNick(s, req.target);
          if c.operator && found.Some? then
            && t.clients.Keys == s.clients.Keys - {found.value}
            && HeardOnce(s, t, found.value, Quitted(s.clients[found.value].nick), None)
          else NotHeard(s, t, id))
    && (req.Nick? ==>
          if NickFree(s, id, req.nick) && req.nick != c.nick then
            HeardOnce(s, t, id, Renamed(c.nick, req.nick), None) && id in t.clients && t.clients[id].nick == req.nick
          else NotHeard(s, t, id) && t.clients[id].nick == c.nick)
    && (req.Away? ==>
          if c.away.Some? != req.reason.Some? then
            HeardOnce(s, t, id, AwayNotice(c.nick, Shortened(cfg, req.reason)), Some("away-notify"))
          else NotHeard(s, t, id))
    && (req.SetName? ==>
          if 0 < |req.newName| <= cfg.namelen then
            HeardOnce(s, t, id, RealName(c.nick, req.newName), Some("setname"))
          else NotHeard(s, t, id))
  }

  function Shortened(cfg: Config, reason: Option<string>): Option<string>
  {
    if reason.Some? then Some(UpTo(reason.value, cfg.awaylen)) else None
  }

  // ---- the handlers

  lemma QuitHeard(s: State, id: Id)
    requires Live(s, id)
    ensures var t := RemoveClient(s, id);
            t.clients.Keys == s.clients.Keys - {id} && HeardOnce(s, t, id, Quitted(s.clients[id].nick), None)
  {
    RemoveFacts(s, id);
    forall o | o in s.clients && o in RemoveClient(s, id).clients && o != id
      ensures HeardBy(s, RemoveClient(s, id), id, Quitted(s.clients[id].nick), None, o)
    {
      Mirror.RemoveTold(s, id, o);
    }
  }

  /** The issuer's record changed and those who share a channel were notified. */
  lemma RecordNotified(s: State, s': State, id: Id, c: Client, ev: Event, cap: Option<string>)
    requires id in s.clients && s'.clients == s.clients[id := c] && s'.channels == s.channels
    ensures HeardOnce(s, Notify(s', id, ev, cap), id, ev, cap)
    ensures Notify(s', id, ev, cap).clients.Keys == s.clients.Keys && Notify(s', id, ev, cap).clients[id] == c
  {
    forall o | o in s.clients && o != id ensures HeardBy(s, Notify(s', id, ev, cap), id, ev, cap, o) {
      assert s.clients[o].queue + [] == s.clients[o].queue;
      assert Shares(s', id, o) <==> Shares(s, id, o);
    }
  }

  lemma NickHeard(s: State, id: Id, nick: string)
    requires Core(s) && Live(s, id) && IsNickname(nick)
    ensures var out := Nick(s, id, nick);
            if NickFree(s, id, nick) && nick != s.clients[id].nick then
              && HeardOnce(s, out.s, id, Renamed(s.clients[id].nick, nick), None)
              && id in out.s.clients && out.s.clients[id].nick == nick && out.rb == [Renamed(s.clients[id].nick, nick)]
            else out.s == s
  {
    var c, key := s.clients[id], Canonical(nick);
    assert Canonical(c.nick) in s.nicks && s.nicks[Canonical(c.nick)].id == id;
    hide Notify, HeardOnce, Core;
    var named := State(s.clients[id := c.(nick := nick)], (s.nicks - {Canonical(c.nick)})[key := NickEntry(nick, id)],
                       s.channels);
    RecordNotified(s, named, id, c.(nick := nick), Renamed(c.nick, nick), None);
  }

  lemma AwayHeard(cfg: Config, s: State, id: Id, reason: Option<string>)
    requires id in s.clients
    ensures var out := Away(cfg, s, id, reason);
            if s.clients[id].away.Some? != reason.Some? then
              HeardOnce(s, out.s, id, AwayNotice(s.clients[id].nick, Shortened(cfg, reason)), Some("away-notify"))
            else out.s == s
  {
    hide Notify, HeardOnce;
    var c, message := s.clients[id], Shortened(cfg, reason);
    RecordNotified(s, s.(clients := s.clients[id := c.(away := message)]), id, c.(away := message),
                   AwayNotice(c.nick, message), Some("away-notify"));
  }

  lemma SetNameHeard(cfg: Config, s: State, id: Id, name: string)
    requires id in s.clients
    ensures var out := SetName(cfg, s, id, name);
            if 0 < |name| <= cfg.namelen then
              HeardOnce(s, out.s, id, RealName(s.clients[id].nick, name), Some("setname"))
            else out.s == s
  {
    hide Notify, HeardOnce;
    var c := s.clients[id].(realname := name);
    RecordNotified(s, s.(clients := s.clients[id := c]), id, c, RealName(s.clients[id].nick, name), Some("setname"));
  }

  // ---- the whole request

  /** Concluding a request touches only the issuer. */
  lemma ConcludedHeard(s: State, out: Out, id: Id, req: R.Request, ev: Event, cap: Option<string>)
    requires id in s.clients
    ensures HeardOnce(s, out.s, id, ev, cap) ==> HeardOnce(s, Finish(out, id, req), id, ev, cap)
    ensures NotHeard(s, out.s, id) ==> NotHeard(s, Finish(out, id, req), id)
    ensures id in out.s.clients ==> id in Finish(out, id, req).clients
                                    && Finish(out, id, req).clients[id].nick == out.s.clients[id].nick
    ensures id !in out.s.clients ==> Finish(out, id, req) == out.s
  {
    var t := Finish(out, id, req);
    assert t.clients.Keys == out.s.clients.Keys;
    assert forall o :: o in out.s.clients && o != id ==> t.clients[o] == out.s.clients[o];
    if HeardOnce(s, out.s, id, ev, cap) {
      forall o | o in s.clients && o in t.clients && o != id ensures HeardBy(s, t, id, ev, cap, o) {
        assert HeardBy(s, out.s, id, ev, cap, o);
      }
    }
  }

  /** A refused request is answered and heard by nobody else. */
  lemma RefusedHeard(s: State, id: Id, rb: seq<Event>)
    requires id in s.clients
    ensures NotHeard(s, Deliver(s, id, rb), id) && Deliver(s, id, rb).clients[id].nick == s.clients[id].nick
  {
  }

  /** Every QUIT, KILL, NICK, AWAY and SETNAME of a registered client is heard by exactly those it concerns. */
  lemma HandleHeard(cfg: Config, s: State, id: Id, req: R.Request)
    requires Core(s) && Live(s, id)
    ensures RequestHeard(cfg, s, Handle(cfg, s, id, req), id, req)
  {
    hide Core, HeardOnce, NotHeard, Finish, RemoveClient, Nick, Away, SetName, NickFree, Deliver;
    var c := s.clients[id];
    if req.Nick? && !IsNickname(req.nick) {
      RefusedHeard(s, id, [Numeric("432")]);
      assert !NickFree(s, id, req.nick) by { BadNickNotFree(s, id, req.nick); }
    } else {
      match req
      case Quit =>
        QuitHeard(s, id);
        ConcludedHeard(s, Out(RemoveClient(s, id), [], true), id, req, Quitted(c.nick), None);
      case Nick(nick) =>
        NickHeard(s, id, nick);
        SameNotHeard(s, id);
        ConcludedHeard(s, Nick(s, id, nick), id, req, Renamed(c.nick, nick), None);
      case Away(_) | SetName(_) => NewsHeard(cfg, s, id, req);
      case Kill(_) => KillHeard(cfg, s, id, req);
      case _ =>
    }
  }

  /** The one killed quits: its channel mates hear of it, the killer among them if it is one. */
  lemma KillHeard(cfg: Config, s: State, id: Id, req: R.Request)
    requires Core(s) && Live(s, id) && req.Kill?
    ensures RequestHeard(cfg, s, Handle(cfg, s, id, req), id, req)
  {
    hide Core, HeardOnce, NotHeard, Finish, RemoveClient;
    var c, found := s.clients[id], FindNick(s, req.target);
    if c.operator && found.Some? {
      var v := found.value;
      QuitHeard(s, v);
      RemoveFacts(s, v);
      KillConcluded(s, Out(RemoveClient(s, v), [], true), id, req, v, Quitted(s.clients[v].nick));
    } else {
      SameNotHeard(s, id);
      ConcludedHeard(s, Kill(s, id, req.target), id, req, Welcome, None);
    }
  }

  /** A request that is answered nothing leaves the queues as its handler does. */
  lemma KillConcluded(s: State, out: Out, id: Id, req: R.Request, v: Id, ev: Event)
    requires out.rb == [] && req.Kill? && HeardOnce(s, out.s, v, ev, None)
    requires id in out.s.clients ==> out.s.clients[id].state == R.Registered
    ensures HeardOnce(s, Finish(out, id, req), v, ev, None) && Finish(out, id, req).clients.Keys == out.s.clients.Keys
  {
    var t := Finish(out, id, req);
    forall o | o in t.clients ensures t.clients[o].queue == out.s.clients[o].queue {
      assert out.s.clients[o].queue + ([] + []) == out.s.clients[o].queue;
    }
    forall o | o in s.clients && o in t.clients && o != v ensures HeardBy(s, t, v, ev, None, o) {
      assert HeardBy(s, out.s, v, ev, None, o);
    }
  }

  lemma NewsHeard(cfg: Config, s: State, id: Id, req: R.Request)
    requires Live(s, id) && (req.Away? || req.SetName?)
    ensures RequestHeard(cfg, s, Handle(cfg, s, id, req), id, req)
  {
    hide HeardOnce, NotHeard, Finish, Away, SetName;
    var c := s.clients[id];
    SameNotHeard(s, id);
    match req
    case Away(reason) =>
      AwayHeard(cfg, s, id, reason);
      ConcludedHeard(s, Away(cfg, s, id, reason), id, req, AwayNotice(c.nick, Shortened(cfg, reason)),
                     Some("away-notify"));
    case SetName(name) =>
      SetNameHeard(cfg, s, id, name);
      ConcludedHeard(s, SetName(cfg, s, id, name), id, req, RealName(c.nick, name), Some("setname"));
  }

  lemma BadNickNotFree(s: State, id: Id, nick: string)
    requires !IsNickname(nick)
    ensures !NickFree(s, id, nick)
  {
  }

  lemma SameNotHeard(s: State, id: Id)
    ensures NotHeard(s, s, id)
  {
  }
}
