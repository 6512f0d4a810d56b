/** Every connection keeps the registration rules, over whole runs of the server. */
module Connections {
  import opened Text
  import opened Names
  import opened Server
  import opened ServerInvariant
  import M = Modes
  import C = Channels
  import R = Registration

  function Welcomes(q: seq<Event>): nat
  {
    multiset(q)[Welcome]
  }

  predicate Quiet(rb: seq<Event>)
  {
    Welcome !in rb
  }

  /**
   * A connection's state is the one its accepted requests lead to; it knows its nickname; under a
   * server password it gave USER only after the right PASS; and it was welcomed once if registered.
   */
  predicate ClientOk(cfg: Config, c: Client)
  {
    && R.RunLog(c.log) == Some(c.state) && c.state != R.Gone
    && (c.nick == NO_NICK || IsNickname(c.nick)) && (R.KnowsNick(c.state) ==> c.nick != NO_NICK)
    && (c.hasPass ==> R.HasPass(c.log, cfg.password))
    && (R.KnowsUser(c.state) && cfg.password != "" ==> c.hasPass)
    && Welcomes(c.queue) == (if c.state == R.Registered then 1 else 0)
    && (c.operator <==> R.IsOper(c.log))
    && (forall req :: req in c.log ==> KnownOper(cfg, req))
  }

  predicate ClientsOk(cfg: Config, s: State)
  {
    forall i :: i in s.clients ==> ClientOk(cfg, s.clients[i])
  }

  // ---- what handlers do to the clients

  /** Only the queue grew, and by no welcome. */
  predicate OnlyTold(c: Client, c': Client)
  {
    c' == c.(queue := c'.queue) && Welcomes(c'.queue) == Welcomes(c.queue)
  }

  predicate AllOnlyTold(a: map<Id, Client>, b: map<Id, Client>)
  {
    a.Keys == b.Keys && forall i :: i in a ==> OnlyTold(a[i], b[i])
  }

  /** What a handler may do to its issuer. */
  predicate IssuerChanged(cfg: Config, c: Client, c': Client, req: R.Request, ok: bool)
  {
    && c'.state == c.state && c'.log == c.log && Welcomes(c'.queue) == Welcomes(c.queue)
    && (c'.nick == c.nick || (req.Nick? && c'.nick == req.nick))
    && (req.Nick? && ok ==> c'.nick == req.nick)
    && (c.hasPass ==> c'.hasPass)
    && (c'.hasPass ==> c.hasPass || (ok && req == R.Pass(cfg.password)))
    && (req.User? && ok ==> cfg.password == "" || c'.hasPass)
    && (c'.operator <==> (ok && req.Oper?) || (c.operator && !(ok && req.DropsOper())))
    && (ok ==> KnownOper(cfg, req))
  }

  /** An accepted OPER gives a name and a password of the configuration. */
  predicate KnownOper(cfg: Config, req: R.Request)
  {
    req.Oper? ==> (req.name, req.operPassword) in cfg.opers
  }

  predicate Effects(cfg: Config, s: State, id: Id, req: R.Request, out: Out)
    requires id in s.clients
  {
    && out.s.clients.Keys <= s.clients.Keys && Quiet(out.rb)
    && (forall i :: i in out.s.clients && i != id ==> OnlyTold(s.clients[i], out.s.clients[i]))
    && (id in out.s.clients ==> IssuerChanged(cfg, s.clients[id], out.s.clients[id], req, out.ok))
    && (req.Quit? ==> id !in out.s.clients)
  }

  lemma PushTells(clients: map<Id, Client>, targets: set<Id>, ev: Event)
    requires ev != Welcome
    ensures AllOnlyTold(clients, Push(clients, targets, ev))
  {
  }

  lemma TellTwice(a: map<Id, Client>, b: map<Id, Client>, c: map<Id, Client>)
    requires AllOnlyTold(a, b) && AllOnlyTold(b, c)
    ensures AllOnlyTold(a, c)
  {
  }

  lemma TellNothing(a: map<Id, Client>)
    ensures AllOnlyTold(a, a)
  {
  }

  /** A handler that only tells clients things, and makes no promise about NICK, USER, OPER or QUIT. */
  lemma ToldEffects(cfg: Config, s: State, id: Id, req: R.Request, out: Out)
    requires id in s.clients && AllOnlyTold(s.clients, out.s.clients) && Quiet(out.rb)
    requires !req.Quit? && !(out.ok && (req.Nick? || req.User? || req.Oper? || req.ModeUser?))
    ensures Effects(cfg, s, id, req, out)
  {
  }

  lemma RemoveTells(s: State, id: Id)
    requires id in s.clients
    ensures var t := RemoveClient(s, id);
            t.clients.Keys == s.clients.Keys - {id} && forall i :: i in t.clients ==> OnlyTold(s.clients[i], t.clients[i])
  {
  }

  lemma EnterTells(cfg: Config, s: State, id: Id, k: string)
    requires id in s.clients
    ensures AllOnlyTold(s.clients, EnterChannel(cfg, s, id, k).clients)
  {
    hide AllOnlyTold;
    var c, ch := s.clients[id], ChannelFor(cfg, s, k).AddMember(id);
    var others := ch.members.Keys - {id};
    var told := Push(s.clients, others, Joined(c.nick, k));
    var aware := set m | m in others && m in s.clients && "away-notify" in s.clients[m].caps;
    PushTells(s.clients, others, Joined(c.nick, k));
    PushTells(told, aware, AwayNotice(c.nick, c.away));
    TellTwice(s.clients, told, Push(told, aware, AwayNotice(c.nick, c.away)));
  }

  lemma {:induction false} JoinTells(cfg: Config, s: State, rb: seq<Event>, id: Id, list: seq<(string, Option<string>)>)
    requires id in s.clients && Quiet(rb)
    ensures var r := JoinAll(cfg, s, rb, id, list); AllOnlyTold(s.clients, r.0.clients) && Quiet(r.1)
    decreases list
  {
    hide AllOnlyTold, EnterChannel, CheckJoin;
    TellNothing(s.clients);
    if list != [] {
      EnterTells(cfg, s, id, Canonical(list[0].0));
      var (s1, rb1) := JoinOne(cfg, s, rb, id, list[0].0, list[0].1);
      JoinTells(cfg, s1, rb1, id, list[1..]);
      TellTwice(s.clients, s1.clients, JoinAll(cfg, s1, rb1, id, list[1..]).0.clients);
    }
  }

  lemma LeaveTells(s: State, id: Id, k: string)
    requires k in s.channels
    ensures AllOnlyTold(s.clients, Leave(s, id, k).clients)
  {
    PushTells(s.clients, s.channels[k].RemoveMember(id).members.Keys, Parted(NickOf(s, id), k));
    TellNothing(s.clients);
  }

  lemma {:induction false} PartTells(s: State, rb: seq<Event>, ok: bool, id: Id, list: seq<string>)
    requires Quiet(rb)
    ensures var r := PartAll(s, rb, ok, id, list); AllOnlyTold(s.clients, r.s.clients) && Quiet(r.rb)
    decreases list
  {
    hide AllOnlyTold, Leave;
    TellNothing(s.clients);
    if list != [] {
      var k := Canonical(list[0]);
      if k in s.channels { LeaveTells(s, id, k); }
      var (s1, rb1, ok1) := PartOne(s, rb, id, list[0]);
      PartTells(s1, rb1, ok && ok1, id, list[1..]);
      TellTwice(s.clients, s1.clients, PartAll(s1, rb1, ok && ok1, id, list[1..]).s.clients);
    }
  }

  lemma {:induction false} PartEverywhereTells(s: State, rb: seq<Event>, id: Id, order: seq<string>)
    requires Quiet(rb)
    ensures var r := PartEverywhere(s, rb, id, order); AllOnlyTold(s.clients, r.s.clients) && Quiet(r.rb) && r.ok
    decreases order
  {
    hide AllOnlyTold, Leave;
    TellNothing(s.clients);
    if order != [] {
      var k := order[0];
      if k in s.channels && id in s.channels[k].members {
        LeaveTells(s, id, k);
        var s1, rb1 := Leave(s, id, k), rb + [Parted(NickOf(s, id), k)];
        PartEverywhereTells(s1, rb1, id, order[1..]);
        TellTwice(s.clients, s1.clients, PartEverywhere(s1, rb1, id, order[1..]).s.clients);
      } else {
        PartEverywhereTells(s, rb, id, order[1..]);
      }
    }
  }

  lemma {:induction false} KickTells(s: State, rb: seq<Event>, id: Id, k: string, who: seq<string>)
    requires k in s.channels && Quiet(rb)
    ensures var r := KickAll(s, rb, id, k, who); AllOnlyTold(s.clients, r.0.clients) && Quiet(r.1)
    decreases who
  {
    hide AllOnlyTold, Push, FindNick;
    TellNothing(s.clients);
    if who != [] {
      var (s1, rb1) := KickOne(s, rb, id, k, who[0]);
      forall targets, ev | ev != Welcome ensures AllOnlyTold(s.clients, Push(s.clients, targets, ev)) {
        PushTells(s.clients, targets, ev);
      }
      KickTells(s1, rb1, id, k, who[1..]);
      TellTwice(s.clients, s1.clients, KickAll(s1, rb1, id, k, who[1..]).0.clients);
    }
  }

  lemma {:induction false} NamesAreQuiet(s: State, rb: seq<Event>, id: Id, list: seq<string>)
    requires Quiet(rb)
    ensures Quiet(NamesAll(s, rb, id, list))
    decreases list
  {
    if list != [] {
      NamesAreQuiet(s, rb + SendNames(s, id, Canonical(list[0])), id, list[1..]);
    }
  }

  lemma InviteTells(s: State, id: Id, nick: string, chan: string)
    requires id in s.clients
    ensures AllOnlyTold(s.clients, Invite(s, id, nick, chan).s.clients) && Quiet(Invite(s, id, nick, chan).rb)
  {
    hide AllOnlyTold, Push, FindNick;
    TellNothing(s.clients);
    var t := Invite(s, id, nick, chan).s.clients;
    forall a, targets, ev | ev != Welcome && AllOnlyTold(s.clients, a)
      ensures AllOnlyTold(s.clients, Push(a, targets, ev))
    {
      PushTells(a, targets, ev);
      TellTwice(s.clients, a, Push(a, targets, ev));
    }
  }

  lemma ModeTells(cfg: Config, s: State, id: Id, chan: string, modes: string, params: seq<string>)
    requires id in s.clients
    ensures var out := Mode(cfg, s, id, chan, modes, params); AllOnlyTold(s.clients, out.s.clients) && Quiet(out.rb)
  {
    hide AllOnlyTold, Push, C.CanChange, C.ApplyAll, NickMap, C.AllReplies;
    TellNothing(s.clients);
    forall targets, ev | ev != Welcome ensures AllOnlyTold(s.clients, Push(s.clients, targets, ev)) {
      PushTells(s.clients, targets, ev);
    }
  }

  /** The issuer changed and then everyone was told something. */
  lemma ChangedThenTold(cfg: Config, s: State, id: Id, req: R.Request, c: Client, clients: map<Id, Client>, out: Out)
    requires id in s.clients && IssuerChanged(cfg, s.clients[id], c, req, out.ok) && Quiet(out.rb) && !req.Quit?
    requires AllOnlyTold(s.clients[id := c], clients) && out.s.clients == clients
    ensures Effects(cfg, s, id, req, out)
  {
  }

  lemma NickEffects(cfg: Config, s: State, id: Id, nick: string)
    requires id in s.clients
    ensures Effects(cfg, s, id, R.Nick(nick), Nick(s, id, nick))
  {
    hide AllOnlyTold, Effects;
    var c, out := s.clients[id], Nick(s, id, nick);
    TellNothing(s.clients);
    var renamed := s.clients[id := c.(nick := nick)];
    TellNothing(renamed);
    forall targets ensures AllOnlyTold(renamed, Push(renamed, targets, Renamed(c.nick, nick))) {
      PushTells(renamed, targets, Renamed(c.nick, nick));
    }
    if out.ok && out.s != s {
      ChangedThenTold(cfg, s, id, R.Nick(nick), c.(nick := nick), out.s.clients, out);
    } else {
      assert s.clients[id := c] == s.clients;
      ChangedThenTold(cfg, s, id, R.Nick(nick), c, s.clients, out);
    }
  }

  lemma UserEffects(cfg: Config, s: State, id: Id, username: string, realname: string)
    requires id in s.clients
    ensures Effects(cfg, s, id, R.User(username, realname), User(cfg, s, id, username, realname))
  {
    hide RemoveClient;
    RemoveTells(s, id);
  }

  lemma AwayEffects(cfg: Config, s: State, id: Id, reason: Option<string>)
    requires id in s.clients
    ensures Effects(cfg, s, id, R.Away(reason), Away(cfg, s, id, reason))
  {
    hide AllOnlyTold, Effects;
    var c, out := s.clients[id], Away(cfg, s, id, reason);
    TellNothing(s.clients);
    if !out.ok {
      ToldEffects(cfg, s, id, R.Away(reason), out);
    } else {
      var c' := c.(away := if reason.Some? then Some(UpTo(reason.value, cfg.awaylen)) else None);
      var s1 := s.(clients := s.clients[id := c']);
      PushTells(s1.clients, Noticed(s1, id, Some("away-notify")), AwayNotice(c.nick, c'.away));
      ChangedThenTold(cfg, s, id, R.Away(reason), c', out.s.clients, out);
    }
  }

  lemma SetNameEffects(cfg: Config, s: State, id: Id, name: string)
    requires id in s.clients
    ensures Effects(cfg, s, id, R.SetName(name), SetName(cfg, s, id, name))
  {
    hide AllOnlyTold, Effects;
    var c, out := s.clients[id], SetName(cfg, s, id, name);
    TellNothing(s.clients);
    if !out.ok {
      ToldEffects(cfg, s, id, R.SetName(name), out);
    } else {
      var s1 := s.(clients := s.clients[id := c.(realname := name)]);
      PushTells(s1.clients, Noticed(s1, id, Some("setname")), RealName(c.nick, name));
      ChangedThenTold(cfg, s, id, R.SetName(name), c.(realname := name), out.s.clients, out);
    }
  }

  lemma OwnRecordEffects(cfg: Config, s: State, id: Id, req: R.Request, c: Client, out: Out)
    requires id in s.clients && IssuerChanged(cfg, s.clients[id], c, req, out.ok) && Quiet(out.rb) && !req.Quit?
    requires out.s.clients == s.clients[id := c]
    ensures Effects(cfg, s, id, req, out)
  {
  }

  lemma DispatchEffects(cfg: Config, s: State, id: Id, req: R.Request)
    requires id in s.clients
    ensures Effects(cfg, s, id, req, Dispatch(cfg, s, id, req))
  {
    hide Effects, AllOnlyTold, Mode, Nick, RemoveClient, Invite, JoinAll, PartAll, PartEverywhere, KickAll, Away, SetName,
         ModeUser;
    var out := Dispatch(cfg, s, id, req);
    TellNothing(s.clients);
    match req
    case Nick(nick) => NickEffects(cfg, s, id, nick);
    case User(username, realname) => UserEffects(cfg, s, id, username, realname);
    case Pass(_) | CapReq(_) | Oper(_, _) => OwnRequestEffects(cfg, s, id, req);
    case Quit => RemoveEffects(cfg, s, id, id, req, out);
    case Join(list) => JoinTells(cfg, s, [], id, list); ToldEffects(cfg, s, id, req, out);
    case Part(list) => PartTells(s, [], true, id, list); ToldEffects(cfg, s, id, req, out);
    case PartAll(order) => PartEverywhereTells(s, [], id, order); ToldEffects(cfg, s, id, req, out);
    case Kick(from, who) =>
      if Canonical(from) in s.channels { KickTells(s, [], id, Canonical(from), who); }
      ToldEffects(cfg, s, id, req, out);
    case Kill(nick) => KillEffects(cfg, s, id, nick);
    case Mode(channel, modes, params) =>
      ModeTells(cfg, s, id, channel, modes, params);
      ToldEffects(cfg, s, id, req, out);
    case Invite(nick, channel) => InviteTells(s, id, nick, channel); ToldEffects(cfg, s, id, req, out);
    case Away(reason) => AwayEffects(cfg, s, id, reason);
    case SetName(name) => SetNameEffects(cfg, s, id, name);
    case Names(listed) => NamesAreQuiet(s, [], id, listed); ToldEffects(cfg, s, id, req, out);
    case ModeUser(user, modes) => ModeUserEffects(cfg, s, id, user, modes);
    case _ => ToldEffects(cfg, s, id, req, out);
  }

  lemma OwnRequestEffects(cfg: Config, s: State, id: Id, req: R.Request)
    requires id in s.clients && (req.Pass? || req.CapReq? || req.Oper?)
    ensures Effects(cfg, s, id, req, Dispatch(cfg, s, id, req))
  {
    hide Effects;
    var out := Dispatch(cfg, s, id, req);
    assert s.clients[id := s.clients[id]] == s.clients;
    OwnRecordEffects(cfg, s, id, req, out.s.clients[id], out);
  }

  lemma ModeUserEffects(cfg: Config, s: State, id: Id, user: string, modes: string)
    requires id in s.clients
    ensures Effects(cfg, s, id, R.ModeUser(user, modes), ModeUser(s, id, user, modes))
  {
    hide Effects, UserModes, M.UserQuery;
    var c, out := s.clients[id], ModeUser(s, id, user, modes);
    UserModesShape(c, [], "", M.UserQuery(modes));
    if out.ok {
      OwnRecordEffects(cfg, s, id, R.ModeUser(user, modes), out.s.clients[id], out);
    } else {
      TellNothing(s.clients);
      ToldEffects(cfg, s, id, R.ModeUser(user, modes), out);
    }
  }

  lemma RemoveEffects(cfg: Config, s: State, id: Id, t: Id, req: R.Request, out: Out)
    requires id in s.clients && t in s.clients && out.s == RemoveClient(s, t) && Quiet(out.rb)
    requires !req.Nick? && !req.User? && !req.Oper? && !req.ModeUser? && (req.Quit? ==> t == id)
    ensures Effects(cfg, s, id, req, out)
  {
    RemoveTells(s, t);
    if id != t { assert OnlyTold(s.clients[id], out.s.clients[id]); }
  }

  lemma KillEffects(cfg: Config, s: State, id: Id, nick: string)
    requires id in s.clients
    ensures Effects(cfg, s, id, R.Kill(nick), Kill(s, id, nick))
  {
    hide Effects, RemoveClient;
    var out := Kill(s, id, nick);
    TellNothing(s.clients);
    if s.clients[id].operator && FindNick(s, nick).Some? {
      RemoveEffects(cfg, s, id, FindNick(s, nick).value, R.Kill(nick), out);
    } else {
      ToldEffects(cfg, s, id, R.Kill(nick), out);
    }
  }

  // ---- after the handler

  /** After the gate the state can always advance: the unwrap in `apply_request` never fails. */
  lemma AdvanceNeverFails(cfg: Config, s: State, id: Id, req: R.Request)
    requires id in s.clients && R.Apply(s.clients[id].state, req).Some?
    ensures var out := Dispatch(cfg, s, id, req);
            id in out.s.clients ==> R.Apply(out.s.clients[id].state, req) == R.Apply(s.clients[id].state, req)
  {
    DispatchEffects(cfg, s, id, req);
  }

  lemma ToldOk(cfg: Config, c: Client, c': Client)
    requires ClientOk(cfg, c) && OnlyTold(c, c')
    ensures ClientOk(cfg, c')
  {
  }

  /** Accepting a request on top of what the handler did. */
  lemma AcceptedOk(cfg: Config, c: Client, c1: Client, req: R.Request, rb: seq<Event>)
    requires ClientOk(cfg, c) && IssuerChanged(cfg, c, c1, req, true) && Quiet(rb) && !req.Quit?
    requires R.Apply(c.state, req).Some?
    requires req.Nick? ==> IsNickname(req.nick)
    ensures var next := R.Apply(c.state, req).value;
            ClientOk(cfg, c1.(state := next, log := c1.log + [req], queue := c1.queue + (rb + Greeting(c.state, next))))
  {
    var next := R.Apply(c.state, req).value;
    LogGrows(c.log, req, cfg.password);
    StateMoves(c.state, req);
    WelcomeOnce(c1.queue, rb, c.state, next);
    OperGrows(cfg, c.log, req);
    hide R.Apply, R.RunLog, R.HasPass, R.IsOper, Welcomes, KnownOper;
  }

  lemma OperGrows(cfg: Config, log: R.Log, req: R.Request)
    requires (forall past :: past in log ==> KnownOper(cfg, past)) && KnownOper(cfg, req)
    ensures forall any :: any in log + [req] ==> KnownOper(cfg, any)
    ensures R.IsOper(log + [req]) <==> req.Oper? || (R.IsOper(log) && !req.DropsOper())
  {
    assert R.Init(log + [req]) == log && R.Last(log + [req]) == req;
  }

  lemma LogGrows(log: R.Log, req: R.Request, password: string)
    requires R.RunLog(log).Some?
    ensures R.RunLog(log + [req]) == R.Apply(R.RunLog(log).value, req)
    ensures R.HasPass(log, password) || req == R.Pass(password) ==> R.HasPass(log + [req], password)
  {
  }

  /** What a request other than QUIT can teach the server about a connection. */
  lemma StateMoves(state: R.ConnState, req: R.Request)
    requires R.Apply(state, req).Some? && !req.Quit? && state != R.Gone
    ensures var next := R.Apply(state, req).value;
            && next != R.Gone
            && (R.KnowsNick(next) ==> R.KnowsNick(state) || req.Nick?)
            && (R.KnowsUser(next) ==> R.KnowsUser(state) || req.User?)
            && (state == R.Registered ==> next == R.Registered)
  {
  }

  lemma WelcomeOnce(q: seq<Event>, rb: seq<Event>, before: R.ConnState, after: R.ConnState)
    requires Quiet(rb) && (before == R.Registered ==> after == R.Registered)
    requires Welcomes(q) == if before == R.Registered then 1 else 0
    ensures Welcomes(q + (rb + Greeting(before, after))) == if after == R.Registered then 1 else 0
  {
  }

  lemma RefusedOk(cfg: Config, c: Client, c1: Client, req: R.Request, rb: seq<Event>)
    requires ClientOk(cfg, c) && IssuerChanged(cfg, c, c1, req, false) && Quiet(rb)
    requires req.Nick? ==> IsNickname(req.nick)
    ensures ClientOk(cfg, c1.(queue := c1.queue + rb))
  {
  }

  lemma HandleClientsOk(cfg: Config, s: State, id: Id, req: R.Request)
    requires ClientsOk(cfg, s)
    ensures ClientsOk(cfg, Handle(cfg, s, id, req))
  {
    if id in s.clients {
      var t := Handle(cfg, s, id, req);
      if (req.Nick? && !IsNickname(req.nick)) || R.Apply(s.clients[id].state, req).None? {
        ReplyOk(cfg, s, id, t.clients[id].queue[|t.clients[id].queue| - 1]);
      } else {
        DispatchOk(cfg, s, id, req);
      }
    }
  }

  lemma ReplyOk(cfg: Config, s: State, id: Id, ev: Event)
    requires ClientsOk(cfg, s) && id in s.clients && ev != Welcome
    ensures ClientsOk(cfg, Deliver(s, id, [ev]))
  {
  }

  lemma DispatchOk(cfg: Config, s: State, id: Id, req: R.Request)
    requires ClientsOk(cfg, s) && id in s.clients && R.Apply(s.clients[id].state, req).Some?
    requires req.Nick? ==> IsNickname(req.nick)
    ensures ClientsOk(cfg, Finish(Dispatch(cfg, s, id, req), id, req))
  {
    hide Dispatch, ClientOk, IssuerChanged, OnlyTold;
    var out := Dispatch(cfg, s, id, req);
    DispatchEffects(cfg, s, id, req);
    AdvanceNeverFails(cfg, s, id, req);
    var t := Finish(out, id, req);
    forall i | i in t.clients ensures ClientOk(cfg, t.clients[i]) {
      if i != id {
        ToldOk(cfg, s.clients[i], t.clients[i]);
      } else if out.ok {
        AcceptedOk(cfg, s.clients[id], out.s.clients[id], req, out.rb);
        SameState(cfg, s.clients[id], out.s.clients[id], req, out.ok);
      } else {
        RefusedOk(cfg, s.clients[id], out.s.clients[id], req, out.rb);
      }
    }
  }

  lemma SameState(cfg: Config, c: Client, c1: Client, req: R.Request, ok: bool)
    requires IssuerChanged(cfg, c, c1, req, ok)
    ensures c1.state == c.state
  {
  }

  lemma StepClientsOk(cfg: Config, s: State, input: Input)
    requires ClientsOk(cfg, s)
    ensures ClientsOk(cfg, Step(cfg, s, input))
  {
    hide Handle, RemoveClient;
    match input
    case Arrive(id, host) => assert R.RunLog([]) == Some(R.ConnectionEstablished);
    case Request(id, req) => HandleClientsOk(cfg, s, id, req);
    case Malformed(id, code) => if id in s.clients { ReplyOk(cfg, s, id, Numeric(code)); }
    case Hangup(id) => RemoveOk(cfg, s, id);
    case Timeout(id) => RemoveOk(cfg, s, id);
  }

  lemma RemoveOk(cfg: Config, s: State, id: Id)
    requires ClientsOk(cfg, s)
    ensures ClientsOk(cfg, RemoveClient(s, id))
  {
    if id in s.clients {
      RemoveTells(s, id);
      var t := RemoveClient(s, id);
      forall i | i in t.clients ensures ClientOk(cfg, t.clients[i]) {
        ToldOk(cfg, s.clients[i], t.clients[i]);
      }
    }
  }

  // ---- the state invariant along runs

  lemma ConnectCore(s: State, id: Id, host: string)
    requires Core(s)
    ensures Core(Connect(s, id, host))
  {
    if id !in s.clients {
      var t := Connect(s, id, host);
      forall k | k in t.channels ensures ChannelOk(t, t.channels[k]) {
        assert ChannelOk(s, s.channels[k]);
      }
    }
  }

  /** What the server does after the handler: the issuer's state, log and queue, nothing else. */
  lemma FinishShape(out: Out, id: Id, req: R.Request)
    requires id in out.s.clients
    ensures var t := Finish(out, id, req);
            && t.nicks == out.s.nicks && t.channels == out.s.channels
            && id in t.clients && t.clients == out.s.clients[id := t.clients[id]]
            && t.clients[id].nick == out.s.clients[id].nick
            && (t.clients[id].state == out.s.clients[id].state
                || R.Apply(out.s.clients[id].state, req) == Some(t.clients[id].state))
  {
  }

  lemma FinishCore(cfg: Config, s: State, id: Id, req: R.Request)
    requires Core(s) && ClientsOk(cfg, s) && id in s.clients && R.Apply(s.clients[id].state, req).Some?
    requires req.Nick? ==> IsNickname(req.nick)
    ensures Core(Finish(Dispatch(cfg, s, id, req), id, req))
  {
    hide Dispatch, Core, ClientsOk, Finish, Effects, R.Apply;
    OnlyRegisteredJoin(s, id, req);
    DispatchCore(cfg, s, id, req);
    DispatchOk(cfg, s, id, req);
    var out, t := Dispatch(cfg, s, id, req), Finish(Dispatch(cfg, s, id, req), id, req);
    if id in out.s.clients {
      AfterHandler(cfg, s, id, req);
      FinishShape(out, id, req);
      NotGone(cfg, t, id);
      NotGone(cfg, s, id);
      hide ClientOk;
      AdvanceCore(cfg, out.s, t, id);
    } else {
      assert t == out.s by { GoneAfter(out, id, req); }
    }
  }

  lemma GoneAfter(out: Out, id: Id, req: R.Request)
    requires id !in out.s.clients
    ensures Finish(out, id, req) == out.s
  {
  }

  /** An issuer that is still there has the state it had, from which a registered one does not fall back. */
  lemma AfterHandler(cfg: Config, s: State, id: Id, req: R.Request)
    requires id in s.clients && ClientsOk(cfg, s) && R.Apply(s.clients[id].state, req).Some?
    requires id in Dispatch(cfg, s, id, req).s.clients
    ensures Dispatch(cfg, s, id, req).s.clients[id].state == s.clients[id].state
    ensures s.clients[id].state == R.Registered ==> R.Apply(R.Registered, req) == Some(R.Registered)
  {
    hide Dispatch, ClientsOk;
    DispatchEffects(cfg, s, id, req);
    NotGone(cfg, s, id);
    SameState(cfg, s.clients[id], Dispatch(cfg, s, id, req).s.clients[id], req, Dispatch(cfg, s, id, req).ok);
    StateMoves(s.clients[id].state, req);
  }

  lemma OnlyRegisteredJoin(s: State, id: Id, req: R.Request)
    requires id in s.clients && R.Apply(s.clients[id].state, req).Some?
    ensures req.Join? ==> Live(s, id)
  {
  }

  lemma NotGone(cfg: Config, s: State, id: Id)
    requires ClientsOk(cfg, s) && id in s.clients
    ensures s.clients[id].state != R.Gone && ClientOk(cfg, s.clients[id])
  {
  }

  /** The issuer may become registered, never stop being so; nothing else the invariant sees changes. */
  lemma AdvanceCore(cfg: Config, s: State, t: State, id: Id)
    requires Core(s) && id in s.clients && t.nicks == s.nicks && t.channels == s.channels
    requires id in t.clients && t.clients == s.clients[id := t.clients[id]] && t.clients[id].nick == s.clients[id].nick
    requires s.clients[id].state == R.Registered ==> t.clients[id].state == R.Registered
    requires ClientOk(cfg, t.clients[id])
    ensures Core(t)
  {
    forall k | k in t.channels ensures ChannelOk(t, t.channels[k]) {
      assert ChannelOk(s, s.channels[k]);
    }
  }

  lemma StepCore(cfg: Config, s: State, input: Input)
    requires Core(s) && ClientsOk(cfg, s)
    ensures Core(Step(cfg, s, input))
  {
    hide RemoveClient, Core, Dispatch, Finish;
    match input
    case Arrive(id, host) => ConnectCore(s, id, host);
    case Request(id, req) =>
      if id in s.clients {
        if (req.Nick? && !IsNickname(req.nick)) || R.Apply(s.clients[id].state, req).None? {
          ClientCore(s, id, Handle(cfg, s, id, req).clients[id]);
        } else {
          FinishCore(cfg, s, id, req);
        }
      }
    case Malformed(id, code) => if id in s.clients { ClientCore(s, id, Step(cfg, s, input).clients[id]); }
    case Hangup(id) => RemoveCore(s, id);
    case Timeout(id) => RemoveCore(s, id);
  }

  /** Every reachable state: the nick index, the channels and the connections are in order. */
  lemma {:induction false} RunKeepsInvariant(cfg: Config, s: State, inputs: seq<Input>)
    requires Core(s) && ClientsOk(cfg, s)
    ensures Core(Run(cfg, s, inputs)) && ClientsOk(cfg, Run(cfg, s, inputs))
    decreases inputs
  {
    hide Step, Core, ClientsOk;
    if inputs != [] {
      StepCore(cfg, s, inputs[0]);
      StepClientsOk(cfg, s, inputs[0]);
      RunKeepsInvariant(cfg, Step(cfg, s, inputs[0]), inputs[1..]);
    }
  }

  /** The invariant over every run from the empty server, identifiers reused or not. */
  lemma ReachableInvariant(cfg: Config, inputs: seq<Input>)
    ensures var s := Run(cfg, INITIAL, inputs); Core(s) && ClientsOk(cfg, s)
  {
    RunKeepsInvariant(cfg, INITIAL, inputs);
  }

  /**
   * Registration safety over every run: a registered client became so at one request, once, having got
   * a NICK and a USER accepted that no opening of a negotiation followed, with none open and, under a
   * server password, after the right PASS; it is indexed under its nickname and was welcomed once.
   */
  lemma RegistrationSafety(cfg: Config, inputs: seq<Input>, id: Id)
    requires var s := Run(cfg, INITIAL, inputs); id in s.clients && s.clients[id].state == R.Registered
    ensures var s := Run(cfg, INITIAL, inputs);
            var c := s.clients[id];
            && (exists n :: 0 < n <= |c.log| && EarnedAt(cfg, c.log, n))
            && Canonical(c.nick) in s.nicks && s.nicks[Canonical(c.nick)] == NickEntry(c.nick, id)
            && Welcomes(c.queue) == 1
  {
    ReachableInvariant(cfg, inputs);
    hide Run;
    var log := Run(cfg, INITIAL, inputs).clients[id].log;
    R.RegisteredOnce(log);
    var n :| 0 < n <= |log| && R.RegisteredFrom(log, n);
    R.EarnedWhenRegistered(log, n);
    hide R.RegisteredFrom, R.NickKept, R.UserKept, R.CapPending, Core;
    if cfg.password != "" { R.PassComesFirst(log, n, cfg.password); }
    assert EarnedAt(cfg, log, n);
  }

  /** The request at which a connection became registered, and what it had given by then. */
  predicate EarnedAt(cfg: Config, log: R.Log, n: nat)
    requires 0 < n <= |log|
  {
    && R.RegisteredFrom(log, n)
    && R.NickKept(log[..n]) && R.UserKept(log[..n]) && !R.CapPending(log[..n])
    && (cfg.password != "" ==> R.HasPass(log[..n], cfg.password))
  }
}
