/** What each request about a client itself, and leaving a channel, puts on record. */
module Records {
  import opened Text
  import opened Names
  import opened Server
  import opened ServerInvariant
  import Caps
  import Connections
  import Gate
  import M = Modes
  import R = Registration

  /** A reachable state in which the client is registered. */
  predicate Ready(cfg: Config, s: State, id: Id)
  {
    Core(s) && Connections.ClientsOk(cfg, s) && Live(s, id)
  }

  ghost function After(cfg: Config, s: State, id: Id, req: R.Request): State
  {
    Step(cfg, s, Request(id, req))
  }

  /** The client as given, told `replies`, and its channels as they were. */
  predicate Recorded(s: State, t: State, id: Id, c: Client, replies: seq<Event>)
    requires id in s.clients
  {
    && t.channels == s.channels && id in t.clients
    && t.clients[id] == c.(log := t.clients[id].log, queue := s.clients[id].queue + replies)
  }

  lemma OwnRecord(cfg: Config, s: State, id: Id, req: R.Request)
    requires Ready(cfg, s, id) && id in Dispatch(cfg, s, id, req).s.clients
    requires Dispatch(cfg, s, id, req).s.channels == s.channels
    requires !req.Pass? && !req.User? && !req.Quit? && (req.Nick? ==> IsNickname(req.nick))
    requires Dispatch(cfg, s, id, req).s.clients[id].queue == s.clients[id].queue
    ensures Recorded(s, After(cfg, s, id, req), id, Dispatch(cfg, s, id, req).s.clients[id].(state := R.Registered),
                     Dispatch(cfg, s, id, req).rb)
  {
    hide Dispatch, Step, Core, Connections.ClientsOk;
    Gate.LiveIsRecorded(cfg, s, id, req);
  }

  // ---- the client's own record

  /** OPER makes an IRC operator of whoever gives a name and password of the configuration. */
  lemma OperDecides(cfg: Config, s: State, id: Id, name: string, password: string)
    requires Ready(cfg, s, id)
    ensures var t, c := After(cfg, s, id, R.Oper(name, password)), s.clients[id];
            if exists k :: 0 <= k < |cfg.opers| && cfg.opers[k] == (name, password) then
              Recorded(s, t, id, c.(operator := true), [UserModeChanged(c.nick, "+o"), Numeric("381")])
            else Recorded(s, t, id, c, [Numeric("464")])
  {
    var req := R.Oper(name, password);
    assert Dispatch(cfg, s, id, req) == Oper(cfg, s, id, name, password);
    hide Dispatch, Core, Connections.ClientsOk, After;
    OwnRecord(cfg, s, id, req);
  }

  /** AWAY keeps its message, cut to its maximal length, and coming back drops it; repeating either is refused. */
  lemma AwayDecides(cfg: Config, s: State, id: Id, reason: Option<string>)
    requires Ready(cfg, s, id)
    ensures var t, c := After(cfg, s, id, R.Away(reason)), s.clients[id];
            && (reason.Some? && c.away.None? ==>
                  Recorded(s, t, id, c.(away := Some(UpTo(reason.value, cfg.awaylen))), [Numeric("306")]))
            && (reason.None? && c.away.Some? ==> Recorded(s, t, id, c.(away := None), [Numeric("305")]))
            && (reason.Some? == c.away.Some? ==> Recorded(s, t, id, c, []))
  {
    var req := R.Away(reason);
    assert Dispatch(cfg, s, id, req) == Away(cfg, s, id, reason);
    hide Dispatch, Core, Connections.ClientsOk, After, Shares;
    OwnRecord(cfg, s, id, req);
  }

  /** SETNAME keeps the name if it is neither empty nor too long. */
  lemma SetNameDecides(cfg: Config, s: State, id: Id, name: string)
    requires Ready(cfg, s, id)
    ensures var t, c := After(cfg, s, id, R.SetName(name)), s.clients[id];
            if 0 < |name| <= cfg.namelen then Recorded(s, t, id, c.(realname := name), [RealName(c.nick, name)])
            else Recorded(s, t, id, c, [Numeric("FAIL")])
  {
    var req := R.SetName(name);
    assert Dispatch(cfg, s, id, req) == SetName(cfg, s, id, name);
    hide Dispatch, Core, Connections.ClientsOk, After, Shares;
    OwnRecord(cfg, s, id, req);
  }

  /** CAP REQ: what the diff enables is enabled, what it disables is not, everything else as before. */
  lemma CapReqDecides(cfg: Config, s: State, id: Id, diff: Caps.Diff)
    requires Ready(cfg, s, id)
    ensures var t, c := After(cfg, s, id, R.CapReq(diff)), s.clients[id];
            && id in t.clients && Recorded(s, t, id, c.(caps := t.clients[id].caps), [CapAck(diff)])
            && forall cap :: cap in t.clients[id].caps <==> if cap in diff then diff[cap] else cap in c.caps
  {
    var req := R.CapReq(diff);
    assert Dispatch(cfg, s, id, req) == CapReq(s, id, diff);
    hide Dispatch, Core, Connections.ClientsOk, After;
    OwnRecord(cfg, s, id, req);
  }

  /** One letter of MODE on oneself: i makes invisible or visible again, -o gives up being an IRC operator. */
  lemma ModeUserDecides(cfg: Config, s: State, id: Id, user: string, on: bool, letter: char)
    requires Ready(cfg, s, id) && letter != '+' && letter != '-'
    ensures var modes := [if on then '+' else '-', letter];
            var t, c := After(cfg, s, id, R.ModeUser(user, modes)), s.clients[id];
            if !SameName(c.nick, user) then Recorded(s, t, id, c, [Numeric("502")])
            else if letter == 'i' then
              Recorded(s, t, id, c.(invisible := on), if c.invisible == on then [] else [UserModeChanged(c.nick, modes)])
            else if letter == 'o' && !on then
              Recorded(s, t, id, c.(operator := false), if c.operator then [UserModeChanged(c.nick, modes)] else [])
            else Recorded(s, t, id, c, if letter == 'o' || letter == 'a' then [] else [Numeric("501")])
  {
    hide ModeUser, Core, Connections.ClientsOk, After, SameName;
    var req := R.ModeUser(user, [if on then '+' else '-', letter]);
    OwnModes(s, id, user, on, letter);
    assert Dispatch(cfg, s, id, req) == ModeUser(s, id, user, [if on then '+' else '-', letter]);
    hide Dispatch;
    OwnRecord(cfg, s, id, req);
  }

  lemma OneUserLetter(on: bool, letter: char)
    requires letter != '+' && letter != '-'
    ensures M.UserQuery([if on then '+' else '-', letter]) == [M.UserInterpret(on, letter)]
  {
    var modes := [if on then '+' else '-', letter];
    assert modes[1..] == [letter] && [letter][1..] == "";
    assert M.Letters([letter], on) == [(on, letter)];
    assert M.Letters(modes, true) == [(on, letter)];
  }

  lemma OneUserMode(c: Client, item: M.UserItem)
    ensures item.UserGood? ==>
              var (c', did) := ApplyUser(c, item.change);
              UserModes(c, [], "", [item])
                == (c', [], if did then [if item.change.Value() then '+' else '-', item.change.Symbol()] else "")
    ensures item.UserUnknown? ==> UserModes(c, [], "", [item]) == (c, [Numeric("501")], "")
    ensures item.UserUnchangeable? ==> UserModes(c, [], "", [item]) == (c, [], "")
  {
    assert [item][1..] == [] && [] + [Numeric("501")] == [Numeric("501")];
    if item.UserGood? {
      var letters := [if item.change.Value() then '+' else '-', item.change.Symbol()];
      assert "" + letters == letters;
    }
  }

  lemma OwnModes(s: State, id: Id, user: string, on: bool, letter: char)
    requires id in s.clients && letter != '+' && letter != '-'
    ensures var modes, c, item := [if on then '+' else '-', letter], s.clients[id], M.UserInterpret(on, letter);
            ModeUser(s, id, user, modes) ==
              if !SameName(c.nick, user) then Out(s, [Numeric("502")], false)
              else if letter == 'i' then
                Out(s.(clients := s.clients[id := c.(invisible := on)]),
                    if c.invisible == on then [] else [UserModeChanged(c.nick, modes)], true)
              else if letter == 'o' && !on then
                Out(s.(clients := s.clients[id := c.(operator := false)]),
                    if c.operator then [UserModeChanged(c.nick, modes)] else [], true)
              else Out(s, if letter == 'o' || letter == 'a' then [] else [Numeric("501")], true)
  {
    var c := s.clients[id];
    SameNameIsSameKey(c.nick, user);
    OneUserLetter(on, letter);
    OneUserMode(c, M.UserInterpret(on, letter));
    hide M.UserQuery, UserModes, SameName;
    assert s.clients[id := c] == s.clients;
    var said := UserModeChanged(c.nick, [if on then '+' else '-', letter]);
    assert [] + [said] == [said] && [Numeric("501")] + [] == [Numeric("501")];
  }

  // ---- registering

  /** Another client has the nickname, up to case. */
  predicate Taken(s: State, id: Id, nick: string)
  {
    exists o :: o in s.clients && o != id && SameName(s.clients[o].nick, nick)
  }

  lemma TakenIsIndexed(s: State, id: Id, nick: string)
    requires Core(s) && IsNickname(nick)
    ensures Taken(s, id, nick) <==> Canonical(nick) in s.nicks && s.nicks[Canonical(nick)].id != id
  {
    NicknameIsNotPlaceholder(nick);
    forall o | o in s.clients ensures SameName(s.clients[o].nick, nick) <==> Canonical(s.clients[o].nick) == Canonical(nick) {
      SameNameIsSameKey(s.clients[o].nick, nick);
    }
    hide SameName, IsNickname;
    if Canonical(nick) in s.nicks {
      var o := s.nicks[Canonical(nick)].id;
      assert o in s.clients && Canonical(s.clients[o].nick) == Canonical(nick);
    }
  }

  /** NICK by any client, registered or not: it gets the nickname unless another client has it. */
  lemma NickDecides(cfg: Config, s: State, id: Id, nick: string)
    requires Core(s) && Connections.ClientsOk(cfg, s) && id in s.clients && IsNickname(nick)
    ensures var t, c := After(cfg, s, id, R.Nick(nick)), s.clients[id];
            && id in t.clients && t.clients[id].nick == (if Taken(s, id, nick) then c.nick else nick)
            && t.clients[id].log == (if Taken(s, id, nick) then c.log else c.log + [R.Nick(nick)])
            && (Taken(s, id, nick) ==> t.clients[id].queue == c.queue + [Numeric("433")])
            && (t.clients[id].state == R.Registered <==>
                  c.state == R.Registered || (!Taken(s, id, nick) && Gate.Complete(c.log + [R.Nick(nick)])))
            && t.clients[id].hasPass == c.hasPass
  {
    var req := R.Nick(nick);
    TakenIsIndexed(s, id, nick);
    NickIs(s, id, nick);
    assert Dispatch(cfg, s, id, req) == Nick(s, id, nick);
    hide Dispatch, Core, Connections.ClientsOk, Handle, IsNickname, Taken, Gate.Complete, Nick;
    Gate.ServedIsRecorded(cfg, s, id, req);
  }

  lemma NickIs(s: State, id: Id, nick: string)
    requires id in s.clients
    ensures var out, c := Nick(s, id, nick), s.clients[id];
            && id in out.s.clients && out.s.clients[id].queue == c.queue && out.s.clients[id].hasPass == c.hasPass
            && if Canonical(nick) in s.nicks && s.nicks[Canonical(nick)].id != id then out == Out(s, [Numeric("433")], false)
               else out.ok && out.s.clients[id].nick == nick
  {
    hide Shares;
  }

  /** PASS by a client that is not registered: it has the password once it gave the right one. */
  lemma PassDecides(cfg: Config, s: State, id: Id, password: string)
    requires Connections.ClientsOk(cfg, s) && id in s.clients && s.clients[id].state != R.Registered
    ensures var t, c := After(cfg, s, id, R.Pass(password)), s.clients[id];
            && id in t.clients && (t.clients[id].hasPass <==> c.hasPass || password == cfg.password)
            && t.clients[id].log == c.log + [R.Pass(password)] && t.clients[id].nick == c.nick
            && t.nicks == s.nicks && t.clients.Keys == s.clients.Keys
            && (forall o :: o in s.clients ==> t.clients[o].nick == s.clients[o].nick)
            && (t.clients[id].state == R.Registered <==> Gate.Complete(c.log + [R.Pass(password)]))
  {
    var req := R.Pass(password);
    assert Dispatch(cfg, s, id, req) == Pass(cfg, s, id, password);
    PassIs(cfg, s, id, password);
    hide Dispatch, Connections.ClientsOk, Handle, Gate.Complete, Pass;
    Gate.ServedIsRecorded(cfg, s, id, req);
  }

  lemma PassIs(cfg: Config, s: State, id: Id, password: string)
    requires id in s.clients
    ensures var out, c := Pass(cfg, s, id, password), s.clients[id];
            && out.ok && out.s.nicks == s.nicks && out.s.clients.Keys == s.clients.Keys
            && (forall o :: o in s.clients ==> out.s.clients[o] == s.clients[o].(hasPass := out.s.clients[o].hasPass))
            && (out.s.clients[id].hasPass <==> c.hasPass || password == cfg.password)
  {
  }

  /** USER, where it may be asked: its names are kept, cut; without the password asked for, the client is removed. */
  lemma UserDecides(cfg: Config, s: State, id: Id, username: string, realname: string)
    requires Connections.ClientsOk(cfg, s) && id in s.clients && s.clients[id].state != R.Registered
    requires !R.UserKept(s.clients[id].log)
    ensures var t, c := After(cfg, s, id, R.User(username, realname)), s.clients[id];
            if cfg.password == "" || c.hasPass then
              && id in t.clients && t.clients[id].log == c.log + [R.User(username, realname)] && t.clients[id].nick == c.nick
              && t.clients[id].user == UpTo(username, cfg.userlen) && t.clients[id].realname == UpTo(realname, cfg.namelen)
              && (t.clients[id].state == R.Registered <==> Gate.Complete(c.log + [R.User(username, realname)]))
            else t == RemoveClient(s, id) && id !in t.clients
  {
    var req := R.User(username, realname);
    assert Dispatch(cfg, s, id, req) == User(cfg, s, id, username, realname);
    RemoveFacts(s, id);
    hide Dispatch, Connections.ClientsOk, Gate.Complete, RemoveClient, R.UserKept;
    Gate.ServedIff(cfg, s, id, req);
    if cfg.password == "" || s.clients[id].hasPass {
      hide Handle;
      Gate.ServedIsRecorded(cfg, s, id, req);
    }
  }

  // ---- whole registrations

  /** PASS, NICK and USER, in this order and without a negotiation, are complete; no two of them are. */
  lemma ThreeAreComplete(password: string, nick: string, username: string, realname: string)
    ensures var p, n, u := R.Pass(password), R.Nick(nick), R.User(username, realname);
            && !Gate.Complete([p]) && !Gate.Complete([p, n]) && !R.UserKept([p, n]) && Gate.Complete([p, n, u])
  {
    var p, n, u := R.Pass(password), R.Nick(nick), R.User(username, realname);
    var none: R.Log := [];
    assert R.Init([p]) == none && R.Init([p, n]) == [p] && R.Init([p, n, u]) == [p, n];
    assert R.Memory(none) == R.Given(false, false, false);
    R.MemoryIsLog([p]);
    R.MemoryIsLog([p, n]);
    R.MemoryIsLog([p, n, u]);
    hide R.NickKept, R.UserKept, R.CapPending;
  }

  /**
   * A new connection that gives the right password, a nickname that nobody has, and USER is registered
   * under that nickname, whatever state the server is in.
   */
  lemma NewcomerRegisters(cfg: Config, s: State, id: Id, nick: string, username: string, realname: string)
    requires Core(s) && Connections.ClientsOk(cfg, s) && id in s.clients && s.clients[id].log == []
    requires IsNickname(nick) && !Taken(s, id, nick)
    ensures var t := After(cfg, s, id, R.Pass(cfg.password));
            var u := After(cfg, t, id, R.Nick(nick));
            var v := After(cfg, u, id, R.User(username, realname));
            Live(v, id) && v.clients[id].nick == nick && v.clients[id].user == UpTo(username, cfg.userlen)
  {
    hide Core, Connections.ClientsOk, After, Gate.Complete, R.UserKept, IsNickname, Taken;
    var p, n, u := R.Pass(cfg.password), R.Nick(nick), R.User(username, realname);
    assert [] + [p] == [p] && [p] + [n] == [p, n] && [p, n] + [u] == [p, n, u];
    FreshState(cfg, s, id);
    ThreeAreComplete(cfg.password, nick, username, realname);
    PassDecides(cfg, s, id, cfg.password);
    AfterKeeps(cfg, s, id, p);
    var t := After(cfg, s, id, p);
    SameTaken(s, t, id, nick);
    NickDecides(cfg, t, id, nick);
    AfterKeeps(cfg, t, id, n);
    UserDecides(cfg, After(cfg, t, id, n), id, username, realname);
  }

  lemma AfterKeeps(cfg: Config, s: State, id: Id, req: R.Request)
    requires Core(s) && Connections.ClientsOk(cfg, s)
    ensures Core(After(cfg, s, id, req)) && Connections.ClientsOk(cfg, After(cfg, s, id, req))
  {
    hide Core, Connections.ClientsOk, Step;
    Connections.StepCore(cfg, s, Request(id, req));
    Connections.StepClientsOk(cfg, s, Request(id, req));
  }

  lemma SameTaken(s: State, t: State, id: Id, nick: string)
    requires t.clients.Keys == s.clients.Keys && forall o :: o in s.clients ==> t.clients[o].nick == s.clients[o].nick
    ensures Taken(t, id, nick) <==> Taken(s, id, nick)
  {
  }

  lemma FreshState(cfg: Config, s: State, id: Id)
    requires Connections.ClientsOk(cfg, s) && id in s.clients && s.clients[id].log == []
    ensures s.clients[id].state == R.ConnectionEstablished
  {
    assert Connections.ClientOk(cfg, s.clients[id]);
  }

  // ---- PART

  predicate On(s: State, o: Id, k: string)
  {
    k in s.channels && o in s.channels[k].members
  }

  predicate Listed(list: seq<string>, k: string)
  {
    exists n :: n in list && Canonical(n) == k
  }

  lemma {:induction false} PartRemoves(s: State, rb: seq<Event>, ok: bool, id: Id, list: seq<string>, o: Id, k: string)
    ensures On(PartAll(s, rb, ok, id, list).s, o, k) <==> On(s, o, k) && !(o == id && Listed(list, k))
    decreases list
  {
    if list != [] {
      var (s1, rb1, ok1) := PartOne(s, rb, id, list[0]);
      assert Listed(list, k) <==> Canonical(list[0]) == k || Listed(list[1..], k) by { assert list == [list[0]] + list[1..]; }
      if Canonical(list[0]) in s.channels { LeaveOn(s, id, Canonical(list[0]), o, k); }
      hide Leave, Listed;
      assert On(s1, o, k) <==> On(s, o, k) && !(o == id && Canonical(list[0]) == k);
      hide PartOne, On;
      PartRemoves(s1, rb1, ok && ok1, id, list[1..], o, k);
    }
  }

  lemma LeaveOn(s: State, id: Id, j: string, o: Id, k: string)
    requires j in s.channels
    ensures On(Leave(s, id, j), o, k) <==> On(s, o, k) && !(o == id && j == k)
  {
    var left := s.channels[j].RemoveMember(id).members;
    assert o in left <==> o in s.channels[j].members && o != id;
    hide Push;
  }

  /** PART takes its issuer, and nobody else, off the channels it names, and off no other. */
  lemma PartDecides(cfg: Config, s: State, id: Id, list: seq<string>, o: Id, k: string)
    requires Ready(cfg, s, id)
    ensures On(After(cfg, s, id, R.Part(list)), o, k) <==> On(s, o, k) && !(o == id && Listed(list, k))
  {
    PartRemoves(s, [], true, id, list, o, k);
    PartKeepsIssuer(cfg, s, id, list);
    hide Dispatch, Core, Connections.ClientsOk, Handle, Listed;
    Gate.LiveIsRecorded(cfg, s, id, R.Part(list));
  }

  lemma PartKeepsIssuer(cfg: Config, s: State, id: Id, list: seq<string>)
    requires id in s.clients
    ensures Dispatch(cfg, s, id, R.Part(list)) == PartAll(s, [], true, id, list)
    ensures id in PartAll(s, [], true, id, list).s.clients
  {
    Connections.PartTells(s, [], true, id, list);
    hide PartAll;
  }
}
