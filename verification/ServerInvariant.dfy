/** What every step of the server keeps: the nick index, the channels' members, the connections. */
module ServerInvariant {
  import opened Text
  import opened Names
  import opened Server
  import M = Modes
  import C = Channels
  import R = Registration

  // ---- the invariant

  /** The nick index is exactly the inverse of the clients' nicknames, spelling included. */
  predicate NicksExact(s: State)
  {
    && (forall k :: k in s.nicks ==>
          && s.nicks[k].id in s.clients
          && s.clients[s.nicks[k].id].nick == s.nicks[k].spelling != NO_NICK
          && k == Canonical(s.nicks[k].spelling))
    && (forall i :: i in s.clients && s.clients[i].nick != NO_NICK ==>
          && Canonical(s.clients[i].nick) != Canonical(NO_NICK)
          && Canonical(s.clients[i].nick) in s.nicks
          && s.nicks[Canonical(s.clients[i].nick)] == NickEntry(s.clients[i].nick, i))
  }

  /** A registered client has chosen a nickname. */
  predicate RegisteredNamed(s: State)
  {
    forall i :: i in s.clients && s.clients[i].state == R.Registered ==> s.clients[i].nick != NO_NICK
  }

  predicate Live(s: State, m: Id)
  {
    m in s.clients && s.clients[m].state == R.Registered
  }

  /** Members are live registered clients, never invited too, and never founder or protected. */
  predicate ChannelOk(s: State, ch: C.Channel)
  {
    && (forall m :: m in ch.members ==> Live(s, m))
    && ch.members.Keys !! ch.invites
    && (forall m :: m in ch.members ==> !ch.members[m].founder && !ch.members[m].protected)
  }

  predicate ChannelsOk(s: State)
  {
    forall k :: k in s.channels ==> ChannelOk(s, s.channels[k])
  }

  predicate Core(s: State)
  {
    NicksExact(s) && RegisteredNamed(s) && ChannelsOk(s)
  }

  /** Two registered clients never share a nickname, even up to case. */
  lemma DistinctNicks(s: State, i: Id, j: Id)
    requires Core(s) && Live(s, i) && Live(s, j) && Canonical(s.clients[i].nick) == Canonical(s.clients[j].nick)
    ensures i == j
  {
  }

  // ---- steps that leave names and states alone

  /** The clients differ in nothing the invariant looks at. */
  predicate SameFacts(a: map<Id, Client>, b: map<Id, Client>)
  {
    a.Keys == b.Keys && forall i :: i in a ==> a[i].nick == b[i].nick && a[i].state == b[i].state
  }

  lemma FrameCore(s: State, t: State)
    requires Core(s) && t.nicks == s.nicks && t.channels == s.channels && SameFacts(s.clients, t.clients)
    ensures Core(t)
  {
  }

  lemma ChannelCore(s: State, t: State, k: string)
    requires Core(s) && t.nicks == s.nicks && SameFacts(s.clients, t.clients)
    requires k in t.channels && t.channels == s.channels[k := t.channels[k]] && ChannelOk(s, t.channels[k])
    ensures Core(t)
  {
    forall j | j in t.channels ensures ChannelOk(t, t.channels[j]) {
      assert j != k ==> ChannelOk(s, s.channels[j]);
    }
  }

  /** Dropping channels keeps the invariant. */
  lemma DropCore(s: State, t: State)
    requires Core(s) && t.nicks == s.nicks && t.clients == s.clients
    requires forall k :: k in t.channels ==> k in s.channels && t.channels[k] == s.channels[k]
    ensures Core(t)
  {
  }

  lemma ClientCore(s: State, id: Id, c: Client)
    requires Core(s) && id in s.clients && c.nick == s.clients[id].nick && c.state == s.clients[id].state
    ensures Core(s.(clients := s.clients[id := c]))
  {
    FrameCore(s, s.(clients := s.clients[id := c]));
  }

  // ---- removing a client

  lemma RemoveCore(s: State, id: Id)
    requires Core(s)
    ensures Core(RemoveClient(s, id))
  {
    if id in s.clients {
      RemoveFacts(s, id);
      RemoveChannels(s, id);
      hide RemoveClient, WithoutMember, NicksExact, ChannelOk;
      RemoveNicks(s, RemoveClient(s, id), id);
    }
  }

  lemma RemoveFacts(s: State, id: Id)
    requires id in s.clients
    ensures var t := RemoveClient(s, id);
            && t.nicks == s.nicks - {Canonical(s.clients[id].nick)} && t.clients.Keys == s.clients.Keys - {id}
            && (forall i :: i in t.clients ==> t.clients[i].nick == s.clients[i].nick && t.clients[i].state == s.clients[i].state)
  {
  }

  /** The removed client is a member of no channel any more; a registered one takes the empty channels with it. */
  lemma RemoveMembers(s: State, id: Id, k: string)
    requires ChannelsOk(s) && id in s.clients
    ensures var t := RemoveClient(s, id);
            k in t.channels ==> && k in s.channels && t.channels[k].members == s.channels[k].members - {id}
                                && t.channels[k].invites == s.channels[k].invites
    ensures if Live(s, id) then k in RemoveClient(s, id).channels <==> k in s.channels && s.channels[k].members - {id} != map[]
            else k in RemoveClient(s, id).channels <==> k in s.channels
  {
  }

  lemma RemoveChannels(s: State, id: Id)
    requires ChannelsOk(s) && id in s.clients
    ensures ChannelsOk(RemoveClient(s, id))
  {
    RemoveFacts(s, id);
    hide RemoveClient, WithoutMember;
    var t := RemoveClient(s, id);
    forall k | k in t.channels ensures ChannelOk(t, t.channels[k]) {
      RemoveMembers(s, id, k);
      assert ChannelOk(s, s.channels[k]);
    }
  }

  lemma RemoveNicks(s: State, t: State, id: Id)
    requires NicksExact(s) && id in s.clients && t.clients.Keys == s.clients.Keys - {id}
    requires t.nicks == s.nicks - {Canonical(s.clients[id].nick)}
    requires forall i :: i in t.clients ==> t.clients[i].nick == s.clients[i].nick
    ensures NicksExact(t)
  {
    forall k | k in t.nicks ensures t.nicks[k].id in t.clients {
      assert s.nicks[k].id in s.clients;
    }
    forall i | i in t.clients && t.clients[i].nick != NO_NICK
      ensures Canonical(t.clients[i].nick) in t.nicks
    {
      assert s.nicks[Canonical(s.clients[i].nick)].id == i;
    }
  }

  // ---- registration requests

  lemma NickCore(s: State, id: Id, nick: string)
    requires Core(s) && id in s.clients && IsNickname(nick)
    ensures Core(Nick(s, id, nick).s)
  {
    NicknameIsNotPlaceholder(nick);
    var c, key := s.clients[id], Canonical(nick);
    if !(key in s.nicks && (s.nicks[key].id != id || c.nick == nick)) {
      NamedCore(s, id, nick);
      hide Core;
      var named := s.(nicks := (s.nicks - {Canonical(c.nick)})[key := NickEntry(nick, id)],
                      clients := s.clients[id := c.(nick := nick)]);
      FrameCore(named, Notify(named, id, Renamed(c.nick, nick), None));
    }
  }

  lemma NamedCore(s: State, id: Id, nick: string)
    requires Core(s) && id in s.clients && nick != NO_NICK && Canonical(nick) != Canonical(NO_NICK)
    requires Canonical(nick) in s.nicks ==> s.nicks[Canonical(nick)].id == id
    ensures Core(s.(nicks := (s.nicks - {Canonical(s.clients[id].nick)})[Canonical(nick) := NickEntry(nick, id)],
                    clients := s.clients[id := s.clients[id].(nick := nick)]))
  {
    var t := s.(nicks := (s.nicks - {Canonical(s.clients[id].nick)})[Canonical(nick) := NickEntry(nick, id)],
                clients := s.clients[id := s.clients[id].(nick := nick)]);
    RenameNicks(s, t, id, nick);
    forall k | k in t.channels ensures ChannelOk(t, t.channels[k]) {
      assert ChannelOk(s, s.channels[k]);
    }
  }

  lemma RenameNicks(s: State, t: State, id: Id, nick: string)
    requires NicksExact(s) && id in s.clients && nick != NO_NICK && Canonical(nick) != Canonical(NO_NICK)
    requires Canonical(nick) in s.nicks ==> s.nicks[Canonical(nick)].id == id
    requires t.clients == s.clients[id := s.clients[id].(nick := nick)]
    requires t.nicks == (s.nicks - {Canonical(s.clients[id].nick)})[Canonical(nick) := NickEntry(nick, id)]
    ensures NicksExact(t)
  {
  }

  // ---- channels

  lemma EnterCore(cfg: Config, s: State, id: Id, k: string)
    requires Core(s) && Live(s, id)
    ensures Core(EnterChannel(cfg, s, id, k))
    ensures k in EnterChannel(cfg, s, id, k).channels
    ensures EnterChannel(cfg, s, id, k).channels == s.channels[k := ChannelFor(cfg, s, k).AddMember(id)]
    ensures SameFacts(s.clients, EnterChannel(cfg, s, id, k).clients)
  {
    hide Core, NicksExact, RegisteredNamed, ChannelsOk;
    EnterFacts(cfg, s, id, k);
    EnteredOk(cfg, s, id, k);
    hide EnterChannel;
    ChannelCore(s, EnterChannel(cfg, s, id, k), k);
  }

  lemma EnterFacts(cfg: Config, s: State, id: Id, k: string)
    requires id in s.clients
    ensures var t := EnterChannel(cfg, s, id, k);
            && k in t.channels && t.channels == s.channels[k := ChannelFor(cfg, s, k).AddMember(id)]
            && t.nicks == s.nicks && SameFacts(s.clients, t.clients)
  {
  }

  lemma EnteredOk(cfg: Config, s: State, id: Id, k: string)
    requires Core(s) && Live(s, id)
    ensures ChannelOk(s, ChannelFor(cfg, s, k).AddMember(id))
  {
    C.NewChannelIsEmpty(cfg.defaultModes);
    assert k in s.channels ==> ChannelOk(s, s.channels[k]);
  }

  lemma {:induction false} JoinCore(cfg: Config, s: State, rb: seq<Event>, id: Id, list: seq<(string, Option<string>)>)
    requires Core(s) && Live(s, id)
    ensures Core(JoinAll(cfg, s, rb, id, list).0)
    decreases list
  {
    if list != [] {
      hide EnterChannel;
      EnterCore(cfg, s, id, Canonical(list[0].0));
      var (s1, rb1) := JoinOne(cfg, s, rb, id, list[0].0, list[0].1);
      JoinCore(cfg, s1, rb1, id, list[1..]);
    }
  }

  lemma LeaveCore(s: State, id: Id, k: string)
    requires Core(s) && k in s.channels && id in s.channels[k].members
    ensures Core(Leave(s, id, k))
  {
    var t, ch := Leave(s, id, k), s.channels[k].RemoveMember(id);
    assert ChannelOk(s, s.channels[k]);
    if ch.members == map[] {
      DropCore(s, t);
    } else {
      assert ChannelOk(s, ch);
      ChannelCore(s, t, k);
    }
  }

  lemma {:induction false} PartCore(s: State, rb: seq<Event>, ok: bool, id: Id, list: seq<string>)
    requires Core(s)
    ensures Core(PartAll(s, rb, ok, id, list).s)
    decreases list
  {
    if list != [] {
      hide Leave;
      var k := Canonical(list[0]);
      if k in s.channels && id in s.channels[k].members { LeaveCore(s, id, k); }
      var (s1, rb1, ok1) := PartOne(s, rb, id, list[0]);
      PartCore(s1, rb1, ok && ok1, id, list[1..]);
    }
  }

  lemma {:induction false} PartEverywhereCore(s: State, rb: seq<Event>, id: Id, order: seq<string>)
    requires Core(s)
    ensures Core(PartEverywhere(s, rb, id, order).s)
    decreases order
  {
    if order != [] {
      hide Leave;
      var k := order[0];
      if k in s.channels && id in s.channels[k].members {
        LeaveCore(s, id, k);
        PartEverywhereCore(Leave(s, id, k), rb + [Parted(NickOf(s, id), k)], id, order[1..]);
      } else {
        PartEverywhereCore(s, rb, id, order[1..]);
      }
    }
  }

  lemma ExpelCore(s: State, id: Id, k: string, t: Id, nick: string)
    requires Core(s) && k in s.channels
    ensures Core(Expel(s, id, k, t, nick))
  {
    assert ChannelOk(s, s.channels[k]);
    assert ChannelOk(s, s.channels[k].RemoveMember(t));
    ChannelCore(s, Expel(s, id, k, t, nick), k);
  }

  lemma {:induction false} KickCore(s: State, rb: seq<Event>, id: Id, k: string, who: seq<string>)
    requires Core(s) && k in s.channels
    ensures Core(KickAll(s, rb, id, k, who).0)
    decreases who
  {
    if who != [] {
      hide Expel;
      var found := FindNick(s, who[0]);
      if found.Some? { ExpelCore(s, id, k, found.value, who[0]); }
      var (s1, rb1) := KickOne(s, rb, id, k, who[0]);
      KickCore(s1, rb1, id, k, who[1..]);
    }
  }

  lemma InviteCore(s: State, id: Id, nick: string, chan: string)
    requires Core(s) && id in s.clients
    ensures Core(Invite(s, id, nick, chan).s)
  {
    var k, t := Canonical(chan), Invite(s, id, nick, chan).s;
    if k in s.channels && t != s {
      assert ChannelOk(s, s.channels[k]);
      assert ChannelOk(s, t.channels[k]);
      ChannelCore(s, t, k);
    }
  }

  /** The same members, founder and protected flags included. */
  predicate SameRanks(a: map<Id, C.MemberModes>, b: map<Id, C.MemberModes>)
  {
    a.Keys == b.Keys && forall m :: m in a ==> a[m].founder == b[m].founder && a[m].protected == b[m].protected
  }

  /** MODE never makes a founder or a protected member. */
  lemma {:induction false} RanksKept(ch: C.Channel, items: seq<M.Item>, keylen: nat, nickOf: map<Id, string>)
    requires ch.members.Keys <= nickOf.Keys
    ensures var final := C.ApplyAll(ch, items, keylen, nickOf).0;
            SameRanks(ch.members, final.members)
    decreases items
  {
    if items != [] && items[0].Good? {
      C.UnappliedKeeps(ch, items[0].change, keylen, nickOf);
      RankKept(ch, items[0].change, keylen, nickOf);
      hide C.Apply;
      RanksKept(C.Apply(ch, items[0].change, keylen, nickOf).0, items[1..], keylen, nickOf);
    } else if items != [] {
      RanksKept(ch, items[1..], keylen, nickOf);
    }
  }

  lemma FlagKeepsRanks(ch: C.Channel, nickOf: map<Id, string>, nick: string, flag: C.Flag, on: bool)
    requires ch.members.Keys <= nickOf.Keys
    ensures SameRanks(ch.members, C.SetFlag(ch, nickOf, nick, flag, on).0.members)
  {
    hide C.MemberNamed, SameRanks;
    var found := C.MemberNamed(ch.members, nickOf, nick);
    if found.Some? {
      OneFlagKeepsRanks(ch.members, found.value, flag, on);
    } else {
      NothingKeepsRanks(ch.members);
    }
  }

  lemma NothingKeepsRanks(members: map<Id, C.MemberModes>)
    ensures SameRanks(members, members)
  {
  }

  lemma OneFlagKeepsRanks(members: map<Id, C.MemberModes>, id: Id, flag: C.Flag, on: bool)
    requires id in members
    ensures SameRanks(members, members[id := members[id].With(flag, on)])
  {
  }

  lemma RankKept(ch: C.Channel, change: M.Change, keylen: nat, nickOf: map<Id, string>)
    requires ch.members.Keys <= nickOf.Keys
    ensures SameRanks(ch.members, C.Apply(ch, change, keylen, nickOf).0.members)
  {
    if change.ChangeOperator? || change.ChangeHalfop? || change.ChangeVoice? {
      hide C.SetFlag, C.SetMask, C.ParseUsize, SameRanks;
      match change
      case ChangeOperator(on, nick) => FlagKeepsRanks(ch, nickOf, nick, C.Operator, on);
      case ChangeHalfop(on, nick) => FlagKeepsRanks(ch, nickOf, nick, C.Halfop, on);
      case ChangeVoice(on, nick) => FlagKeepsRanks(ch, nickOf, nick, C.Voice, on);
    } else {
      OtherChangesKeepMembers(ch, change, keylen, nickOf);
    }
  }

  lemma OtherChangesKeepMembers(ch: C.Channel, change: M.Change, keylen: nat, nickOf: map<Id, string>)
    requires ch.members.Keys <= nickOf.Keys && !change.ChangeOperator? && !change.ChangeHalfop? && !change.ChangeVoice?
    ensures C.Apply(ch, change, keylen, nickOf).0.members == ch.members
  {
    hide C.Apply;
    if change.ChangeBan? || change.ChangeException? || change.ChangeInvitation? {
      C.MaskUnapplied(ch, change, keylen, nickOf);
    } else {
      C.SwitchUnapplied(ch, change, keylen, nickOf);
      C.KeyUnapplied(ch, change, keylen, nickOf);
      C.ValueUnapplied(ch, change, keylen, nickOf);
    }
  }

  lemma ModeCore(cfg: Config, s: State, id: Id, chan: string, modes: string, params: seq<string>)
    requires Core(s) && id in s.clients
    ensures Core(Mode(cfg, s, id, chan, modes, params).s)
  {
    ModeShape(cfg, s, id, chan, modes, params);
    hide Mode, NickMap, M.Query, C.ApplyAll, Core, ChannelOk;
    var k, t := Canonical(chan), Mode(cfg, s, id, chan, modes, params).s;
    if k in s.channels && t != s {
      var ch := s.channels[k];
      ChannelIsOk(s, k);
      RanksKept(ch, M.Query(modes, params), cfg.keylen, NickMap(s, ch));
      FinalOk(s, ch, C.ApplyAll(ch, M.Query(modes, params), cfg.keylen, NickMap(s, ch)).0);
      ChannelCore(s, t, k);
    }
  }

  /** MODE changes one channel, as its items do, and tells its members. */
  lemma ModeShape(cfg: Config, s: State, id: Id, chan: string, modes: string, params: seq<string>)
    requires id in s.clients
    ensures var t, k := Mode(cfg, s, id, chan, modes, params).s, Canonical(chan);
            t == s || (&& k in s.channels && t.nicks == s.nicks && SameFacts(s.clients, t.clients)
                       && t.channels == s.channels[k := C.ApplyAll(s.channels[k], M.Query(modes, params), cfg.keylen,
                                                                   NickMap(s, s.channels[k])).0])
  {
    hide C.CanChange, C.ApplyAll, NickMap, M.Query, M.PrintModes, M.PrintParams, C.AllReplies;
  }

  lemma FinalOk(s: State, ch: C.Channel, final: C.Channel)
    requires ChannelOk(s, ch) && SameRanks(ch.members, final.members) && final.invites == ch.invites
    ensures ChannelOk(s, final)
  {
  }

  lemma ChannelIsOk(s: State, k: string)
    requires Core(s) && k in s.channels
    ensures ChannelOk(s, s.channels[k])
  {
  }

  /** Every handler keeps the invariant, whatever the request. */
  lemma DispatchCore(cfg: Config, s: State, id: Id, req: R.Request)
    requires Core(s) && id in s.clients
    requires req.Nick? ==> IsNickname(req.nick)
    requires req.Join? ==> Live(s, id)
    ensures Core(Dispatch(cfg, s, id, req).s)
  {
    hide Mode, Nick, RemoveClient, Invite, KickAll, JoinAll, PartAll, PartEverywhere, ModeUser, Core;
    match req
    case Nick(nick) => NickCore(s, id, nick);
    case User(_, _) => UserCore(cfg, s, id, req.username, req.realname);
    case Pass(p) => ClientCore(s, id, s.clients[id].(hasPass := true));
    case CapReq(diff) => ClientCore(s, id, CapReq(s, id, diff).s.clients[id]);
    case Quit => RemoveCore(s, id);
    case Join(list) => JoinCore(cfg, s, [], id, list);
    case Part(list) => PartCore(s, [], true, id, list);
    case PartAll(order) => PartEverywhereCore(s, [], id, order);
    case Kick(from, who) => if Canonical(from) in s.channels { KickCore(s, [], id, Canonical(from), who); }
    case Kill(nick) => if FindNick(s, nick).Some? { RemoveCore(s, FindNick(s, nick).value); }
    case Mode(channel, modes, params) => ModeCore(cfg, s, id, channel, modes, params);
    case Invite(nick, channel) => InviteCore(s, id, nick, channel);
    case Oper(_, _) => ClientCore(s, id, s.clients[id].(operator := true));
    case Away(reason) => AwayCore(cfg, s, id, reason);
    case SetName(name) => SetNameCore(cfg, s, id, name);
    case ModeUser(user, modes) => ModeUserCore(s, id, user, modes);
    case _ =>
  }

  /** MODE on a user changes two flags of its record: it may drop the operator flag, never give it. */
  lemma {:induction false} UserModesShape(c: Client, rb: seq<Event>, applied: string, items: seq<M.UserItem>)
    ensures var (c', rb', _) := UserModes(c, rb, applied, items);
            && c' == c.(invisible := c'.invisible, operator := c'.operator)
            && (c'.operator <==> c.operator && M.UserGood(M.DeOperator) !in items)
            && (forall e :: e in rb' ==> e in rb || e.Numeric?)
    decreases items
  {
    if items != [] {
      assert items == [items[0]] + items[1..];
      match items[0]
      case UserGood(change) =>
        var (next, did) := ApplyUser(c, change);
        UserModesShape(next, rb, if did then applied + [if change.Value() then '+' else '-', change.Symbol()] else applied,
                       items[1..]);
      case UserUnknown(_) => UserModesShape(c, rb + [Numeric("501")], applied, items[1..]);
      case UserUnchangeable(_) => UserModesShape(c, rb, applied, items[1..]);
    }
  }

  lemma ModeUserCore(s: State, id: Id, user: string, modes: string)
    requires Core(s) && id in s.clients
    ensures Core(ModeUser(s, id, user, modes).s)
  {
    hide Core, UserModes, M.UserQuery;
    UserModesShape(s.clients[id], [], "", M.UserQuery(modes));
    ClientCore(s, id, UserModes(s.clients[id], [], "", M.UserQuery(modes)).0);
  }

  lemma UserCore(cfg: Config, s: State, id: Id, username: string, realname: string)
    requires Core(s) && id in s.clients
    ensures Core(User(cfg, s, id, username, realname).s)
  {
    hide RemoveClient;
    RemoveCore(s, id);
    FrameCore(s, if User(cfg, s, id, username, realname).ok then User(cfg, s, id, username, realname).s else s);
  }

  lemma AwayCore(cfg: Config, s: State, id: Id, reason: Option<string>)
    requires Core(s) && id in s.clients
    ensures Core(Away(cfg, s, id, reason).s)
  {
    FrameCore(s, Away(cfg, s, id, reason).s);
  }

  lemma SetNameCore(cfg: Config, s: State, id: Id, name: string)
    requires Core(s) && id in s.clients
    ensures Core(SetName(cfg, s, id, name).s)
  {
    FrameCore(s, SetName(cfg, s, id, name).s);
  }
}
