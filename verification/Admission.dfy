/** Who gets into a channel: what JOIN, INVITE and NAMES look at, in terms of masks, keys and limits. */
module Admission {
  import opened Text
  import opened Names
  import opened Glob
  import opened MaskSets
  import opened Server
  import opened ServerInvariant
  import Connections
  import Gate
  import C = Channels
  import R = Registration

  // ---- what a channel asks of a newcomer

  /** Some mask of the set matches the name. */
  predicate Masked(raw: string, name: string)
  {
    exists m :: m in Members(raw) && Matches(m, name)
  }

  predicate Banned(ch: C.Channel, name: string)
  {
    Masked(ch.banMask, name) && !Masked(ch.exceptionMask, name) && !Masked(ch.invexMask, name)
  }

  predicate HasRoom(ch: C.Channel)
  {
    ch.userLimit.Some? ==> |ch.members| < ch.userLimit.value
  }

  predicate LetIn(ch: C.Channel, id: Id, nick: string)
  {
    ch.inviteOnly ==> id in ch.invites || Masked(ch.invexMask, nick)
  }

  /** Neither the nickname nor nick!~user@host is banned. */
  predicate Tolerated(ch: C.Channel, c: Client)
  {
    !Banned(ch, c.nick) && !Banned(ch, c.nick + "!~" + c.user + "@" + c.host)
  }

  predicate MayEnter(ch: C.Channel, id: Id, c: Client, key: Option<string>)
  {
    ch.key == key && HasRoom(ch) && LetIn(ch, id, c.nick) && Tolerated(ch, c)
  }

  /** The numeric of the first thing in the way. */
  function Obstacle(ch: C.Channel, id: Id, c: Client, key: Option<string>): string
  {
    if ch.key != key then "475"
    else if !HasRoom(ch) then "471"
    else if !LetIn(ch, id, c.nick) then "473"
    else "474"
  }

  lemma MaskedIsMatch(raw: string, name: string)
    requires name != ""
    ensures Masked(raw, name) <==> IsMatchRaw(raw, name)
  {
    MatchIsSomeMember(raw, name);
  }

  lemma CheckMeans(ch: C.Channel, id: Id, c: Client, key: Option<string>)
    requires c.nick != "" && id !in ch.members
    ensures CheckJoin(c, ch, id, key) == if MayEnter(ch, id, c, key) then Admitted else Refused(Obstacle(ch, id, c, key))
  {
    forall raw, name | name != "" ensures Masked(raw, name) <==> IsMatchRaw(raw, name) { MaskedIsMatch(raw, name); }
    assert FullName(c) != "";
    hide Masked, IsMatchRaw;
  }

  // ---- JOIN

  /** A channel with one member more: the first one there is its operator; its invitation is used up. */
  function Entered(ch: C.Channel, id: Id): C.Channel
  {
    ch.(members := ch.members[id := C.MemberModes(false, false, ch.members == map[], false, false)],
        invites := ch.invites - {id})
  }

  /** A named client: its nickname is not empty. */
  lemma LiveIsNamed(cfg: Config, s: State, id: Id)
    requires Core(s) && Connections.ClientsOk(cfg, s) && Live(s, id)
    ensures IsNickname(s.clients[id].nick) && s.clients[id].nick != ""
  {
    assert Connections.ClientOk(cfg, s.clients[id]);
  }

  lemma JoinsOne(cfg: Config, s: State, id: Id, chan: string, key: Option<string>)
    requires id in s.clients
    ensures var out := Dispatch(cfg, s, id, R.Join([(chan, key)]));
            (out.s, out.rb) == JoinOne(cfg, s, [], id, chan, key) && out.ok
  {
    hide JoinOne;
    var list := [(chan, key)];
    var (s1, rb1) := JoinOne(cfg, s, [], id, chan, key);
    assert list[1..] == [] && JoinAll(cfg, s, [], id, list) == JoinAll(cfg, s1, rb1, id, []);
  }

  predicate Enters(cfg: Config, s: State, id: Id, k: string, key: Option<string>)
    requires id in s.clients
  {
    k in s.channels ==> MayEnter(s.channels[k], id, s.clients[id], key)
  }

  lemma JoinOneShape(cfg: Config, s: State, id: Id, chan: string, key: Option<string>)
    requires id in s.clients && s.clients[id].nick != ""
    requires Canonical(chan) in s.channels ==> id !in s.channels[Canonical(chan)].members
    ensures var c, k := s.clients[id], Canonical(chan);
            JoinOne(cfg, s, [], id, chan, key) == if Enters(cfg, s, id, k, key) then
              (EnterChannel(cfg, s, id, k), [Joined(c.nick, k)] + SendNames(EnterChannel(cfg, s, id, k), id, k))
            else (s, [Numeric(Obstacle(s.channels[k], id, c, key))])
  {
    var c, k := s.clients[id], Canonical(chan);
    if k in s.channels { CheckMeans(s.channels[k], id, c, key); }
    hide EnterChannel, CheckJoin, MayEnter, Obstacle, SendNames;
    assert [] + [Joined(c.nick, k)] == [Joined(c.nick, k)];
    if !Enters(cfg, s, id, k, key) {
      var e := Numeric(Obstacle(s.channels[k], id, c, key));
      assert [] + [e] == [e];
    }
  }

  /**
   * JOIN by a client that is not on the channel: it is on it afterwards exactly when the channel is new
   * or lets it in; otherwise nothing changes and the numeric is that of the first obstacle.
   */
  lemma JoinDecides(cfg: Config, s: State, id: Id, chan: string, key: Option<string>)
    requires Core(s) && Connections.ClientsOk(cfg, s) && Live(s, id)
    requires Canonical(chan) in s.channels ==> id !in s.channels[Canonical(chan)].members
    ensures var out, k, c := Dispatch(cfg, s, id, R.Join([(chan, key)])), Canonical(chan), s.clients[id];
            && (k in out.s.channels && id in out.s.channels[k].members <==>
                  k !in s.channels || MayEnter(s.channels[k], id, c, key))
            && (k in s.channels && !MayEnter(s.channels[k], id, c, key) ==>
                  out == Out(s, [Numeric(Obstacle(s.channels[k], id, c, key))], true))
  {
    LiveIsNamed(cfg, s, id);
    JoinsOne(cfg, s, id, chan, key);
    JoinOneShape(cfg, s, id, chan, key);
    EnterFacts(cfg, s, id, Canonical(chan));
    hide Dispatch, JoinOne, EnterChannel, Core, Connections.ClientsOk, MayEnter, Obstacle, SendNames;
  }

  /** Who gets in is a member with no rank, the operator if nobody else is there, and is told who is there. */
  lemma JoinEnters(cfg: Config, s: State, id: Id, chan: string, key: Option<string>)
    requires Core(s) && Connections.ClientsOk(cfg, s) && Live(s, id)
    requires Canonical(chan) in s.channels ==>
               var ch := s.channels[Canonical(chan)]; id !in ch.members && MayEnter(ch, id, s.clients[id], key)
    ensures var out, k, c := Dispatch(cfg, s, id, R.Join([(chan, key)])), Canonical(chan), s.clients[id];
            var ch := Entered(if k in s.channels then s.channels[k] else C.NewChannel(cfg.defaultModes), id);
            && out.s.channels == s.channels[k := ch]
            && out.rb == [Joined(c.nick, k), NamesList(k, NickSet(out.s, ch)), Numeric("366")]
  {
    LiveIsNamed(cfg, s, id);
    JoinsOne(cfg, s, id, chan, key);
    JoinOneShape(cfg, s, id, chan, key);
    hide Dispatch, JoinOne, Core, Connections.ClientsOk, EnterChannel, SendNames, NickSet, MayEnter;
    EntersAs(cfg, s, id, Canonical(chan));
  }

  lemma EntersAs(cfg: Config, s: State, id: Id, k: string)
    requires id in s.clients
    ensures var t, ch := EnterChannel(cfg, s, id, k), Entered(ChannelFor(cfg, s, k), id);
            && t.channels == s.channels[k := ch]
            && [Joined(s.clients[id].nick, k)] + SendNames(t, id, k)
               == [Joined(s.clients[id].nick, k), NamesList(k, NickSet(t, ch)), Numeric("366")]
  {
    EnterFacts(cfg, s, id, k);
    hide EnterChannel, SendNames, NickSet;
    NamesOfMember(EnterChannel(cfg, s, id, k), id, k);
  }

  lemma NamesOfMember(s: State, id: Id, k: string)
    requires k in s.channels && id in s.channels[k].members
    ensures SendNames(s, id, k) == [NamesList(k, NickSet(s, s.channels[k])), Numeric("366")]
  {
  }

  /** What one member of a channel hears when somebody enters it. */
  function HearsJoin(s: State, id: Id, k: string, o: Id): seq<Event>
    requires id in s.clients && o in s.clients
  {
    var c := s.clients[id];
    if k in s.channels && o in s.channels[k].members then
      [Joined(c.nick, k)] + if c.away.Some? && "away-notify" in s.clients[o].caps then [AwayNotice(c.nick, c.away)] else []
    else []
  }

  /** The members there were, and those of them that asked for away messages. */
  function Present(s: State, k: string): set<Id>
  {
    if k in s.channels then s.channels[k].members.Keys else {}
  }

  lemma EnterPushes(cfg: Config, s: State, id: Id, k: string)
    requires id in s.clients
    ensures var c, others := s.clients[id], Present(s, k) - {id};
            var aware := set m | m in others && m in s.clients && "away-notify" in s.clients[m].caps;
            var told := Push(s.clients, others, Joined(c.nick, k));
            EnterChannel(cfg, s, id, k).clients
              == if c.away.Some? then Push(told, aware, AwayNotice(c.nick, c.away)) else told
  {
    C.NewChannelIsEmpty(cfg.defaultModes);
    assert ChannelFor(cfg, s, k).AddMember(id).members.Keys - {id} == Present(s, k) - {id};
    hide Push;
  }

  /** Entering is told once to each member there was, with the away message of who enters if that was asked for. */
  lemma EnterIsTold(cfg: Config, s: State, id: Id, k: string, o: Id)
    requires id in s.clients && o in s.clients && o != id
    ensures EnterChannel(cfg, s, id, k).clients[o].queue == s.clients[o].queue + HearsJoin(s, id, k, o)
  {
    hide Push, SameFaces, EnterChannel;
    var c, others := s.clients[id], Present(s, k) - {id};
    var aware := set m | m in others && m in s.clients && "away-notify" in s.clients[m].caps;
    var joined, away := Joined(c.nick, k), AwayNotice(c.nick, c.away);
    EnterPushes(cfg, s, id, k);
    PushedTwice(s.clients, others, joined, aware, away, o);
    PushedTwice(s.clients, others, joined, {}, away, o);
    SharedQueues(s.clients, others, joined, away, o);
    assert [joined] + [] == [joined];
  }

  lemma PushedTwice(clients: map<Id, Client>, a: set<Id>, first: Event, b: set<Id>, second: Event, o: Id)
    requires o in clients
    ensures var twice := Push(Push(clients, a, first), b, second);
            o in twice && twice[o].queue == clients[o].queue
                                            + ((if o in a then [first] else []) + (if o in b then [second] else []))
  {
    var q := clients[o].queue;
    assert q + [first] + [second] == q + ([first] + [second]);
  }

  lemma SharedQueues(clients: map<Id, Client>, a: set<Id>, first: Event, second: Event, o: Id)
    requires o in clients
    ensures Push(Push(clients, a, first), {}, second)[o].queue == Push(clients, a, first)[o].queue
  {
  }

  /** JOIN is heard by the members of a channel that lets the client in, and by nobody else. */
  lemma JoinIsTold(cfg: Config, s: State, id: Id, chan: string, key: Option<string>, o: Id)
    requires Core(s) && Connections.ClientsOk(cfg, s) && Live(s, id) && o in s.clients && o != id
    requires Canonical(chan) in s.channels ==> id !in s.channels[Canonical(chan)].members
    ensures var t, k := Step(cfg, s, Request(id, R.Join([(chan, key)]))), Canonical(chan);
            && o in t.clients
            && t.clients[o].queue == s.clients[o].queue + if Enters(cfg, s, id, k, key) then HearsJoin(s, id, k, o) else []
  {
    hide Core, Connections.ClientsOk, Dispatch, Step, JoinOne, EnterChannel, SendNames, Enters, HearsJoin, Obstacle;
    LiveIsNamed(cfg, s, id);
    JoinsOne(cfg, s, id, chan, key);
    JoinOneShape(cfg, s, id, chan, key);
    EnterIsTold(cfg, s, id, Canonical(chan), o);
    Gate.LiveIsRecorded(cfg, s, id, R.Join([(chan, key)]));
    assert s.clients[o].queue + [] == s.clients[o].queue;
  }

  /** What a whole JOIN by a registered client leaves: its effect on the channels, and its replies on the queue. */
  lemma JoinStep(cfg: Config, s: State, id: Id, chan: string, key: Option<string>)
    requires Core(s) && Connections.ClientsOk(cfg, s) && Live(s, id)
    ensures var req := R.Join([(chan, key)]);
            var t, out := Step(cfg, s, Request(id, req)), Dispatch(cfg, s, id, req);
            && id in out.s.clients && id in t.clients && t.channels == out.s.channels
            && t.clients[id].queue == out.s.clients[id].queue + out.rb
  {
    var req := R.Join([(chan, key)]);
    JoinsOne(cfg, s, id, chan, key);
    hide Core, Connections.ClientsOk, Dispatch, Step, JoinOne;
    Gate.LiveIsRecorded(cfg, s, id, req);
  }

  /** The client is on the channel after asking to join it. */
  ghost predicate Joins(cfg: Config, s: State, id: Id, chan: string, key: Option<string>)
  {
    var t := Step(cfg, s, Request(id, R.Join([(chan, key)])));
    Canonical(chan) in t.channels && id in t.channels[Canonical(chan)].members
  }

  /** A registered client gets onto a channel it is not on exactly when it may; else it is told why not. */
  lemma JoinsIff(cfg: Config, s: State, id: Id, chan: string, key: Option<string>)
    requires Core(s) && Connections.ClientsOk(cfg, s) && Live(s, id)
    requires Canonical(chan) in s.channels ==> id !in s.channels[Canonical(chan)].members
    ensures Joins(cfg, s, id, chan, key) <==> Enters(cfg, s, id, Canonical(chan), key)
    ensures var t, k := Step(cfg, s, Request(id, R.Join([(chan, key)]))), Canonical(chan);
            k in s.channels && !MayEnter(s.channels[k], id, s.clients[id], key) ==>
              && t.channels == s.channels && id in t.clients
              && t.clients[id].queue == s.clients[id].queue + [Numeric(Obstacle(s.channels[k], id, s.clients[id], key))]
  {
    JoinStep(cfg, s, id, chan, key);
    JoinDecides(cfg, s, id, chan, key);
    hide Core, Connections.ClientsOk, Dispatch, Step, MayEnter, Obstacle;
  }

  /** JOIN on a channel the client is on does nothing. */
  lemma JoinAgain(cfg: Config, s: State, id: Id, chan: string, key: Option<string>)
    requires id in s.clients && Canonical(chan) in s.channels && id in s.channels[Canonical(chan)].members
    ensures Dispatch(cfg, s, id, R.Join([(chan, key)])) == Out(s, [], true)
  {
    JoinsOne(cfg, s, id, chan, key);
    hide Dispatch;
  }

  /** The channels of a JOIN are joined in turn: a longer list is two requests one after the other. */
  lemma {:induction false} JoinInTurn(cfg: Config, s: State, rb: seq<Event>, id: Id, a: seq<(string, Option<string>)>,
                                      b: seq<(string, Option<string>)>)
    requires id in s.clients
    ensures var (s1, rb1) := JoinAll(cfg, s, rb, id, a);
            id in s1.clients && JoinAll(cfg, s, rb, id, a + b) == JoinAll(cfg, s1, rb1, id, b)
    decreases a
  {
    hide JoinOne;
    if a == [] {
      assert [] + b == b;
    } else {
      var (s1, rb1) := JoinOne(cfg, s, rb, id, a[0].0, a[0].1);
      assert (a + b)[1..] == a[1..] + b && (a + b)[0] == a[0];
      JoinInTurn(cfg, s1, rb1, id, a[1..], b);
    }
  }

  // ---- NAMES

  /** NAMES changes nothing; it lists the nicknames of all members unless the channel is secret to its issuer. */
  lemma NamesStep(cfg: Config, s: State, id: Id, chan: string)
    requires Core(s) && Connections.ClientsOk(cfg, s) && Live(s, id)
    ensures var t, k := Step(cfg, s, Request(id, R.Names([chan]))), Canonical(chan);
            && t.channels == s.channels && id in t.clients
            && t.clients[id].queue == s.clients[id].queue +
                 if k !in s.channels || (s.channels[k].secret && id !in s.channels[k].members) then []
                 else (if s.channels[k].members == map[] then [] else [NamesList(k, NickSet(s, s.channels[k]))])
                      + [Numeric("366")]
  {
    NamesOne(s, id, chan);
    hide Core, Connections.ClientsOk, Step, NickSet, NamesAll;
    assert Dispatch(cfg, s, id, R.Names([chan])) == Out(s, NamesAll(s, [], id, [chan]), true);
    hide Dispatch;
    Gate.LiveIsRecorded(cfg, s, id, R.Names([chan]));
  }

  lemma NamesOne(s: State, id: Id, chan: string)
    ensures NamesAll(s, [], id, [chan]) == SendNames(s, id, Canonical(chan))
  {
    hide SendNames;
    assert [chan][1..] == [] && [] + SendNames(s, id, Canonical(chan)) == SendNames(s, id, Canonical(chan));
    assert NamesAll(s, SendNames(s, id, Canonical(chan)), id, []) == SendNames(s, id, Canonical(chan));
  }

  // ---- INVITE

  /** The registered client with a nickname, up to case. */
  lemma FoundIff(s: State, nick: string, t: Id)
    requires Core(s)
    ensures FindNick(s, nick) == Some(t) <==> Live(s, t) && SameName(s.clients[t].nick, nick)
  {
    var key := Canonical(nick);
    if t in s.clients { SameNameIsSameKey(s.clients[t].nick, nick); }
    if Live(s, t) && Canonical(s.clients[t].nick) == key {
      assert s.nicks[Canonical(s.clients[t].nick)].id == t;
    }
  }

  /** Who may invite `t` to channel `k`: a member, with some rank if the channel is invite-only. */
  predicate MayInvite(s: State, id: Id, t: Id, k: string)
  {
    && k in s.channels && id in s.channels[k].members && t !in s.channels[k].members && t !in s.channels[k].invites
    && (s.channels[k].inviteOnly ==> s.channels[k].members[id].operator || s.channels[k].members[id].halfop)
  }

  /** The one invited hears of it, and the members that could have invited it and asked to hear of invitations. */
  predicate HearsInvite(s: State, id: Id, t: Id, k: string, o: Id)
    requires k in s.channels && o in s.clients
  {
    o == t || (&& o in s.channels[k].members && o != id && "invite-notify" in s.clients[o].caps
               && (s.channels[k].inviteOnly ==> s.channels[k].members[o].operator || s.channels[k].members[o].halfop))
  }

  /** The clients differ in nothing that admission looks at. */
  predicate SameFaces(a: map<Id, Client>, b: map<Id, Client>)
  {
    a.Keys == b.Keys && forall i :: i in a ==> b[i] == a[i].(queue := b[i].queue)
  }

  lemma PushFaces(clients: map<Id, Client>, targets: set<Id>, ev: Event)
    ensures SameFaces(clients, Push(clients, targets, ev))
    ensures forall i :: i in clients ==>
              Push(clients, targets, ev)[i].queue == clients[i].queue + if i in targets then [ev] else []
  {
    assert forall i :: i in clients ==> clients[i].queue + [] == clients[i].queue;
  }

  lemma InviteRefused(s: State, id: Id, nick: string, chan: string, t: Id)
    requires id in s.clients && FindNick(s, nick) == Some(t) && !MayInvite(s, id, t, Canonical(chan))
    requires Canonical(chan) in s.channels ==> ChannelOk(s, s.channels[Canonical(chan)])
    ensures !Invite(s, id, nick, chan).ok && Invite(s, id, nick, chan).s == s
  {
    hide FindNick, Push;
  }

  lemma InviteSent(s: State, id: Id, nick: string, chan: string, t: Id)
    requires id in s.clients && t in s.clients && FindNick(s, nick) == Some(t) && MayInvite(s, id, t, Canonical(chan))
    requires ChannelOk(s, s.channels[Canonical(chan)])
    ensures var out, k := Invite(s, id, nick, chan), Canonical(chan);
            && out.ok && out.s.channels == s.channels[k := s.channels[k].(invites := s.channels[k].invites + {t})]
            && SameFaces(s.clients, out.s.clients)
            && forall o :: o in s.clients ==>
                 out.s.clients[o].queue == s.clients[o].queue
                   + if HearsInvite(s, id, t, k, o) then [Invited(s.clients[id].nick, nick, k)] else []
  {
    var ev, ch := Invited(s.clients[id].nick, nick, Canonical(chan)), s.channels[Canonical(chan)];
    var aware := set m | m in ch.members && m != id && m in s.clients
                        && "invite-notify" in s.clients[m].caps && ch.CanInvite(m);
    InvitePushes(s, id, nick, chan, t);
    TwoPushes(s.clients, t, aware, ev);
    hide Invite, Push, FindNick, SameFaces;
    forall o | o in s.clients ensures HearsInvite(s, id, t, Canonical(chan), o) <==> o == t || o in aware {
      assert o in ch.members ==> !ch.members[o].founder;
    }
  }

  lemma InvitePushes(s: State, id: Id, nick: string, chan: string, t: Id)
    requires id in s.clients && t in s.clients && FindNick(s, nick) == Some(t) && MayInvite(s, id, t, Canonical(chan))
    ensures var ch, ev := s.channels[Canonical(chan)], Invited(s.clients[id].nick, nick, Canonical(chan));
            var aware := set m | m in ch.members && m != id && m in s.clients
                                && "invite-notify" in s.clients[m].caps && ch.CanInvite(m);
            var out := Invite(s, id, nick, chan);
            && out.ok && out.s.clients == Push(Push(s.clients, {t}, ev), aware, ev)
            && out.s.channels == s.channels[Canonical(chan) := ch.(invites := ch.invites + {t})]
  {
    hide FindNick, Push;
  }

  lemma TwoPushes(clients: map<Id, Client>, t: Id, aware: set<Id>, ev: Event)
    requires t !in aware
    ensures var told := Push(Push(clients, {t}, ev), aware, ev);
            && SameFaces(clients, told)
            && forall o :: o in clients ==> told[o].queue == clients[o].queue + if o == t || o in aware then [ev] else []
  {
    PushFaces(clients, {t}, ev);
    PushFaces(Push(clients, {t}, ev), aware, ev);
    hide Push;
    forall o | o in clients
      ensures Push(Push(clients, {t}, ev), aware, ev)[o].queue
           == clients[o].queue + if o == t || o in aware then [ev] else []
    {
      assert clients[o].queue + [] + [ev] == clients[o].queue + [ev] + [] == clients[o].queue + [ev];
      assert clients[o].queue + [] + [] == clients[o].queue + [];
    }
  }

  /** INVITE of a registered client works exactly when its issuer may; then the invitation is kept and told. */
  lemma InviteDecides(cfg: Config, s: State, id: Id, nick: string, chan: string, t: Id)
    requires Core(s) && id in s.clients && Live(s, t) && SameName(s.clients[t].nick, nick)
    ensures var out, k := Dispatch(cfg, s, id, R.Invite(nick, chan)), Canonical(chan);
            && (out.ok <==> MayInvite(s, id, t, k)) && (!out.ok ==> out.s == s)
            && (out.ok ==> out.s.channels == s.channels[k := s.channels[k].(invites := s.channels[k].invites + {t})])
            && (out.ok ==> SameFaces(s.clients, out.s.clients)
                           && forall o :: o in s.clients ==>
                                out.s.clients[o].queue == s.clients[o].queue
                                  + if HearsInvite(s, id, t, k, o) then [Invited(s.clients[id].nick, nick, k)] else [])
  {
    FoundIff(s, nick, t);
    if Canonical(chan) in s.channels { ChannelIsOk(s, Canonical(chan)); }
    if MayInvite(s, id, t, Canonical(chan)) {
      InviteSent(s, id, nick, chan, t);
    } else {
      InviteRefused(s, id, nick, chan, t);
    }
    hide Invite, Core, FindNick, MayInvite, SameFaces;
  }

  /** Nobody is invited under a nickname that no registered client has. */
  lemma InviteNobody(cfg: Config, s: State, id: Id, nick: string, chan: string)
    requires Core(s) && id in s.clients && forall t :: Live(s, t) ==> !SameName(s.clients[t].nick, nick)
    ensures Dispatch(cfg, s, id, R.Invite(nick, chan)) == Out(s, [Numeric("401")], false)
  {
    var found := FindNick(s, nick);
    if found.Some? { FoundIff(s, nick, found.value); }
  }

  /** An invitation opens an invite-only channel to the one invited, and changes nothing else for anybody. */
  lemma InvitationOpens(cfg: Config, s: State, id: Id, nick: string, chan: string, t: Id, o: Id, key: Option<string>)
    requires Core(s) && id in s.clients && Live(s, t) && SameName(s.clients[t].nick, nick) && Live(s, o)
    requires MayInvite(s, id, t, Canonical(chan))
    ensures var out, ch := Dispatch(cfg, s, id, R.Invite(nick, chan)).s, s.channels[Canonical(chan)];
            && Canonical(chan) in out.channels
            && o in out.clients
            && (MayEnter(out.channels[Canonical(chan)], o, out.clients[o], key) <==>
                  ch.key == key && HasRoom(ch) && (o == t || LetIn(ch, o, s.clients[o].nick)) && Tolerated(ch, s.clients[o]))
  {
    InviteDecides(cfg, s, id, nick, chan, t);
    var ch, c' := s.channels[Canonical(chan)], Dispatch(cfg, s, id, R.Invite(nick, chan)).s.clients[o];
    assert c' == s.clients[o].(queue := c'.queue);
    OneMoreInvited(ch, t, o, s.clients[o], c', key);
    hide Dispatch, Core, Masked, MayEnter, HasRoom, LetIn, Tolerated, SameFaces;
  }

  lemma OneMoreInvited(ch: C.Channel, t: Id, o: Id, c: Client, c': Client, key: Option<string>)
    requires c' == c.(queue := c'.queue)
    ensures MayEnter(ch.(invites := ch.invites + {t}), o, c', key) <==>
              ch.key == key && HasRoom(ch) && (o == t || LetIn(ch, o, c.nick)) && Tolerated(ch, c)
  {
    hide Masked;
  }
}
