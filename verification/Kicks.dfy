/** What KICK alone does: it can leave a channel without members, and the one kicked is not told. */
module Kicks {
  import opened Text
  import opened Names
  import opened Server
  import opened ServerInvariant
  import Connections
  import Privilege
  import C = Channels
  import R = Registration

  predicate Memberless(s: State, k: string)
  {
    k in s.channels && s.channels[k].members == map[]
  }

  /** Every channel without members was one before. */
  ghost predicate NoneEmptied(s: State, t: State)
  {
    forall k :: Memberless(t, k) ==> Memberless(s, k)
  }

  lemma EmptiedTwice(s: State, t: State, u: State)
    requires NoneEmptied(s, t) && NoneEmptied(t, u)
    ensures NoneEmptied(s, u)
  {
  }

  lemma SameEmptiesNone(s: State, t: State)
    ensures s.channels == t.channels ==> NoneEmptied(s, t)
  {
  }

  // ---- every other request

  lemma LeaveEmptiesNone(s: State, id: Id, k: string)
    requires k in s.channels
    ensures NoneEmptied(s, Leave(s, id, k))
  {
  }

  lemma {:induction false} PartEmptiesNone(s: State, rb: seq<Event>, ok: bool, id: Id, list: seq<string>)
    ensures NoneEmptied(s, PartAll(s, rb, ok, id, list).s)
    decreases list
  {
    if list != [] {
      hide Leave, NoneEmptied;
      var (s1, rb1, ok1) := PartOne(s, rb, id, list[0]);
      if ok1 { LeaveEmptiesNone(s, id, Canonical(list[0])); }
      SameEmptiesNone(s, s);
      PartEmptiesNone(s1, rb1, ok && ok1, id, list[1..]);
      EmptiedTwice(s, s1, PartAll(s1, rb1, ok && ok1, id, list[1..]).s);
    }
  }

  lemma {:induction false} PartEverywhereEmptiesNone(s: State, rb: seq<Event>, id: Id, order: seq<string>)
    ensures NoneEmptied(s, PartEverywhere(s, rb, id, order).s)
    decreases order
  {
    hide Leave, NoneEmptied;
    SameEmptiesNone(s, s);
    if order != [] {
      var k := order[0];
      if k in s.channels && id in s.channels[k].members {
        var s1, rb1 := Leave(s, id, k), rb + [Parted(NickOf(s, id), k)];
        LeaveEmptiesNone(s, id, k);
        PartEverywhereEmptiesNone(s1, rb1, id, order[1..]);
        EmptiedTwice(s, s1, PartEverywhere(s1, rb1, id, order[1..]).s);
      } else {
        PartEverywhereEmptiesNone(s, rb, id, order[1..]);
      }
    }
  }

  lemma RemoveEmptiesNone(s: State, id: Id)
    ensures NoneEmptied(s, RemoveClient(s, id))
  {
  }

  lemma EnterEmptiesNone(cfg: Config, s: State, id: Id, k: string)
    requires id in s.clients
    ensures NoneEmptied(s, EnterChannel(cfg, s, id, k))
  {
    EnterFacts(cfg, s, id, k);
    assert id in ChannelFor(cfg, s, k).AddMember(id).members;
    hide EnterChannel;
  }

  lemma {:induction false} JoinEmptiesNone(cfg: Config, s: State, rb: seq<Event>, id: Id, list: seq<(string, Option<string>)>)
    requires id in s.clients
    ensures NoneEmptied(s, JoinAll(cfg, s, rb, id, list).0)
    decreases list
  {
    hide EnterChannel, NoneEmptied;
    SameEmptiesNone(s, s);
    if list != [] {
      var (s1, rb1) := JoinOne(cfg, s, rb, id, list[0].0, list[0].1);
      EnterEmptiesNone(cfg, s, id, Canonical(list[0].0));
      JoinEmptiesNone(cfg, s1, rb1, id, list[1..]);
      EmptiedTwice(s, s1, JoinAll(cfg, s1, rb1, id, list[1..]).0);
    }
  }

  lemma ModeEmptiesNone(cfg: Config, s: State, id: Id, chan: string, modes: string, params: seq<string>)
    requires id in s.clients
    ensures NoneEmptied(s, Mode(cfg, s, id, chan, modes, params).s)
  {
    hide Push, C.CanChange, C.ApplyAll, C.AllReplies;
    var t := Mode(cfg, s, id, chan, modes, params).s;
    forall k | Memberless(t, k) ensures Memberless(s, k) {
      assert s.channels[k].members.Keys == t.channels[k].members.Keys;
    }
  }

  lemma InviteEmptiesNone(s: State, id: Id, nick: string, chan: string)
    requires id in s.clients
    ensures NoneEmptied(s, Invite(s, id, nick, chan).s)
  {
  }

  lemma DispatchEmptiesNone(cfg: Config, s: State, id: Id, req: R.Request)
    requires id in s.clients && !req.Kick?
    ensures NoneEmptied(s, Dispatch(cfg, s, id, req).s)
  {
    hide NoneEmptied, RemoveClient, PartAll, PartEverywhere, JoinAll, Mode, Invite, FindNick;
    SameEmptiesNone(s, Dispatch(cfg, s, id, req).s);
    match req
    case Quit => RemoveEmptiesNone(s, id);
    case User(_, _) => RemoveEmptiesNone(s, id);
    case Kill(nick) => if FindNick(s, nick).Some? { RemoveEmptiesNone(s, FindNick(s, nick).value); }
    case Join(list) => JoinEmptiesNone(cfg, s, [], id, list);
    case Part(list) => PartEmptiesNone(s, [], true, id, list);
    case PartAll(order) => PartEverywhereEmptiesNone(s, [], id, order);
    case Mode(channel, modes, params) => ModeEmptiesNone(cfg, s, id, channel, modes, params);
    case Invite(guest, to) => InviteEmptiesNone(s, id, guest, to);
    case _ =>
  }

  // ---- KICK

  /** The registered clients with the nicknames of a KICK. */
  function Named(s: State, who: seq<string>): set<Id>
  {
    set n | n in who && FindNick(s, n).Some? :: FindNick(s, n).value
  }

  /** Pushing events changes no nickname and no connection. */
  lemma SameNamed(s: State, t: State, nick: string)
    requires t.nicks == s.nicks && SameFacts(s.clients, t.clients)
    ensures FindNick(t, nick) == FindNick(s, nick)
  {
  }

  lemma ExpelFacts(s: State, id: Id, k: string, t: Id, nick: string)
    requires k in s.channels
    ensures var r := Expel(s, id, k, t, nick);
            && r.nicks == s.nicks && SameFacts(s.clients, r.clients)
            && r.channels == s.channels[k := s.channels[k].RemoveMember(t)]
  {
  }

  /** The channels with some clients taken off one of them. */
  function TakenOff(channels: map<string, C.Channel>, k: string, gone: set<Id>): map<string, C.Channel>
    requires k in channels
  {
    channels[k := channels[k].(members := channels[k].members - gone)]
  }

  lemma TakenTwice(channels: map<string, C.Channel>, k: string, a: set<Id>, b: set<Id>)
    requires k in channels
    ensures TakenOff(TakenOff(channels, k, a), k, b) == TakenOff(channels, k, a + b)
  {
    assert channels[k].members - a - b == channels[k].members - (a + b);
  }

  lemma TakenNone(channels: map<string, C.Channel>, k: string, gone: set<Id>)
    requires k in channels && channels[k].members.Keys !! gone
    ensures TakenOff(channels, k, gone) == channels
  {
    assert channels[k].members - gone == channels[k].members;
  }

  lemma KickTakesOne(s: State, rb: seq<Event>, id: Id, k: string, nick: string)
    requires k in s.channels
    ensures var t := KickOne(s, rb, id, k, nick).0;
            && t.nicks == s.nicks && SameFacts(s.clients, t.clients)
            && t.channels == TakenOff(s.channels, k, Named(s, [nick]))
  {
    hide Expel, FindNick;
    var found := FindNick(s, nick);
    assert Named(s, [nick]) == if found.Some? then {found.value} else {};
    if found.Some? && found.value in s.channels[k].members {
      ExpelFacts(s, id, k, found.value, nick);
    } else {
      TakenNone(s.channels, k, Named(s, [nick]));
    }
  }

  /** KICK takes exactly the clients named off the channel, and leaves everything else of the channels. */
  lemma {:induction false} KickTakesNamed(s: State, rb: seq<Event>, id: Id, k: string, who: seq<string>)
    requires k in s.channels
    ensures var t := KickAll(s, rb, id, k, who).0;
            && t.nicks == s.nicks && SameFacts(s.clients, t.clients)
            && t.channels == TakenOff(s.channels, k, Named(s, who))
    decreases who
  {
    hide TakenOff;
    if who == [] {
      TakenNone(s.channels, k, Named(s, who));
    } else {
      hide KickOne;
      var (s1, rb1) := KickOne(s, rb, id, k, who[0]);
      KickTakesOne(s, rb, id, k, who[0]);
      KickTakesNamed(s1, rb1, id, k, who[1..]);
      NamedFirst(s, s1, who);
      TakenTwice(s.channels, k, Named(s, [who[0]]), Named(s, who[1..]));
      hide Named;
    }
  }

  lemma NamedFirst(s: State, s1: State, who: seq<string>)
    requires who != [] && s1.nicks == s.nicks && SameFacts(s.clients, s1.clients)
    ensures Named(s1, who[1..]) == Named(s, who[1..])
    ensures Named(s, who) == Named(s, [who[0]]) + Named(s, who[1..])
  {
    forall n ensures FindNick(s1, n) == FindNick(s, n) { SameNamed(s, s1, n); }
    hide FindNick;
    assert who == [who[0]] + who[1..];
  }

  /** A KICK by an operator of the channel that names every member. */
  predicate KicksEverybody(s: State, input: Input, k: string)
  {
    && input.Request? && input.req.Kick? && Canonical(input.req.from) == k && k in s.channels
    && input.id in s.channels[k].members && s.channels[k].members[input.id].operator
    && s.channels[k].members.Keys <= Named(s, input.req.who)
  }

  /** What KICK by an operator on a channel of its own leaves, the connections' bookkeeping aside. */
  lemma HandleKick(cfg: Config, s: State, id: Id, from: string, who: seq<string>)
    requires Core(s) && id in s.clients
    ensures var k, t := Canonical(from), Handle(cfg, s, id, R.Kick(from, who));
            if k in s.channels && id in s.channels[k].members && s.channels[k].members[id].operator then
              t.channels == TakenOff(s.channels, k, Named(s, who))
            else t.channels == s.channels
  {
    hide Dispatch;
    Privilege.HandleChannels(cfg, s, id, R.Kick(from, who));
    hide Handle;
    var k := Canonical(from);
    if k in s.channels && id in s.channels[k].members {
      ChannelIsOk(s, k);
      RegisteredIsServed(cfg, s, id, R.Kick(from, who));
    }
    KickChannels(cfg, s, id, from, who);
  }

  lemma KickChannels(cfg: Config, s: State, id: Id, from: string, who: seq<string>)
    requires id in s.clients
    ensures var k, t := Canonical(from), Dispatch(cfg, s, id, R.Kick(from, who)).s;
            if k in s.channels && id in s.channels[k].members && s.channels[k].members[id].operator then
              t.channels == TakenOff(s.channels, k, Named(s, who))
            else t.channels == s.channels
  {
    hide KickAll, TakenOff, Named;
    if Canonical(from) in s.channels { KickTakesNamed(s, [], id, Canonical(from), who); }
  }

  /** A registered client's request, QUIT and what it may not ask aside, is served. */
  lemma RegisteredIsServed(cfg: Config, s: State, id: Id, req: R.Request)
    requires Live(s, id) && (req.Kick? || req.Join?)
    ensures Handle(cfg, s, id, req) == Finish(Dispatch(cfg, s, id, req), id, req)
  {
    hide Dispatch, Finish;
  }

  /** No input but KICK leaves a channel without members. */
  lemma OnlyKickEmpties(cfg: Config, s: State, input: Input)
    requires !(input.Request? && input.req.Kick?)
    ensures NoneEmptied(s, Step(cfg, s, input))
  {
    hide NoneEmptied, RemoveClient, Dispatch;
    SameEmptiesNone(s, Step(cfg, s, input));
    match input
    case Request(id, req) =>
      if id in s.clients && Handle(cfg, s, id, req).channels != s.channels {
        Privilege.HandleChannels(cfg, s, id, req);
        DispatchEmptiesNone(cfg, s, id, req);
        SameMembers(s, Dispatch(cfg, s, id, req).s, Handle(cfg, s, id, req));
      }
    case Hangup(id) => RemoveEmptiesNone(s, id);
    case Timeout(id) => RemoveEmptiesNone(s, id);
    case _ =>
  }

  lemma SameMembers(s: State, t: State, u: State)
    requires NoneEmptied(s, t) && t.channels == u.channels
    ensures NoneEmptied(s, u)
  {
  }

  /** An input leaves a channel without members exactly when it is a KICK that names every member of it. */
  lemma EmptiedIff(cfg: Config, s: State, input: Input, k: string)
    requires Core(s)
    ensures Memberless(Step(cfg, s, input), k) && !Memberless(s, k) <==> KicksEverybody(s, input, k)
  {
    if input.Request? && input.req.Kick? {
      var id, who := input.id, input.req.who;
      if id in s.clients {
        HandleKick(cfg, s, id, input.req.from, who);
      } else {
        NoMember(s, id);
      }
      hide Handle, Core, Named;
      if k in s.channels {
        var members, named := s.channels[k].members, Named(s, who);
        assert members.Keys <= named <==> members - named == map[] by { LeftNobody(members, named); }
      }
    } else {
      OnlyKickEmpties(cfg, s, input);
    }
  }

  lemma LeftNobody(members: map<Id, C.MemberModes>, gone: set<Id>)
    ensures members.Keys <= gone <==> members - gone == map[]
  {
    assert (members - gone).Keys == members.Keys - gone;
    if members.Keys <= gone {
      assert (members - gone).Keys == {};
    } else {
      var m :| m in members.Keys && m !in gone;
      assert m in members - gone;
    }
  }

  lemma NoMember(s: State, id: Id)
    requires Core(s) && id !in s.clients
    ensures forall k :: k in s.channels ==> id !in s.channels[k].members
  {
    forall k | k in s.channels ensures id !in s.channels[k].members { ChannelIsOk(s, k); }
  }

  /** In a run without KICK every channel always has a member. */
  lemma {:induction false} PeopledWithoutKick(cfg: Config, s: State, inputs: seq<Input>, k: string)
    requires !Memberless(s, k) && forall input :: input in inputs ==> !(input.Request? && input.req.Kick?)
    ensures !Memberless(Run(cfg, s, inputs), k)
    decreases inputs
  {
    hide Step;
    if inputs != [] {
      OnlyKickEmpties(cfg, s, inputs[0]);
      PeopledWithoutKick(cfg, Step(cfg, s, inputs[0]), inputs[1..], k);
    }
  }

  /** Who creates a channel and kicks itself leaves it without members; its channel is not dropped. */
  lemma CreatorKicksItself(cfg: Config, s: State, id: Id, chan: string)
    requires Core(s) && Connections.ClientsOk(cfg, s) && Live(s, id) && Canonical(chan) !in s.channels
    ensures var joined := Step(cfg, s, Request(id, R.Join([(chan, None)])));
            var kicked := Step(cfg, joined, Request(id, R.Kick(chan, [s.clients[id].nick])));
            !Memberless(joined, Canonical(chan)) && Memberless(kicked, Canonical(chan))
  {
    var k, join := Canonical(chan), Request(id, R.Join([(chan, None)]));
    Connections.StepCore(cfg, s, join);
    CreatorIsAlone(cfg, s, id, chan);
    hide Step, Core, Connections.ClientsOk;
    SoleOperatorKicksItself(cfg, Step(cfg, s, join), id, chan);
  }

  lemma CreatorIsAlone(cfg: Config, s: State, id: Id, chan: string)
    requires Live(s, id) && Canonical(chan) !in s.channels
    ensures var t, k := Step(cfg, s, Request(id, R.Join([(chan, None)]))), Canonical(chan);
            && k in t.channels && t.channels[k].members == map[id := C.FIRST_MEMBER]
            && id in t.clients && t.clients[id].nick == s.clients[id].nick
  {
    var list, k := [(chan, None)], Canonical(chan);
    C.NewChannelIsEmpty(cfg.defaultModes);
    EnterFacts(cfg, s, id, k);
    RegisteredIsServed(cfg, s, id, R.Join(list));
    hide EnterChannel, SendNames;
    var (s1, rb1) := JoinOne(cfg, s, [], id, chan, None);
    assert list[1..] == [] && JoinAll(cfg, s, [], id, list) == (s1, rb1);
  }

  /** Input for which KICK leaves a channel without members: its only member, an operator, kicks itself. */
  lemma SoleOperatorKicksItself(cfg: Config, s: State, id: Id, chan: string)
    requires Core(s) && Canonical(chan) in s.channels && id in s.clients
    requires s.channels[Canonical(chan)].members.Keys == {id} && s.channels[Canonical(chan)].members[id].operator
    ensures Memberless(Step(cfg, s, Request(id, R.Kick(chan, [s.clients[id].nick]))), Canonical(chan))
  {
    var input := Request(id, R.Kick(chan, [s.clients[id].nick]));
    ChannelIsOk(s, Canonical(chan));
    assert FindNick(s, s.clients[id].nick) == Some(id);
    assert s.clients[id].nick in [s.clients[id].nick];
    assert KicksEverybody(s, input, Canonical(chan));
    EmptiedIff(cfg, s, input, Canonical(chan));
  }

  // ---- who is told

  /** The events that came to a queue; none of them is a KICK of its owner. */
  predicate NotToldOfOwn(s: State, before: seq<Event>, after: seq<Event>, o: Id)
  {
    before <= after && forall e :: e in after[|before|..] && e.Kicked? ==> FindNick(s, e.who) != Some(o)
  }

  lemma ToldMore(s: State, a: seq<Event>, b: seq<Event>, c: seq<Event>, o: Id)
    requires NotToldOfOwn(s, a, b, o) && NotToldOfOwn(s, b, c, o)
    ensures NotToldOfOwn(s, a, c, o)
  {
    assert c[|a|..] == b[|a|..] + c[|b|..];
  }

  /** The member kicked is taken off before the others are told. */
  lemma KickOneTold(s: State, rb: seq<Event>, id: Id, k: string, nick: string, o: Id)
    requires k in s.channels && o in s.clients && o != id
    ensures var t := KickOne(s, rb, id, k, nick).0;
            o in t.clients && NotToldOfOwn(s, s.clients[o].queue, t.clients[o].queue, o)
  {
    hide FindNick;
    var q, ev := s.clients[o].queue, Kicked(NickOf(s, id), nick, k);
    assert q[|q|..] == [] && (q + [ev])[|q|..] == [ev];
  }

  lemma {:induction false} KickAllTold(s: State, rb: seq<Event>, id: Id, k: string, who: seq<string>, o: Id)
    requires k in s.channels && o in s.clients && o != id
    ensures var t := KickAll(s, rb, id, k, who).0;
            o in t.clients && NotToldOfOwn(s, s.clients[o].queue, t.clients[o].queue, o)
    decreases who
  {
    var q := s.clients[o].queue;
    assert q[|q|..] == [];
    if who != [] {
      var (s1, rb1) := KickOne(s, rb, id, k, who[0]);
      KickOneTold(s, rb, id, k, who[0], o);
      KickTakesOne(s, rb, id, k, who[0]);
      KickAllTold(s1, rb1, id, k, who[1..], o);
      forall n ensures FindNick(s1, n) == FindNick(s, n) { SameNamed(s, s1, n); }
      hide KickOne, FindNick;
      ToldMore(s, q, s1.clients[o].queue, KickAll(s1, rb1, id, k, who[1..]).0.clients[o].queue, o);
    }
  }

  /** Whoever else a KICK takes off the channel is told of no KICK of its own. */
  lemma KickedIsNotTold(cfg: Config, s: State, id: Id, from: string, who: seq<string>, o: Id)
    requires o in s.clients && o != id
    ensures var t := Step(cfg, s, Request(id, R.Kick(from, who)));
            o in t.clients && NotToldOfOwn(s, s.clients[o].queue, t.clients[o].queue, o)
  {
    var q := s.clients[o].queue;
    assert q[|q|..] == [];
    if id in s.clients {
      HandleTellsIssuer(cfg, s, id, R.Kick(from, who), o);
      if Canonical(from) in s.channels { KickAllTold(s, [], id, Canonical(from), who, o); }
      hide Handle, KickAll, NotToldOfOwn;
    }
  }

  /** Whatever surrounds the handler touches only the issuer. */
  lemma HandleTellsIssuer(cfg: Config, s: State, id: Id, req: R.Request, o: Id)
    requires id in s.clients && o in s.clients && o != id
    ensures var t, out := Handle(cfg, s, id, req).clients, Dispatch(cfg, s, id, req).s.clients;
            (o in t && t[o] == s.clients[o]) || (o in out && o in t && t[o] == out[o]) || (o !in out && o !in t)
  {
    FinishTellsIssuer(Dispatch(cfg, s, id, req), id, req, o);
    hide Dispatch, R.Apply, Finish;
  }

  lemma FinishTellsIssuer(out: Out, id: Id, req: R.Request, o: Id)
    requires o != id
    ensures var t := Finish(out, id, req).clients;
            (o in t <==> o in out.s.clients) && (o in t ==> t[o] == out.s.clients[o])
  {
    hide R.Apply;
  }
}
