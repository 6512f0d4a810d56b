/** Where channel ranks come from, over whole runs. */
module Privilege {
  import opened Text
  import opened Names
  import opened Server
  import opened ServerInvariant
  import Connections
  import M = Modes
  import C = Channels
  import R = Registration

  type Members = map<Id, C.MemberModes>

  /** A channel that has members but no operator. */
  predicate Leaderless(s: State, k: string)
  {
    k in s.channels && s.channels[k].members != map[] && NoOperator(s.channels[k].members)
  }

  predicate NoOperator(members: Members)
  {
    forall m :: m in members ==> !members[m].operator
  }

  /** Whoever is a halfop in `b` was one in `a`. */
  predicate FewerHalfops(a: Members, b: Members)
  {
    forall m :: m in b && b[m].halfop ==> m in a && a[m].halfop
  }

  /** What a leaderless channel must keep as long as it is not emptied. */
  predicate StaysLeaderless(a: Members, b: Members)
  {
    NoOperator(b) && FewerHalfops(a, b)
  }

  /** An IRC operator on channel `k` acts on its modes. */
  predicate Meddles(s: State, input: Input, k: string)
  {
    && input.Request? && input.req.Mode? && Canonical(input.req.channel) == k
    && input.id in s.clients && s.clients[input.id].operator
    && k in s.channels && input.id in s.channels[k].members
  }

  // ---- most requests only take members away

  /** The members left are old members with their old modes. */
  predicate Shrunk(a: Members, b: Members)
  {
    forall m :: m in b ==> m in a && b[m] == a[m]
  }

  predicate OnlyShrinks(s: State, t: State)
  {
    forall k :: k in t.channels ==> k in s.channels && Shrunk(s.channels[k].members, t.channels[k].members)
  }

  lemma ShrinkTwice(s: State, t: State, u: State)
    requires OnlyShrinks(s, t) && OnlyShrinks(t, u)
    ensures OnlyShrinks(s, u)
  {
  }

  lemma LeaveShrinks(s: State, id: Id, k: string)
    requires k in s.channels
    ensures OnlyShrinks(s, Leave(s, id, k))
  {
  }

  lemma {:induction false} PartShrinks(s: State, rb: seq<Event>, ok: bool, id: Id, list: seq<string>)
    ensures OnlyShrinks(s, PartAll(s, rb, ok, id, list).s)
    decreases list
  {
    if list != [] {
      hide Leave, OnlyShrinks;
      var (s1, rb1, ok1) := PartOne(s, rb, id, list[0]);
      if ok1 { LeaveShrinks(s, id, Canonical(list[0])); }
      NothingShrinks(s);
      PartShrinks(s1, rb1, ok && ok1, id, list[1..]);
      ShrinkTwice(s, s1, PartAll(s1, rb1, ok && ok1, id, list[1..]).s);
    }
  }

  lemma NothingShrinks(s: State)
    ensures OnlyShrinks(s, s)
  {
  }

  lemma {:induction false} PartEverywhereShrinks(s: State, rb: seq<Event>, id: Id, order: seq<string>)
    ensures OnlyShrinks(s, PartEverywhere(s, rb, id, order).s)
    decreases order
  {
    hide Leave, OnlyShrinks;
    NothingShrinks(s);
    if order != [] {
      var k := order[0];
      if k in s.channels && id in s.channels[k].members {
        var s1, rb1 := Leave(s, id, k), rb + [Parted(NickOf(s, id), k)];
        LeaveShrinks(s, id, k);
        PartEverywhereShrinks(s1, rb1, id, order[1..]);
        ShrinkTwice(s, s1, PartEverywhere(s1, rb1, id, order[1..]).s);
      } else {
        PartEverywhereShrinks(s, rb, id, order[1..]);
      }
    }
  }

  lemma ExpelShrinks(s: State, id: Id, k: string, t: Id, nick: string)
    requires k in s.channels
    ensures OnlyShrinks(s, Expel(s, id, k, t, nick))
  {
  }

  lemma {:induction false} KickShrinks(s: State, rb: seq<Event>, id: Id, k: string, who: seq<string>)
    requires k in s.channels
    ensures OnlyShrinks(s, KickAll(s, rb, id, k, who).0)
    decreases who
  {
    hide Expel, OnlyShrinks, FindNick;
    NothingShrinks(s);
    if who != [] {
      var (s1, rb1) := KickOne(s, rb, id, k, who[0]);
      var found := FindNick(s, who[0]);
      if found.Some? { ExpelShrinks(s, id, k, found.value, who[0]); }
      KickShrinks(s1, rb1, id, k, who[1..]);
      ShrinkTwice(s, s1, KickAll(s1, rb1, id, k, who[1..]).0);
    }
  }

  lemma RemoveShrinks(s: State, id: Id)
    requires Core(s)
    ensures OnlyShrinks(s, RemoveClient(s, id))
  {
    hide RemoveClient;
    if id in s.clients {
      forall k | k in RemoveClient(s, id).channels
        ensures k in s.channels && Shrunk(s.channels[k].members, RemoveClient(s, id).channels[k].members)
      {
        RemoveMembers(s, id, k);
      }
    } else {
      assert RemoveClient(s, id) == s by { RemoveNobody(s, id); }
    }
  }

  lemma RemoveNobody(s: State, id: Id)
    requires id !in s.clients
    ensures RemoveClient(s, id) == s
  {
  }

  /** No request but JOIN and MODE adds a member or changes a member's modes. */
  lemma DispatchShrinks(cfg: Config, s: State, id: Id, req: R.Request)
    requires Core(s) && id in s.clients && !req.Join? && !req.Mode?
    ensures OnlyShrinks(s, Dispatch(cfg, s, id, req).s)
  {
    hide OnlyShrinks, RemoveClient, PartAll, PartEverywhere, KickAll, Core, FindNick;
    SameChannels(s, Dispatch(cfg, s, id, req).s);
    match req
    case Quit => RemoveShrinks(s, id);
    case User(_, _) => RemoveShrinks(s, id);
    case Kill(nick) =>
      if FindNick(s, nick).Some? { RemoveShrinks(s, FindNick(s, nick).value); }
      NothingShrinks(s);
    case Part(list) => PartShrinks(s, [], true, id, list);
    case PartAll(order) => PartEverywhereShrinks(s, [], id, order);
    case Kick(from, who) =>
      if Canonical(from) in s.channels { KickShrinks(s, [], id, Canonical(from), who); }
      NothingShrinks(s);
    case Invite(nick, to) => InviteShrinks(s, id, nick, to);
    case _ =>
  }

  lemma SameChannels(s: State, t: State)
    ensures s.channels == t.channels ==> OnlyShrinks(s, t)
  {
  }

  lemma InviteShrinks(s: State, id: Id, nick: string, chan: string)
    requires id in s.clients
    ensures OnlyShrinks(s, Invite(s, id, nick, chan).s)
  {
  }

  // ---- joining

  lemma EnterLeaderless(cfg: Config, s: State, id: Id, j: string, k: string)
    requires id in s.clients && Leaderless(s, k)
    requires j == k ==> id !in s.channels[k].members
    ensures var t := EnterChannel(cfg, s, id, j);
            Leaderless(t, k) && FewerHalfops(s.channels[k].members, t.channels[k].members)
  {
  }

  /** Joining a channel that has members gives no rank. */
  lemma {:induction false} JoinLeaderless(cfg: Config, s: State, rb: seq<Event>, id: Id,
                                          list: seq<(string, Option<string>)>, k: string)
    requires id in s.clients && Leaderless(s, k)
    ensures var t := JoinAll(cfg, s, rb, id, list).0;
            Leaderless(t, k) && FewerHalfops(s.channels[k].members, t.channels[k].members)
    decreases list
  {
    if list != [] {
      hide EnterChannel;
      var j := Canonical(list[0].0);
      var (s1, rb1) := JoinOne(cfg, s, rb, id, list[0].0, list[0].1);
      if s1 != s {
        EnterLeaderless(cfg, s, id, j, k);
      }
      JoinLeaderless(cfg, s1, rb1, id, list[1..], k);
    }
  }

  // ---- MODE

  /** The items hold no change of operators or halfops. */
  predicate NoPromotion(items: seq<M.Item>)
  {
    forall i :: 0 <= i < |items| && items[i].Good? ==> !items[i].change.ChangeOperator? && !items[i].change.ChangeHalfop?
  }

  predicate SameLeaders(a: Members, b: Members)
  {
    a.Keys == b.Keys && forall m :: m in a ==> a[m].operator == b[m].operator && a[m].halfop == b[m].halfop
  }

  lemma VoiceKeepsLeaders(ch: C.Channel, nickOf: map<Id, string>, nick: string, on: bool)
    requires ch.members.Keys <= nickOf.Keys
    ensures SameLeaders(ch.members, C.SetFlag(ch, nickOf, nick, C.Voice, on).0.members)
  {
    hide C.MemberNamed;
  }

  lemma ChangeKeepsLeaders(ch: C.Channel, change: M.Change, keylen: nat, nickOf: map<Id, string>)
    requires ch.members.Keys <= nickOf.Keys && !change.ChangeOperator? && !change.ChangeHalfop?
    ensures SameLeaders(ch.members, C.Apply(ch, change, keylen, nickOf).0.members)
  {
    if change.ChangeVoice? {
      hide C.SetFlag, SameLeaders;
      VoiceKeepsLeaders(ch, nickOf, change.param, change.on);
    } else {
      OtherChangesKeepMembers(ch, change, keylen, nickOf);
      hide C.Apply;
    }
  }

  lemma {:induction false} ItemsKeepLeaders(ch: C.Channel, items: seq<M.Item>, keylen: nat, nickOf: map<Id, string>)
    requires ch.members.Keys <= nickOf.Keys && NoPromotion(items)
    ensures SameLeaders(ch.members, C.ApplyAll(ch, items, keylen, nickOf).0.members)
    decreases items
  {
    hide C.Apply;
    if items != [] {
      if items[0].Bad? {
        ItemsKeepLeaders(ch, items[1..], keylen, nickOf);
      } else {
        C.UnappliedKeeps(ch, items[0].change, keylen, nickOf);
        ChangeKeepsLeaders(ch, items[0].change, keylen, nickOf);
        ItemsKeepLeaders(C.Apply(ch, items[0].change, keylen, nickOf).0, items[1..], keylen, nickOf);
      }
    }
  }

  lemma UnrankedCannotPromote(modes: C.MemberModes, items: seq<M.Item>)
    requires !modes.operator && !modes.founder && C.CanChange(modes, items)
    ensures NoPromotion(items)
  {
  }

  /** A MODE request by somebody without rank on the channel and who is no IRC operator promotes nobody. */
  lemma ModeLeaderless(cfg: Config, s: State, id: Id, chan: string, modes: string, params: seq<string>, k: string)
    requires Core(s) && id in s.clients && Leaderless(s, k)
    requires Canonical(chan) == k && id in s.channels[k].members ==> !s.clients[id].operator
    ensures var t := Mode(cfg, s, id, chan, modes, params).s;
            Leaderless(t, k) && FewerHalfops(s.channels[k].members, t.channels[k].members)
  {
    hide C.CanChange, C.ApplyAll, C.AllReplies, M.Query, NickMap, Push, M.PrintModes, M.PrintParams, Core;
    var t := Mode(cfg, s, id, chan, modes, params).s;
    if Canonical(chan) == k && id in s.channels[k].members {
      var ch, items := s.channels[k], M.Query(modes, params);
      ChannelIsOk(s, k);
      if C.CanChange(ch.members[id], items) {
        UnrankedCannotPromote(ch.members[id], items);
        ItemsKeepLeaders(ch, items, cfg.keylen, NickMap(s, ch));
        var final := C.ApplyAll(ch, items, cfg.keylen, NickMap(s, ch)).0;
        assert t.channels == s.channels[k := final];
      }
    }
  }

  /**
   * MODE is all or nothing by privilege: a member who is no IRC operator is refused, with nothing
   * changed and nobody told, exactly when some change of the request is above its rank.
   */
  lemma ModeRefusedIff(cfg: Config, s: State, id: Id, chan: string, modes: string, params: seq<string>)
    requires id in s.clients && Canonical(chan) in s.channels && id in s.channels[Canonical(chan)].members
    ensures var rank, items := s.channels[Canonical(chan)].members[id], M.Query(modes, params);
            var out := Mode(cfg, s, id, chan, modes, params);
            && (out == Out(s, [Numeric("482")], false) <==> !out.ok)
            && (!out.ok <==> !s.clients[id].operator
                             && exists i :: 0 <= i < |items| && items[i].Good? && !C.MayChange(rank, items[i].change))
  {
  }

  // ---- one step

  /** The channels after the handler are those after the step. */
  lemma HandleChannels(cfg: Config, s: State, id: Id, req: R.Request)
    ensures var t := Handle(cfg, s, id, req);
            t.channels == s.channels || (id in s.clients && R.Apply(s.clients[id].state, req).Some?
                                         && t.channels == Dispatch(cfg, s, id, req).s.channels)
  {
    hide Dispatch, R.Apply;
  }

  lemma StepLeaderless(cfg: Config, s: State, input: Input, k: string)
    requires Core(s) && Leaderless(s, k) && !Meddles(s, input, k)
    ensures var t := Step(cfg, s, input);
            k in t.channels && t.channels[k].members != map[] ==>
              Leaderless(t, k) && FewerHalfops(s.channels[k].members, t.channels[k].members)
  {
    hide Core, Handle, RemoveClient, Dispatch, OnlyShrinks;
    match input
    case Request(id, req) => HandleLeaderless(cfg, s, id, req, k);
    case Hangup(id) => RemoveShrinks(s, id); ShrunkLeaderless(s, RemoveClient(s, id), k);
    case Timeout(id) => RemoveShrinks(s, id); ShrunkLeaderless(s, RemoveClient(s, id), k);
    case _ =>
  }

  lemma ShrunkLeaderless(s: State, t: State, k: string)
    requires Leaderless(s, k) && OnlyShrinks(s, t)
    ensures k in t.channels && t.channels[k].members != map[] ==>
              Leaderless(t, k) && FewerHalfops(s.channels[k].members, t.channels[k].members)
  {
  }

  lemma HandleLeaderless(cfg: Config, s: State, id: Id, req: R.Request, k: string)
    requires Core(s) && Leaderless(s, k) && !Meddles(s, Request(id, req), k)
    ensures var t := Handle(cfg, s, id, req);
            k in t.channels && t.channels[k].members != map[] ==>
              Leaderless(t, k) && FewerHalfops(s.channels[k].members, t.channels[k].members)
  {
    HandleChannels(cfg, s, id, req);
    hide Core, Handle, OnlyShrinks, JoinAll, Mode;
    if id in s.clients {
      if req.Join? {
        JoinLeaderless(cfg, s, [], id, req.channels, k);
      } else if req.Mode? {
        ModeLeaderless(cfg, s, id, req.channel, req.modes, req.params, k);
      } else {
        hide Dispatch;
        DispatchShrinks(cfg, s, id, req);
        ShrunkLeaderless(s, Dispatch(cfg, s, id, req).s, k);
      }
    }
  }

  // ---- whole runs

  /** No IRC operator on channel `k` meddles with it during the run, and it never empties. */
  ghost predicate Undisturbed(cfg: Config, s: State, inputs: seq<Input>, k: string)
    decreases inputs
  {
    inputs == [] ||
    (var t := Step(cfg, s, inputs[0]);
     && !Meddles(s, inputs[0], k)
     && k in t.channels && t.channels[k].members != map[]
     && Undisturbed(cfg, t, inputs[1..], k))
  }

  lemma {:induction false} RunLeaderless(cfg: Config, s: State, inputs: seq<Input>, k: string)
    requires Core(s) && Connections.ClientsOk(cfg, s) && Leaderless(s, k) && Undisturbed(cfg, s, inputs, k)
    ensures var t := Run(cfg, s, inputs);
            Leaderless(t, k) && FewerHalfops(s.channels[k].members, t.channels[k].members)
    decreases inputs
  {
    hide Step, Core, Connections.ClientsOk;
    if inputs != [] {
      StepLeaderless(cfg, s, inputs[0], k);
      Connections.StepCore(cfg, s, inputs[0]);
      Connections.StepClientsOk(cfg, s, inputs[0]);
      RunLeaderless(cfg, Step(cfg, s, inputs[0]), inputs[1..], k);
    }
  }

  /**
   * Once a channel of a running server has lost its last operator, it gains no operator and no
   * halfop, whatever the clients do, until it is emptied or an IRC operator on it issues MODE on it.
   */
  lemma NoOperatorFromNowhere(cfg: Config, before: seq<Input>, after: seq<Input>, k: string)
    requires Leaderless(Run(cfg, INITIAL, before), k) && Undisturbed(cfg, Run(cfg, INITIAL, before), after, k)
    ensures var s := Run(cfg, INITIAL, before);
            var t := Run(cfg, s, after);
            k in t.channels && StaysLeaderless(s.channels[k].members, t.channels[k].members)
  {
    Connections.ReachableInvariant(cfg, before);
    hide Run, Core;
    RunLeaderless(cfg, Run(cfg, INITIAL, before), after, k);
  }

  /**
   * In every run a client is an IRC operator exactly when it gave, in an OPER that was accepted, a name
   * and a password of the configuration, and has not given it up by MODE on itself since.
   */
  lemma OperatorIsEarned(cfg: Config, inputs: seq<Input>, id: Id)
    requires id in Run(cfg, INITIAL, inputs).clients
    ensures var c := Run(cfg, INITIAL, inputs).clients[id];
            c.operator <==> exists i :: 0 <= i < |c.log| && OperStands(cfg, c.log, i)
  {
    Connections.ReachableInvariant(cfg, inputs);
    hide Run;
    var log := Run(cfg, INITIAL, inputs).clients[id].log;
    R.OperIsEarned(log);
    if R.IsOper(log) {
      var i :| 0 <= i < |log| && log[i].Oper? && forall j :: i < j < |log| ==> !log[j].DropsOper();
      assert Connections.KnownOper(cfg, log[i]);
      assert OperStands(cfg, log, i);
    }
  }

  predicate OperStands(cfg: Config, log: R.Log, i: nat)
    requires i < |log|
  {
    && log[i].Oper? && (log[i].name, log[i].operPassword) in cfg.opers
    && forall j :: i < j < |log| ==> !log[j].DropsOper()
  }

  /** In every run, nobody is ever a founder or protected. */
  lemma FounderNeverSet(cfg: Config, inputs: seq<Input>, k: string, m: Id)
    requires var s := Run(cfg, INITIAL, inputs); k in s.channels && m in s.channels[k].members
    ensures var modes := Run(cfg, INITIAL, inputs).channels[k].members[m]; !modes.founder && !modes.protected
  {
    Connections.ReachableInvariant(cfg, inputs);
    hide Run;
    ChannelIsOk(Run(cfg, INITIAL, inputs), k);
  }
}
