/** Channels (src/channel.rs): member modes, ranks, and the interpreter of mode changes. */
module Channels {
  import opened Text
  import opened Glob
  import opened Modes
  import opened MaskSets

  type Id = nat

  datatype MemberModes = MemberModes(founder: bool, protected: bool, operator: bool, halfop: bool, voice: bool)
  {
    predicate AtLeastOp() { operator || founder }
    predicate AtLeastHalfop() { halfop || operator || founder }
    predicate HasVoice() { voice || halfop || operator || protected || founder }

    function With(flag: Flag, on: bool): MemberModes
    {
      match flag
      case Operator => this.(operator := on)
      case Halfop => this.(halfop := on)
      case Voice => this.(voice := on)
    }

    predicate Has(flag: Flag)
    {
      match flag
      case Operator => operator
      case Halfop => halfop
      case Voice => voice
    }
  }

  /** The member modes that MODE can change. */
  datatype Flag = Operator | Halfop | Voice

  const NO_MODES := MemberModes(false, false, false, false, false)
  const FIRST_MEMBER := MemberModes(false, false, true, false, false)

  /** The channel data; masks are kept as their joined strings. */
  datatype Channel = Channel(
    members: map<Id, MemberModes>,
    invites: set<Id>,
    userLimit: Option<nat>,
    key: Option<string>,
    banMask: string,
    exceptionMask: string,
    invexMask: string,
    inviteOnly: bool,
    moderated: bool,
    noMsgFromOutside: bool,
    secret: bool,
    topicRestricted: bool)
  {
    predicate IsBanned(name: string)
    {
      IsMatchRaw(banMask, name) && !IsMatchRaw(exceptionMask, name) && !IsMatchRaw(invexMask, name)
    }

    predicate IsInvited(id: Id, nick: string)
    {
      !inviteOnly || id in invites || IsMatchRaw(invexMask, nick)
    }

    predicate CanInvite(id: Id)
    {
      id in members && (inviteOnly ==> members[id].AtLeastHalfop())
    }

    /** `can_talk`: on a moderated channel members with some rank, else anybody unless outsiders are kept out. */
    predicate CanTalk(id: Id)
    {
      if moderated then id in members && members[id].HasVoice() else !noMsgFromOutside || id in members
    }

    /** The test of TOPIC. */
    predicate CanSetTopic(id: Id)
    {
      id in members && (members[id].operator || !topicRestricted)
    }

    /** The first member of an empty channel is its operator; joining uses up the invitation. */
    function AddMember(id: Id): Channel
    {
      this.(members := members[id := if members == map[] then FIRST_MEMBER else NO_MODES],
            invites := invites - {id})
    }

    function RemoveMember(id: Id): Channel
    {
      this.(members := members - {id})
    }
  }

  const EMPTY := Channel(map[], {}, None, None, "", "", "", false, false, false, false, false)

  // ---- who may ask for a change

  /** The rank a change asks of its issuer. */
  predicate MayChange(modes: MemberModes, change: Change)
  {
    match change
    case GetBans | GetExceptions | GetInvitations => true
    case Moderated(_) | TopicRestricted(_) | UserLimit(_) | ChangeBan(_, _) | ChangeException(_, _)
       | ChangeInvitation(_, _) | ChangeVoice(_, _) => modes.AtLeastHalfop()
    case InviteOnly(_) | NoPrivMsgFromOutside(_) | Secret(_) | Key(_, _) | ChangeOperator(_, _)
       | ChangeHalfop(_, _) => modes.AtLeastOp()
  }

  /** Every change of the request is one the issuer may make; items that do not parse are ignored. */
  predicate CanChange(modes: MemberModes, items: seq<Item>)
  {
    forall i :: 0 <= i < |items| && items[i].Good? ==> MayChange(modes, items[i].change)
  }

  // ---- applying one change

  datatype Outcome = Applied | NoChange | UserNotInChannel | KeySet

  /** `str::parse::<usize>`: an optional plus sign and decimal digits, below 2^64. */
  function ParseUsize(s: string): Option<nat>
  {
    var digits := if s != "" && s[0] == '+' then s[1..] else s;
    if digits == "" then None else ParseDigits(digits, 0)
  }

  function ParseDigits(digits: string, acc: nat): Option<nat>
  {
    if digits == "" then Some(acc)
    else if !('0' <= digits[0] <= '9') then None
    else
      var acc' := acc * 10 + (digits[0] as int - '0' as int);
      if acc' >= 0x1_0000_0000_0000_0000 then None else ParseDigits(digits[1..], acc')
  }

  /** Every member has a nickname and no two members share one. */
  ghost predicate Nicknamed(ch: Channel, nickOf: map<Id, string>)
  {
    && ch.members.Keys <= nickOf.Keys
    && forall a, b :: a in ch.members && b in ch.members && nickOf[a] == nickOf[b] ==> a == b
  }

  function Flagged(on: bool, was: bool): Outcome
  {
    if on != was then Applied else NoChange
  }

  /** The member called `nick`, compared letter by letter. */
  ghost function MemberNamed(members: map<Id, MemberModes>, nickOf: map<Id, string>, nick: string): (r: Option<Id>)
    requires members.Keys <= nickOf.Keys
    ensures r.Some? ==> r.value in members && nickOf[r.value] == nick
    ensures r.None? ==> forall id :: id in members ==> nickOf[id] != nick
  {
    if id :| id in members && nickOf[id] == nick then Some(id) else None
  }

  /** The member called `nick` gets or loses a flag. */
  ghost function SetFlag(ch: Channel, nickOf: map<Id, string>, nick: string, flag: Flag, on: bool): (Channel, Outcome)
    requires ch.members.Keys <= nickOf.Keys
  {
    match MemberNamed(ch.members, nickOf, nick)
    case None => (ch, UserNotInChannel)
    case Some(id) =>
      var modes := ch.members[id];
      (ch.(members := ch.members[id := modes.With(flag, on)]), Flagged(on, modes.Has(flag)))
  }

  function SetMask(raw: string, on: bool, mask: string): (string, Outcome)
  {
    if on then (InsertRaw(raw, mask), Flagged(true, mask in Entries(raw)))
    else (RemoveRaw(raw, mask), Flagged(false, mask in Entries(raw)))
  }

  /** `apply_mode_change`: the new channel and whether anything changed. */
  ghost function Apply(ch: Channel, change: Change, keylen: nat, nickOf: map<Id, string>): (Channel, Outcome)
    requires ch.members.Keys <= nickOf.Keys
  {
    match change
    case InviteOnly(v) => (ch.(inviteOnly := v), Flagged(v, ch.inviteOnly))
    case Moderated(v) => (ch.(moderated := v), Flagged(v, ch.moderated))
    case NoPrivMsgFromOutside(v) => (ch.(noMsgFromOutside := v), Flagged(v, ch.noMsgFromOutside))
    case Secret(v) => (ch.(secret := v), Flagged(v, ch.secret))
    case TopicRestricted(v) => (ch.(topicRestricted := v), Flagged(v, ch.topicRestricted))
    case Key(v, k) =>
      if v then
        if ch.key.Some? then (ch, KeySet)
        else (ch.(key := Some(k[..if |k| < keylen then |k| else keylen])), Applied)
      else (ch.(key := None), Flagged(false, ch.key.Some?))
    case UserLimit(Some(s)) =>
      (match ParseUsize(s)
       case None => (ch, NoChange)
       case Some(n) => (ch.(userLimit := Some(n)), if ch.userLimit == Some(n) then NoChange else Applied))
    case UserLimit(None) => (ch.(userLimit := None), Flagged(false, ch.userLimit.Some?))
    case ChangeBan(v, m) => var (raw, o) := SetMask(ch.banMask, v, m); (ch.(banMask := raw), o)
    case ChangeException(v, m) => var (raw, o) := SetMask(ch.exceptionMask, v, m); (ch.(exceptionMask := raw), o)
    case ChangeInvitation(v, m) => var (raw, o) := SetMask(ch.invexMask, v, m); (ch.(invexMask := raw), o)
    case ChangeOperator(v, n) => SetFlag(ch, nickOf, n, Operator, v)
    case ChangeHalfop(v, n) => SetFlag(ch, nickOf, n, Halfop, v)
    case ChangeVoice(v, n) => SetFlag(ch, nickOf, n, Voice, v)
    case GetBans | GetExceptions | GetInvitations => (ch, NoChange)
  }

  lemma SetFlagKeeps(ch: Channel, nickOf: map<Id, string>, nick: string, flag: Flag, on: bool)
    requires ch.members.Keys <= nickOf.Keys
    ensures var (ch', o) := SetFlag(ch, nickOf, nick, flag, on);
            && ch' == ch.(members := ch'.members) && ch'.members.Keys == ch.members.Keys
            && (o != Applied ==> ch' == ch)
  {
  }

  /** A change that is refused or has no effect leaves the channel as it was. */
  lemma UnappliedKeeps(ch: Channel, change: Change, keylen: nat, nickOf: map<Id, string>)
    requires ch.members.Keys <= nickOf.Keys
    ensures Apply(ch, change, keylen, nickOf).1 != Applied ==> Apply(ch, change, keylen, nickOf).0 == ch
    ensures Apply(ch, change, keylen, nickOf).0.members.Keys == ch.members.Keys
    ensures Apply(ch, change, keylen, nickOf).0.invites == ch.invites
  {
    if change.ChangeOperator? || change.ChangeHalfop? || change.ChangeVoice? {
      FlagUnapplied(ch, change, keylen, nickOf);
    } else if change.ChangeBan? || change.ChangeException? || change.ChangeInvitation? {
      MaskUnapplied(ch, change, keylen, nickOf);
    } else {
      SwitchUnapplied(ch, change, keylen, nickOf);
      KeyUnapplied(ch, change, keylen, nickOf);
      ValueUnapplied(ch, change, keylen, nickOf);
    }
  }

  lemma FlagUnapplied(ch: Channel, change: Change, keylen: nat, nickOf: map<Id, string>)
    requires ch.members.Keys <= nickOf.Keys && (change.ChangeOperator? || change.ChangeHalfop? || change.ChangeVoice?)
    ensures var (ch', o) := Apply(ch, change, keylen, nickOf);
            (o != Applied ==> ch' == ch) && ch'.members.Keys == ch.members.Keys && ch'.invites == ch.invites
  {
    hide SetFlag, SetMask, ParseUsize;
    match change
    case ChangeOperator(v, n) => SetFlagKeeps(ch, nickOf, n, Operator, v);
    case ChangeHalfop(v, n) => SetFlagKeeps(ch, nickOf, n, Halfop, v);
    case ChangeVoice(v, n) => SetFlagKeeps(ch, nickOf, n, Voice, v);
  }

  lemma MaskUnapplied(ch: Channel, change: Change, keylen: nat, nickOf: map<Id, string>)
    requires ch.members.Keys <= nickOf.Keys && (change.ChangeBan? || change.ChangeException? || change.ChangeInvitation?)
    ensures var (ch', o) := Apply(ch, change, keylen, nickOf);
            (o != Applied ==> ch' == ch) && ch'.members == ch.members && ch'.invites == ch.invites
  {
  }

  lemma SwitchUnapplied(ch: Channel, change: Change, keylen: nat, nickOf: map<Id, string>)
    requires ch.members.Keys <= nickOf.Keys
    ensures change.InviteOnly? || change.Moderated? || change.NoPrivMsgFromOutside? || change.Secret?
            || change.TopicRestricted? ==>
              var (ch', o) := Apply(ch, change, keylen, nickOf);
              (o != Applied ==> ch' == ch) && ch'.members == ch.members && ch'.invites == ch.invites
  {
    hide SetFlag, SetMask, ParseUsize;
  }

  lemma KeyUnapplied(ch: Channel, change: Change, keylen: nat, nickOf: map<Id, string>)
    requires ch.members.Keys <= nickOf.Keys
    ensures change.Key? ==>
              var (ch', o) := Apply(ch, change, keylen, nickOf);
              (o != Applied ==> ch' == ch) && ch'.members == ch.members && ch'.invites == ch.invites
  {
    hide SetFlag, SetMask, ParseUsize;
  }

  lemma ValueUnapplied(ch: Channel, change: Change, keylen: nat, nickOf: map<Id, string>)
    requires ch.members.Keys <= nickOf.Keys
    ensures change.UserLimit? || change.GetBans? || change.GetExceptions? || change.GetInvitations? ==>
              var (ch', o) := Apply(ch, change, keylen, nickOf);
              (o != Applied ==> ch' == ch) && ch'.members == ch.members && ch'.invites == ch.invites
  {
    hide SetFlag, SetMask, ParseUsize;
  }

  // ---- a whole request

  /** The channel after every item of a request, and the changes that were applied, in order. */
  ghost function ApplyAll(ch: Channel, items: seq<Item>, keylen: nat, nickOf: map<Id, string>): (r: (Channel, seq<Change>))
    requires ch.members.Keys <= nickOf.Keys
    ensures r.0.members.Keys == ch.members.Keys && r.0.invites == ch.invites
    decreases items
  {
    if items == [] then (ch, [])
    else if items[0].Bad? then ApplyAll(ch, items[1..], keylen, nickOf)
    else
      UnappliedKeeps(ch, items[0].change, keylen, nickOf);
      var (next, outcome) := Apply(ch, items[0].change, keylen, nickOf);
      var (final, applied) := ApplyAll(next, items[1..], keylen, nickOf);
      (final, (if outcome == Applied then [items[0].change] else []) + applied)
  }

  /** After "+b a" and "+b b,a", "-b a" is applied and announced, and whoever is called a is still banned. */
  lemma RemovedBanStays(keylen: nat)
    ensures var ch := Apply(EMPTY, ChangeBan(true, "a"), keylen, map[]).0;
            var twice := Apply(ch, ChangeBan(true, "b,a"), keylen, map[]).0;
            var (after, outcome) := Apply(twice, ChangeBan(false, "a"), keylen, map[]);
            outcome == Applied && after.IsBanned("a")
  {
    BanEdits();
    hide SetMask;
    BanEdit(EMPTY, true, "a", keylen);
    BanEdit(EMPTY.(banMask := "a"), true, "b,a", keylen);
    BanEdit(EMPTY.(banMask := "a,b,a"), false, "a", keylen);
    hide Apply;
    StillBanned(EMPTY.(banMask := "b,a"));
  }

  lemma BanEdit(ch: Channel, on: bool, mask: string, keylen: nat)
    requires ch.members == map[]
    ensures var (raw, o) := SetMask(ch.banMask, on, mask);
            Apply(ch, ChangeBan(on, mask), keylen, map[]) == (ch.(banMask := raw), o)
  {
    hide SetMask;
  }

  lemma BanEdits()
    ensures SetMask("", true, "a").0 == "a" && SetMask("a", true, "b,a").0 == "a,b,a"
    ensures SetMask("a,b,a", false, "a") == ("b,a", Applied)
  {
    RemovedMaskStays();
    SplitWhole("", ',');
    SplitWhole("a", ',');
    assert "a" != "b,a" by { assert |"b,a"| == 3; }
    SplitConcat("a", "b,a", ',');
    assert "a,b,a" == "a" + [','] + "b,a";
    assert Split("a", ',')[0] == "a";
    hide Split, RemoveRaw;
    assert (Split("a", ',') + Split("b,a", ','))[0] == "a";
  }

  lemma StillBanned(ch: Channel)
    requires ch.banMask == "b,a" && ch.exceptionMask == "" && ch.invexMask == ""
    ensures ch.IsBanned("a")
  {
    NoExceptions("a");
    RemovedMaskStays();
    NonEmptyElements(Entries("b,a"), "a");
    assert Matches("a", "a") by { assert "a"[1..] == ""; }
  }

  lemma NoExceptions(name: string)
    requires name != ""
    ensures !IsMatchRaw("", name)
  {
    SplitWhole("", ',');
  }

  // ---- what the issuer is answered

  /** One line of a list of masks, or a numeric. */
  datatype Reply = Listed(code: string, mask: string) | Answer(code: string)

  function ListReplies(code: string, end: string, raw: string): seq<Reply>
  {
    seq(|Entries(raw)|, k requires 0 <= k < |Entries(raw)| => Listed(code, Entries(raw)[k])) + [Answer(end)]
  }

  /** The answer to one item; a query for invitation masks is answered with the exception masks. */
  ghost function ItemReplies(ch: Channel, item: Item, keylen: nat, nickOf: map<Id, string>): seq<Reply>
    requires ch.members.Keys <= nickOf.Keys
  {
    match item
    case Bad(Unknown(_, _)) => [Answer("472")]
    case Bad(MissingParam(_, _)) => []
    case Good(GetBans) => ListReplies("367", "368", ch.banMask)
    case Good(GetExceptions) => ListReplies("348", "349", ch.exceptionMask)
    case Good(GetInvitations) => ListReplies("346", "347", ch.exceptionMask)
    case Good(change) => OutcomeReplies(Apply(ch, change, keylen, nickOf).1)
  }

  /** The listing of a mask set gives the text of the set away. */
  lemma ListingShowsText(code: string, end: string, a: string, b: string)
    ensures ListReplies(code, end, a) == ListReplies(code, end, b) <==> a == b
  {
    if ListReplies(code, end, a) == ListReplies(code, end, b) {
      var x, y := Entries(a), Entries(b);
      assert |ListReplies(code, end, a)| == |x| + 1 && |ListReplies(code, end, b)| == |y| + 1;
      forall k | 0 <= k < |x| ensures x[k] == y[k] {
        assert ListReplies(code, end, a)[k] == Listed(code, x[k]);
        assert ListReplies(code, end, b)[k] == Listed(code, y[k]);
      }
      assert x == y;
      JoinSplit(a, ',');
      JoinSplit(b, ',');
    }
  }

  /** The invitation masks are answered with themselves exactly when the exception masks are the same text. */
  lemma InvitationsAreListedIff(ch: Channel, keylen: nat, nickOf: map<Id, string>)
    requires ch.members.Keys <= nickOf.Keys
    ensures ItemReplies(ch, Good(GetInvitations), keylen, nickOf) == ListReplies("346", "347", ch.invexMask)
            <==> ch.exceptionMask == ch.invexMask
  {
    hide ListReplies;
    ListingShowsText("346", "347", ch.exceptionMask, ch.invexMask);
  }

  /** After "+I a" the query for invitation masks lists no mask. */
  lemma InvitationsAreNotListed(keylen: nat)
    ensures var (ch, outcome) := Apply(EMPTY, ChangeInvitation(true, "a"), keylen, map[]);
            && outcome == Applied && ch.invexMask == "a"
            && ItemReplies(ch, Good(GetInvitations), keylen, map[]) == [Listed("346", ""), Answer("347")]
            && ListReplies("346", "347", ch.invexMask) == [Listed("346", "a"), Answer("347")]
  {
    InvitationEdit(EMPTY, true, "a", keylen);
    hide Apply;
    ListsOne("346", "347", "");
    ListsOne("346", "347", "a");
    SplitWhole("", ',');
    hide ListReplies;
  }

  lemma InvitationEdit(ch: Channel, on: bool, mask: string, keylen: nat)
    requires ch.members == map[]
    ensures var (raw, o) := SetMask(ch.invexMask, on, mask);
            Apply(ch, ChangeInvitation(on, mask), keylen, map[]) == (ch.(invexMask := raw), o)
  {
    hide SetMask;
  }

  lemma ListsOne(code: string, end: string, raw: string)
    requires ',' !in raw
    ensures ListReplies(code, end, raw) == [Listed(code, raw), Answer(end)]
  {
    SplitWhole(raw, ',');
  }

  function OutcomeReplies(outcome: Outcome): seq<Reply>
  {
    match outcome
    case UserNotInChannel => [Answer("441")]
    case KeySet => [Answer("467")]
    case _ => []
  }

  /** The answers to a whole request, each item seeing the changes before it. */
  ghost function AllReplies(ch: Channel, items: seq<Item>, keylen: nat, nickOf: map<Id, string>): seq<Reply>
    requires ch.members.Keys <= nickOf.Keys
    decreases items
  {
    if items == [] then []
    else if items[0].Bad? then ItemReplies(ch, items[0], keylen, nickOf) + AllReplies(ch, items[1..], keylen, nickOf)
    else
      UnappliedKeeps(ch, items[0].change, keylen, nickOf);
      ItemReplies(ch, items[0], keylen, nickOf)
      + AllReplies(Apply(ch, items[0].change, keylen, nickOf).0, items[1..], keylen, nickOf)
  }

  // ---- new channels

  const USIZE_MAX: nat := 0xFFFF_FFFF_FFFF_FFFF

  /** `Channel::new`: an empty channel with the configured modes. */
  ghost function NewChannel(modes: string): Channel
  {
    ApplyAll(EMPTY, Query(modes, []), USIZE_MAX, map[]).0
  }

  lemma NewChannelIsEmpty(modes: string)
    ensures NewChannel(modes).members == map[] && NewChannel(modes).invites == {}
  {
  }

  /** Some item is refused, which `Channel::new` would turn into a panic. */
  ghost predicate SomeRefused(ch: Channel, items: seq<Item>)
    requires ch.members == map[]
    decreases items
  {
    if items == [] then false
    else if items[0].Bad? then SomeRefused(ch, items[1..])
    else
      UnappliedKeeps(ch, items[0].change, USIZE_MAX, map[]);
      var (next, o) := Apply(ch, items[0].change, USIZE_MAX, map[]);
      o == UserNotInChannel || o == KeySet || SomeRefused(next, items[1..])
  }

  lemma ParamlessChanges(value: bool, mode: char)
    ensures var (item, rest) := Interpret(value, mode, []);
            rest == [] && (item.Good? && item.change.Param().Some? ==> item.change == Key(false, "*"))
  {
  }

  lemma ParamlessAccepted(ch: Channel, change: Change)
    requires ch.members == map[] && ch.key == None
    requires change.Param().Some? ==> change == Key(false, "*")
    ensures var (next, o) := Apply(ch, change, USIZE_MAX, map[]);
            && next.members == map[] && next.key == None && (o == Applied || o == NoChange)
  {
    if change != Key(false, "*") {
      assert change.Param().None?;
      hide SetMask, SetFlag, ParseUsize;
    }
  }

  /** Without parameters no configured mode can be refused, so creating a channel never panics. */
  lemma {:induction false} DefaultModesNeverRefused(letters: seq<(bool, char)>, ch: Channel)
    requires ch.members == map[] && ch.key == None
    ensures !SomeRefused(ch, Items(letters, []))
  {
    if letters != [] {
      var item := Interpret(letters[0].0, letters[0].1, []).0;
      ParamlessChanges(letters[0].0, letters[0].1);
      assert Items(letters, [])[1..] == Items(letters[1..], []);
      if item.Bad? {
        DefaultModesNeverRefused(letters[1..], ch);
      } else {
        ParamlessAccepted(ch, item.change);
        DefaultModesNeverRefused(letters[1..], Apply(ch, item.change, USIZE_MAX, map[]).0);
      }
    }
  }

  // ---- the MODE notice is a faithful delta

  lemma QueriesChangeNothing(ch: Channel, change: Change, keylen: nat, nickOf: map<Id, string>)
    requires ch.members.Keys <= nickOf.Keys
    ensures change.IsQuery() ==> Apply(ch, change, keylen, nickOf) == (ch, NoChange)
  {
  }

  lemma {:induction false} AppliedArePrintable(ch: Channel, items: seq<Item>, keylen: nat, nickOf: map<Id, string>)
    requires ch.members.Keys <= nickOf.Keys
    requires forall item :: item in items ==> QueryOrPrintable(item)
    ensures forall c :: c in ApplyAll(ch, items, keylen, nickOf).1 ==> c.Printable()
    decreases items
  {
    hide Apply;
    if items != [] {
      assert QueryOrPrintable(items[0]);
      if items[0].Bad? {
        AppliedArePrintable(ch, items[1..], keylen, nickOf);
      } else {
        UnappliedKeeps(ch, items[0].change, keylen, nickOf);
        QueriesChangeNothing(ch, items[0].change, keylen, nickOf);
        AppliedArePrintable(Apply(ch, items[0].change, keylen, nickOf).0, items[1..], keylen, nickOf);
      }
    }
  }

  /** Replaying only the applied changes applies each of them and reaches the same channel. */
  lemma {:induction false} Replay(ch: Channel, items: seq<Item>, keylen: nat, nickOf: map<Id, string>)
    requires ch.members.Keys <= nickOf.Keys
    ensures var r := ApplyAll(ch, items, keylen, nickOf); ApplyAll(ch, Goods(r.1), keylen, nickOf) == r
    decreases items
  {
    hide Apply;
    if items != [] {
      if items[0].Bad? {
        Replay(ch, items[1..], keylen, nickOf);
      } else {
        UnappliedKeeps(ch, items[0].change, keylen, nickOf);
        var (next, outcome) := Apply(ch, items[0].change, keylen, nickOf);
        Replay(next, items[1..], keylen, nickOf);
        var (final, applied) := ApplyAll(next, items[1..], keylen, nickOf);
        if outcome == Applied {
          assert Goods([items[0].change] + applied)[1..] == Goods(applied);
        } else {
          assert [] + applied == applied;
        }
      }
    }
  }

  /**
   * For every MODE request, refused and useless changes included: parsing the broadcast letters and
   * parameters gives exactly the applied changes, and replaying them on the old channel gives the
   * channel the request led to.
   */
  lemma NoticeIsFaithfulDelta(ch: Channel, modes: string, params: seq<string>, keylen: nat, nickOf: map<Id, string>)
    requires ch.members.Keys <= nickOf.Keys
    ensures var (final, applied) := ApplyAll(ch, Query(modes, params), keylen, nickOf);
            var notice := Query(PrintModes(applied, None), PrintParams(applied));
            && notice == Goods(applied)
            && ApplyAll(ch, notice, keylen, nickOf) == (final, applied)
  {
    ParsedArePrintable(Letters(modes, true), NonEmptyParams(params));
    AppliedArePrintable(ch, Query(modes, params), keylen, nickOf);
    ParsePrinted(ApplyAll(ch, Query(modes, params), keylen, nickOf).1);
    Replay(ch, Query(modes, params), keylen, nickOf);
  }

  // ---- the loops of the source

  /** The search of `apply_mode_change` for a member by nickname, in any order. */
  method FindMember(members: map<Id, MemberModes>, nickOf: map<Id, string>, nick: string) returns (r: Option<Id>)
    requires members.Keys <= nickOf.Keys
    requires forall a, b :: a in members && b in members && nickOf[a] == nickOf[b] ==> a == b
    ensures r == MemberNamed(members, nickOf, nick)
  {
    var todo := members.Keys;
    while todo != {}
      invariant todo <= members.Keys
      invariant forall id :: id in members && id !in todo ==> nickOf[id] != nick
      decreases |todo|
    {
      var id :| id in todo;
      if nickOf[id] == nick { return Some(id); }
      todo := todo - {id};
    }
    return None;
  }

  method ChangeFlag(ch: Channel, nickOf: map<Id, string>, nick: string, flag: Flag, on: bool)
    returns (ch': Channel, outcome: Outcome)
    requires Nicknamed(ch, nickOf)
    ensures (ch', outcome) == SetFlag(ch, nickOf, nick, flag, on)
  {
    var found := FindMember(ch.members, nickOf, nick);
    match found
    case None => return ch, UserNotInChannel;
    case Some(id) =>
      var modes := ch.members[id];
      outcome := if modes.Has(flag) != on then Applied else NoChange;
      ch' := ch.(members := ch.members[id := modes.With(flag, on)]);
  }

  /** The member modes of `apply_mode_change`. */
  method ApplyMemberChange(ch: Channel, change: Change, keylen: nat, nickOf: map<Id, string>)
    returns (ch': Channel, outcome: Outcome)
    requires Nicknamed(ch, nickOf) && (change.ChangeOperator? || change.ChangeHalfop? || change.ChangeVoice?)
    ensures (ch', outcome) == Apply(ch, change, keylen, nickOf)
  {
    hide SetFlag, SetMask, ParseUsize, Nicknamed;
    match change
    case ChangeOperator(v, n) => ch', outcome := ChangeFlag(ch, nickOf, n, Operator, v);
    case ChangeHalfop(v, n) => ch', outcome := ChangeFlag(ch, nickOf, n, Halfop, v);
    case ChangeVoice(v, n) => ch', outcome := ChangeFlag(ch, nickOf, n, Voice, v);
  }

  /** The mask lists of `apply_mode_change`. */
  method ApplyMaskChange(ch: Channel, change: Change, keylen: nat, nickOf: map<Id, string>)
    returns (ch': Channel, outcome: Outcome)
    requires ch.members.Keys <= nickOf.Keys && (change.ChangeBan? || change.ChangeException? || change.ChangeInvitation?)
    ensures (ch', outcome) == Apply(ch, change, keylen, nickOf)
  {
    hide SetFlag, SetMask, ParseUsize, Members, Times;
    var raw, applied;
    match change
    case ChangeBan(v, m) =>
      raw, applied := ChangeMask(ch.banMask, v, m);
      ch', outcome := ch.(banMask := raw), if applied then Applied else NoChange;
    case ChangeException(v, m) =>
      raw, applied := ChangeMask(ch.exceptionMask, v, m);
      ch', outcome := ch.(exceptionMask := raw), if applied then Applied else NoChange;
    case ChangeInvitation(v, m) =>
      raw, applied := ChangeMask(ch.invexMask, v, m);
      ch', outcome := ch.(invexMask := raw), if applied then Applied else NoChange;
  }

  /** `apply_mode_change`. */
  method ApplyModeChange(ch: Channel, change: Change, keylen: nat, nickOf: map<Id, string>)
    returns (ch': Channel, outcome: Outcome)
    requires Nicknamed(ch, nickOf)
    ensures (ch', outcome) == Apply(ch, change, keylen, nickOf)
  {
    if change.ChangeOperator? || change.ChangeHalfop? || change.ChangeVoice? {
      ch', outcome := ApplyMemberChange(ch, change, keylen, nickOf);
    } else if change.ChangeBan? || change.ChangeException? || change.ChangeInvitation? {
      ch', outcome := ApplyMaskChange(ch, change, keylen, nickOf);
    } else {
      ch', outcome := ApplyPlainChange(ch, change, keylen, nickOf);
    }
  }

  /** The flags, the key and the limit of `apply_mode_change`. */
  method ApplyPlainChange(ch: Channel, change: Change, keylen: nat, nickOf: map<Id, string>)
    returns (ch': Channel, outcome: Outcome)
    requires ch.members.Keys <= nickOf.Keys && !change.ChangeOperator? && !change.ChangeHalfop? && !change.ChangeVoice?
    requires !change.ChangeBan? && !change.ChangeException? && !change.ChangeInvitation?
    ensures (ch', outcome) == Apply(ch, change, keylen, nickOf)
  {
    hide SetFlag, SetMask, ParseUsize;
    ch', outcome := ch, NoChange;
    match change
    case InviteOnly(v) => ch', outcome := ch.(inviteOnly := v), Flagged(v, ch.inviteOnly);
    case Moderated(v) => ch', outcome := ch.(moderated := v), Flagged(v, ch.moderated);
    case NoPrivMsgFromOutside(v) => ch', outcome := ch.(noMsgFromOutside := v), Flagged(v, ch.noMsgFromOutside);
    case Secret(v) => ch', outcome := ch.(secret := v), Flagged(v, ch.secret);
    case TopicRestricted(v) => ch', outcome := ch.(topicRestricted := v), Flagged(v, ch.topicRestricted);
    case Key(v, k) =>
      if v {
        if ch.key.Some? { return ch, KeySet; }
        ch', outcome := ch.(key := Some(k[..if |k| < keylen then |k| else keylen])), Applied;
      } else if ch.key.Some? {
        ch', outcome := ch.(key := None), Applied;
      }
    case UserLimit(Some(s)) =>
      var parsed := ParseUsize(s);
      if parsed.Some? {
        outcome := if ch.userLimit == parsed then NoChange else Applied;
        ch' := ch.(userLimit := parsed);
      }
    case UserLimit(None) => ch', outcome := ch.(userLimit := None), Flagged(false, ch.userLimit.Some?);
    case GetBans | GetExceptions | GetInvitations =>
  }

  /** Edits a mask list through the object of src/util.rs: as a set, while no mask is listed twice. */
  method ChangeMask(raw: string, on: bool, mask: string) returns (raw': string, applied: bool)
    ensures (raw', if applied then Applied else NoChange) == SetMask(raw, on, mask)
    ensures on && IsMask(mask) ==> Members(raw') == Members(raw) + {mask} && (applied <==> mask !in Members(raw))
    ensures !on ==> Members(raw') == if Times(raw, mask) <= 1 then Members(raw) - {mask} else Members(raw)
    ensures !on && mask != "" ==> (applied <==> mask in Members(raw))
  {
    var masks := new MaskSet();
    masks.raw := raw;
    if on {
      applied := masks.Insert(mask);
    } else {
      applied := masks.Remove(mask);
    }
    raw' := masks.raw;
  }

  /** `Channel::new`, once the configured modes are interpreted. */
  method CreateChannel(modes: string) returns (ch: Channel)
    ensures ch == NewChannel(modes)
  {
    var replies, appliedModes, appliedParams;
    ch, replies, appliedModes, appliedParams := ApplyRequest(EMPTY, modes, [], USIZE_MAX, map[]);
  }

  /** `MaskSet::is_match` on one of the channel's mask lists. */
  method ListMatches(raw: string, s: string) returns (r: bool)
    ensures r <==> IsMatchRaw(raw, s)
  {
    var masks := new MaskSet();
    masks.raw := raw;
    r := masks.IsMatch(s);
  }

  /** `is_banned`. */
  method TestBan(ch: Channel, name: string) returns (r: bool)
    ensures r <==> ch.IsBanned(name)
  {
    var banned := ListMatches(ch.banMask, name);
    var excepted := ListMatches(ch.exceptionMask, name);
    var invited := ListMatches(ch.invexMask, name);
    return banned && !excepted && !invited;
  }

  /** `is_invited`. */
  method TestInvitation(ch: Channel, id: Id, nick: string) returns (r: bool)
    ensures r <==> ch.IsInvited(id, nick)
  {
    var excepted := ListMatches(ch.invexMask, nick);
    return !ch.inviteOnly || id in ch.invites || excepted;
  }

  lemma {:induction false} PrintModesSnoc(done: seq<Change>, c: Change, last: Option<bool>)
    ensures PrintModes(done + [c], last) == PrintModes(done, last)
      + (if (if done == [] then last else Some(done[|done| - 1].Value())) == Some(c.Value()) then ""
         else if c.Value() then "+" else "-") + [c.Symbol()]
  {
    if done != [] {
      assert (done + [c])[1..] == done[1..] + [c];
      PrintModesSnoc(done[1..], c, Some(done[0].Value()));
    } else {
      assert ([] + [c])[1..] == [];
    }
  }

  lemma {:induction false} PrintParamsSnoc(done: seq<Change>, c: Change)
    ensures PrintParams(done + [c]) == PrintParams(done) + if c.Param().Some? then [c.Param().value] else []
  {
    if done != [] {
      assert (done + [c])[1..] == done[1..] + [c];
      PrintParamsSnoc(done[1..], c);
    } else {
      assert ([] + [c])[1..] == [];
    }
  }

  /** The notice being written while a request is interpreted. */
  class Notice {
    var modes: string
    var params: seq<string>
    var lastValue: bool
    ghost var changes: seq<Change>

    ghost predicate Valid()
      reads this
    {
      && modes == PrintModes(changes, None) && params == PrintParams(changes)
      && (changes != [] ==> lastValue == changes[|changes| - 1].Value())
      && (modes == "" <==> changes == [])
    }

    constructor ()
      ensures Valid() && changes == []
    {
      modes, params, lastValue, changes := "", [], true, [];
    }

    method Push(change: Change)
      requires Valid()
      modifies this
      ensures Valid() && changes == old(changes) + [change]
    {
      PrintModesSnoc(changes, change, None);
      PrintParamsSnoc(changes, change);
      if lastValue != change.Value() || modes == "" {
        modes := modes + if change.Value() then "+" else "-";
        lastValue := change.Value();
      }
      modes := modes + [change.Symbol()];
      if change.Param().Some? {
        params := params + [change.Param().value];
      }
      changes := changes + [change];
    }
  }

  /** What is left of a request after `done` changes were applied leads to the same result. */
  ghost predicate Underway(all: (Channel, seq<Change>), done: seq<Change>, ch: Channel, left: seq<Item>, keylen: nat,
                           nickOf: map<Id, string>)
    requires ch.members.Keys <= nickOf.Keys
  {
    var rest := ApplyAll(ch, left, keylen, nickOf);
    all == (rest.0, done + rest.1)
  }

  /** The masks of a list, each on a line of its own, and the line that ends the list. */
  method ListMasks(code: string, end: string, raw: string) returns (r: seq<Reply>)
    ensures r == ListReplies(code, end, raw)
  {
    var entries := Entries(raw);
    r := [];
    for k := 0 to |entries|
      invariant r == seq(k, i requires 0 <= i < k => Listed(code, entries[i]))
    {
      r := r + [Listed(code, entries[k])];
    }
    r := r + [Answer(end)];
  }

  /** One item of a request: the channel after it, what the issuer is answered, and whether it was applied. */
  method ApplyItem(ch: Channel, item: Item, keylen: nat, nickOf: map<Id, string>)
    returns (ch': Channel, replies: seq<Reply>, applied: bool)
    requires Nicknamed(ch, nickOf)
    ensures replies == ItemReplies(ch, item, keylen, nickOf)
    ensures item.Bad? ==> ch' == ch && !applied
    ensures item.Good? ==> (ch', applied) == (Apply(ch, item.change, keylen, nickOf).0,
                                              Apply(ch, item.change, keylen, nickOf).1 == Applied)
  {
    hide Apply;
    ch', replies, applied := ch, [], false;
    match item
    case Bad(Unknown(_, _)) => replies := [Answer("472")];
    case Bad(MissingParam(_, _)) =>
    case Good(change) =>
      if change.IsQuery() {
        QueriesChangeNothing(ch, change, keylen, nickOf);
        match change
        case GetBans => replies := ListMasks("367", "368", ch.banMask);
        case GetExceptions => replies := ListMasks("348", "349", ch.exceptionMask);
        case GetInvitations => replies := ListMasks("346", "347", ch.exceptionMask);
      } else {
        var outcome;
        ch', outcome := ApplyModeChange(ch, change, keylen, nickOf);
        replies, applied := OutcomeReplies(outcome), outcome == Applied;
      }
  }

  /** The loop of `cmd_mode_channel_set`: interprets the request, answers it, and writes the notice as it goes. */
  method ApplyRequest(ch0: Channel, modes: string, params: seq<string>, keylen: nat, nickOf: map<Id, string>)
    returns (ch: Channel, replies: seq<Reply>, appliedModes: string, appliedParams: seq<string>)
    requires Nicknamed(ch0, nickOf)
    ensures var (final, applied) := ApplyAll(ch0, Query(modes, params), keylen, nickOf);
            && ch == final && appliedModes == PrintModes(applied, None) && appliedParams == PrintParams(applied)
            && (appliedModes == "" <==> applied == [])
    ensures replies == AllReplies(ch0, Query(modes, params), keylen, nickOf)
  {
    hide ItemReplies;
    ch, replies := ch0, [];
    var notice := new Notice();
    ghost var all := ApplyAll(ch0, Query(modes, params), keylen, nickOf);
    ghost var answers := AllReplies(ch0, Query(modes, params), keylen, nickOf);
    assert [] + all.1 == all.1 && [] + answers == answers;
    var query := new ChannelQuery(modes, params);
    while true
      invariant Nicknamed(ch, nickOf) && notice.Valid()
      invariant fresh(notice) && fresh(query)
      invariant Underway(all, notice.changes, ch, query.Remaining(), keylen, nickOf)
      invariant Answering(answers, replies, ch, query.Remaining(), keylen, nickOf)
      decreases |query.modes|
    {
      ghost var left := query.Remaining();
      UnderwayFrom(all, notice.changes, ch, left, keylen, nickOf);
      AnsweringFrom(answers, replies, ch, left, keylen, nickOf);
      var item := query.Next();
      if item.None? { break; }
      assert left[0] == item.value && left[1..] == query.Remaining();
      var more, applied;
      ch, more, applied := ApplyItem(ch, item.value, keylen, nickOf);
      replies := replies + more;
      if applied {
        notice.Push(item.value.change);
      }
    }
    return ch, replies, notice.modes, notice.params;
  }

  /** The answers so far and those to what is left are all the answers. */
  ghost predicate Answering(all: seq<Reply>, done: seq<Reply>, ch: Channel, left: seq<Item>, keylen: nat,
                            nickOf: map<Id, string>)
    requires ch.members.Keys <= nickOf.Keys
  {
    all == done + AllReplies(ch, left, keylen, nickOf)
  }

  lemma AnsweringFrom(all: seq<Reply>, done: seq<Reply>, ch: Channel, left: seq<Item>, keylen: nat,
                      nickOf: map<Id, string>)
    requires ch.members.Keys <= nickOf.Keys && Answering(all, done, ch, left, keylen, nickOf)
    ensures left == [] ==> all == done
    ensures left != [] && left[0].Bad? ==>
              Answering(all, done + ItemReplies(ch, left[0], keylen, nickOf), ch, left[1..], keylen, nickOf)
    ensures left != [] && left[0].Good? ==>
              var next := Apply(ch, left[0].change, keylen, nickOf).0;
              && next.members.Keys == ch.members.Keys
              && Answering(all, done + ItemReplies(ch, left[0], keylen, nickOf), next, left[1..], keylen, nickOf)
  {
    hide Apply, ItemReplies;
    if left == [] {
      assert done + [] == done;
    } else {
      var now := ItemReplies(ch, left[0], keylen, nickOf);
      if left[0].Good? {
        UnappliedKeeps(ch, left[0].change, keylen, nickOf);
        var later := AllReplies(Apply(ch, left[0].change, keylen, nickOf).0, left[1..], keylen, nickOf);
        assert done + (now + later) == done + now + later;
      } else {
        var later := AllReplies(ch, left[1..], keylen, nickOf);
        assert done + (now + later) == done + now + later;
      }
    }
  }

  lemma UnderwayFrom(all: (Channel, seq<Change>), done: seq<Change>, ch: Channel, left: seq<Item>, keylen: nat,
                     nickOf: map<Id, string>)
    requires ch.members.Keys <= nickOf.Keys && Underway(all, done, ch, left, keylen, nickOf)
    ensures left == [] ==> all == (ch, done)
    ensures left != [] && left[0].Bad? ==> Underway(all, done, ch, left[1..], keylen, nickOf)
    ensures left != [] && left[0].Good? ==>
              var (next, o) := Apply(ch, left[0].change, keylen, nickOf);
              && next.members.Keys == ch.members.Keys
              && Underway(all, if o == Applied then done + [left[0].change] else done, next, left[1..], keylen, nickOf)
  {
    if left == [] {
      assert done + [] == done;
    } else if left[0].Good? {
      hide Apply;
      UnappliedKeeps(ch, left[0].change, keylen, nickOf);
      var (next, o) := Apply(ch, left[0].change, keylen, nickOf);
      var rest := ApplyAll(next, left[1..], keylen, nickOf);
      assert done + ([left[0].change] + rest.1) == done + [left[0].change] + rest.1;
      assert [] + rest.1 == rest.1;
    }
  }
}
