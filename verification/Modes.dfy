/** The channel MODE language: parser (ellidri-tokens/src/mode.rs) and the printer of MODE notices. */
module Modes {
  import opened Text

  /** One change asked for by a MODE request. */
  datatype Change =
    | InviteOnly(on: bool)
    | Moderated(on: bool)
    | NoPrivMsgFromOutside(on: bool)
    | Secret(on: bool)
    | TopicRestricted(on: bool)
    | Key(on: bool, param: string)
    | UserLimit(limit: Option<string>)
    | GetBans
    | GetExceptions
    | GetInvitations
    | ChangeBan(on: bool, param: string)
    | ChangeException(on: bool, param: string)
    | ChangeInvitation(on: bool, param: string)
    | ChangeOperator(on: bool, param: string)
    | ChangeHalfop(on: bool, param: string)
    | ChangeVoice(on: bool, param: string)
  {
    /** Whether the change sets or clears a mode. */
    function Value(): bool
    {
      match this
      case UserLimit(l) => l.Some?
      case GetBans | GetExceptions | GetInvitations => false
      case _ => on
    }

    function Symbol(): char
    {
      match this
      case InviteOnly(_) => 'i'
      case Moderated(_) => 'm'
      case NoPrivMsgFromOutside(_) => 'n'
      case Secret(_) => 's'
      case TopicRestricted(_) => 't'
      case Key(_, _) => 'k'
      case UserLimit(_) => 'l'
      case ChangeBan(_, _) | GetBans => 'b'
      case ChangeException(_, _) | GetExceptions => 'e'
      case ChangeInvitation(_, _) | GetInvitations => 'I'
      case ChangeOperator(_, _) => 'o'
      case ChangeHalfop(_, _) => 'h'
      case ChangeVoice(_, _) => 'v'
    }

    function Param(): Option<string>
    {
      match this
      case Key(_, p) => Some(p)
      case ChangeBan(_, p) => Some(p)
      case ChangeException(_, p) => Some(p)
      case ChangeInvitation(_, p) => Some(p)
      case ChangeOperator(_, p) => Some(p)
      case ChangeHalfop(_, p) => Some(p)
      case ChangeVoice(_, p) => Some(p)
      case UserLimit(l) => l
      case _ => None
    }

    predicate IsQuery()
    {
      GetBans? || GetExceptions? || GetInvitations?
    }

    /** A change that a notice can carry: no list query, and its parameter is not empty. */
    predicate Printable()
    {
      !IsQuery() && (Param().Some? ==> Param().value != "")
    }
  }

  datatype Error = Unknown(mode: char, value: bool) | MissingParam(mode: char, value: bool)

  datatype Item = Good(change: Change) | Bad(error: Error)

  // ---- letters with the sign in force

  /** The signed letters of a mode string, `value` being the sign in force at its start. */
  function Letters(modes: string, value: bool): seq<(bool, char)>
  {
    if modes == "" then []
    else if modes[0] == '+' then Letters(modes[1..], true)
    else if modes[0] == '-' then Letters(modes[1..], false)
    else [(value, modes[0])] + Letters(modes[1..], value)
  }

  /** Empty parameters are skipped. */
  function NonEmptyParams(params: seq<string>): (r: seq<string>)
    ensures forall p :: p in r ==> p != ""
  {
    if params == [] then []
    else if params[0] == "" then NonEmptyParams(params[1..])
    else [params[0]] + NonEmptyParams(params[1..])
  }

  /** A letter that needs a parameter takes the next one. */
  function TakeParam(params: seq<string>, make: string -> Change, missing: Item): (Item, seq<string>)
  {
    if params != [] then (Good(make(params[0])), params[1..]) else (missing, params)
  }

  /** What one signed letter asks for, and the parameters left. */
  function Interpret(value: bool, mode: char, params: seq<string>): (Item, seq<string>)
  {
    match mode
    case 'i' => (Good(InviteOnly(value)), params)
    case 'm' => (Good(Moderated(value)), params)
    case 'n' => (Good(NoPrivMsgFromOutside(value)), params)
    case 's' => (Good(Secret(value)), params)
    case 't' => (Good(TopicRestricted(value)), params)
    case 'k' => TakeParam(params, p => Key(value, p),
                          if value then Bad(MissingParam('k', value)) else Good(Key(false, "*")))
    case 'l' => if value then TakeParam(params, p => UserLimit(Some(p)), Bad(MissingParam('l', value)))
                else (Good(UserLimit(None)), params)
    case 'b' => TakeParam(params, p => ChangeBan(value, p), Good(GetBans))
    case 'e' => TakeParam(params, p => ChangeException(value, p), Good(GetExceptions))
    case 'I' => TakeParam(params, p => ChangeInvitation(value, p), Good(GetInvitations))
    case 'o' => TakeParam(params, p => ChangeOperator(value, p), Bad(MissingParam('o', value)))
    case 'h' => TakeParam(params, p => ChangeHalfop(value, p), Bad(MissingParam('h', value)))
    case 'v' => TakeParam(params, p => ChangeVoice(value, p), Bad(MissingParam('v', value)))
    case other => (Bad(Unknown(other, value)), params)
  }

  /** The items of the signed letters, parameters taken from left to right. */
  function Items(letters: seq<(bool, char)>, params: seq<string>): seq<Item>
  {
    if letters == [] then []
    else
      var (item, rest) := Interpret(letters[0].0, letters[0].1, params);
      [item] + Items(letters[1..], rest)
  }

  /** `channel_query`: everything a MODE request asks for. */
  function Query(modes: string, params: seq<string>): seq<Item>
  {
    Items(Letters(modes, true), NonEmptyParams(params))
  }

  /** The iterator `channel_query` returns. */
  class ChannelQuery {
    var modes: string
    var value: bool
    var params: seq<string>

    /** The items still to come. */
    ghost function Remaining(): seq<Item>
      reads this
    {
      Items(Letters(modes, value), params)
    }

    constructor (modes: string, params: seq<string>)
      ensures Remaining() == Query(modes, params)
    {
      this.modes := modes;
      value := true;
      this.params := NonEmptyParams(params);
    }

    /** `SimpleQuery::next`: the next letter with the sign in force. */
    method NextLetter() returns (r: Option<(bool, char)>)
      modifies this`modes, this`value
      ensures r.None? <==> Letters(old(modes), old(value)) == []
      ensures r.Some? ==> [r.value] + Letters(modes, value) == Letters(old(modes), old(value))
      ensures r.Some? ==> |modes| < |old(modes)|
    {
      while modes != ""
        invariant Letters(modes, value) == Letters(old(modes), old(value))
        invariant |modes| <= |old(modes)|
        decreases |modes|
      {
        var c := modes[0];
        modes := modes[1..];
        if c == '+' {
          value := true;
        } else if c == '-' {
          value := false;
        } else {
          return Some((value, c));
        }
      }
      return None;
    }

    method Next() returns (r: Option<Item>)
      modifies this
      ensures r.None? <==> old(Remaining()) == []
      ensures r.Some? ==> [r.value] + Remaining() == old(Remaining())
      ensures r.Some? ==> |modes| < |old(modes)|
    {
      var letter := NextLetter();
      if letter.None? { return None; }
      var (item, rest) := Interpret(letter.value.0, letter.value.1, params);
      ghost var all := Letters(old(modes), old(value));
      assert all[1..] == Letters(modes, value);
      params := rest;
      return Some(item);
    }
  }

  // ---- user modes

  datatype UserChange = Invisible(on: bool) | DeOperator
  {
    function Value(): bool { Invisible? && on }
    function Symbol(): char { if Invisible? then 'i' else 'o' }
  }

  datatype UserItem = UserGood(change: UserChange) | UserUnknown(mode: char) | UserUnchangeable(mode: char)

  /** What one signed letter asks of a user's modes: only giving up being an operator can be asked for. */
  function UserInterpret(value: bool, mode: char): UserItem
  {
    if mode == 'i' then UserGood(Invisible(value))
    else if mode == 'o' && !value then UserGood(DeOperator)
    else if mode == 'a' || mode == 'o' then UserUnchangeable(mode)
    else UserUnknown(mode)
  }

  /** `user_query`. */
  function UserQuery(modes: string): seq<UserItem>
  {
    var letters := Letters(modes, true);
    seq(|letters|, k requires 0 <= k < |letters| => UserInterpret(letters[k].0, letters[k].1))
  }

  // ---- the printer

  /** The mode letters of a notice; a sign is written when it differs from the last one written. */
  function PrintModes(changes: seq<Change>, last: Option<bool>): string
  {
    if changes == [] then ""
    else
      var c := changes[0];
      (if last == Some(c.Value()) then "" else if c.Value() then "+" else "-")
      + [c.Symbol()] + PrintModes(changes[1..], Some(c.Value()))
  }

  function PrintParams(changes: seq<Change>): seq<string>
  {
    if changes == [] then []
    else (if changes[0].Param().Some? then [changes[0].Param().value] else []) + PrintParams(changes[1..])
  }

  function Goods(changes: seq<Change>): seq<Item>
  {
    seq(|changes|, i requires 0 <= i < |changes| => Good(changes[i]))
  }

  /** The sign and the letter of a change read back as that sign and letter. */
  lemma LettersOfPrinted(c: Change, value: bool, rest: string)
    ensures Letters([c.Symbol()] + rest, value) == [(value, c.Symbol())] + Letters(rest, value)
    ensures Letters((if c.Value() then "+" else "-") + [c.Symbol()] + rest, value)
         == [(c.Value(), c.Symbol())] + Letters(rest, c.Value())
  {
  }

  /** The signed letters of some changes. */
  function SignedLetters(changes: seq<Change>): seq<(bool, char)>
  {
    if changes == [] then [] else [(changes[0].Value(), changes[0].Symbol())] + SignedLetters(changes[1..])
  }

  lemma PrintModesStep(changes: seq<Change>, last: Option<bool>)
    requires changes != []
    ensures var c, rest := changes[0], PrintModes(changes[1..], Some(changes[0].Value()));
            && (last == Some(c.Value()) ==> PrintModes(changes, last) == [c.Symbol()] + rest)
            && (last != Some(c.Value()) ==>
                  PrintModes(changes, last) == (if c.Value() then "+" else "-") + [c.Symbol()] + rest)
  {
    assert "" + [changes[0].Symbol()] == [changes[0].Symbol()];
  }

  lemma {:induction false} LettersOfNotice(changes: seq<Change>, last: Option<bool>, value: bool)
    requires last.Some? ==> last.value == value
    ensures Letters(PrintModes(changes, last), value) == SignedLetters(changes)
  {
    if changes != [] {
      hide Letters, PrintModes;
      var c, rest := changes[0], PrintModes(changes[1..], Some(changes[0].Value()));
      LettersOfNotice(changes[1..], Some(c.Value()), c.Value());
      LettersOfPrinted(c, value, rest);
      PrintModesStep(changes, last);
    }
  }

  lemma InterpretPrinted(c: Change, params: seq<string>)
    requires c.Printable()
    ensures Interpret(c.Value(), c.Symbol(), (if c.Param().Some? then [c.Param().value] else []) + params)
         == (Good(c), params)
  {
    if c.Param().Some? {
      assert ([c.Param().value] + params)[1..] == params;
    } else {
      assert [] + params == params;
    }
  }

  lemma {:induction false} ItemsOfNotice(changes: seq<Change>)
    requires forall c :: c in changes ==> c.Printable()
    ensures Items(SignedLetters(changes), PrintParams(changes)) == Goods(changes)
  {
    if changes != [] {
      var tail := changes[1..];
      InterpretPrinted(changes[0], PrintParams(tail));
      ItemsOfNotice(tail);
      assert Goods(changes) == [Good(changes[0])] + Goods(tail);
    }
  }

  /** The letters of the changes find the changes' own parameters among `q`; a bare -k needs none. */
  predicate Serves(changes: seq<Change>, q: seq<string>)
  {
    changes == [] ||
    (var c, rest := changes[0], changes[1..];
     if c.Param().None? then Serves(rest, q)
     else if q != [] then q[0] == c.Param().value && Serves(rest, q[1..])
     else c == Key(false, "*") && Serves(rest, []))
  }

  lemma InterpretServed(c: Change, q: seq<string>)
    requires c.Printable()
    ensures var (item, rest) := Interpret(c.Value(), c.Symbol(), q);
            && (c.Param().None? ==> item == Good(c) && rest == q)
            && (c.Param().Some? && q != [] ==> (item == Good(c) <==> q[0] == c.Param().value) && rest == q[1..])
            && (c.Param().Some? && q == [] ==> (item == Good(c) <==> c == Key(false, "*")) && rest == [])
  {
  }

  /** Printed letters with any parameters ask for the changes exactly when the parameters serve them. */
  lemma {:induction false} ServesIff(changes: seq<Change>, q: seq<string>)
    requires forall c :: c in changes ==> c.Printable()
    ensures Items(SignedLetters(changes), q) == Goods(changes) <==> Serves(changes, q)
  {
    if changes != [] {
      var c, tail := changes[0], changes[1..];
      InterpretServed(c, q);
      var (item, rest) := Interpret(c.Value(), c.Symbol(), q);
      ServesIff(tail, rest);
      hide Interpret;
      assert Goods(changes) == [Good(c)] + Goods(tail);
      assert SignedLetters(changes)[1..] == SignedLetters(tail);
      var items := Items(SignedLetters(tail), rest);
      assert ([item] + items)[0] == item && ([item] + items)[1..] == items;
      assert ([Good(c)] + Goods(tail))[0] == Good(c) && ([Good(c)] + Goods(tail))[1..] == Goods(tail);
    }
  }

  lemma {:induction false} PrintedParamsKept(changes: seq<Change>)
    requires forall c :: c in changes ==> c.Printable()
    ensures NonEmptyParams(PrintParams(changes)) == PrintParams(changes)
  {
    if changes != [] {
      assert changes[0].Printable();
      PrintedParamsKept(changes[1..]);
      if changes[0].Param().Some? {
        assert PrintParams(changes)[1..] == PrintParams(changes[1..]);
      } else {
        assert PrintParams(changes) == PrintParams(changes[1..]);
      }
    }
  }

  /** Parsing a printed notice gives back exactly the changes it was printed from, in order. */
  lemma ParsePrinted(changes: seq<Change>)
    requires forall c :: c in changes ==> c.Printable()
    ensures Query(PrintModes(changes, None), PrintParams(changes)) == Goods(changes)
  {
    LettersOfNotice(changes, None, true);
    ItemsOfNotice(changes);
    PrintedParamsKept(changes);
  }

  /** Every change that a request parses to can be printed, list queries aside. */
  predicate QueryOrPrintable(item: Item)
  {
    item.Good? && !item.change.IsQuery() ==> item.change.Printable()
  }

  lemma InterpretPrintable(value: bool, mode: char, params: seq<string>)
    requires forall p :: p in params ==> p != ""
    ensures QueryOrPrintable(Interpret(value, mode, params).0)
    ensures forall p :: p in Interpret(value, mode, params).1 ==> p != ""
  {
    if params != [] {
      assert params[0] in params && forall p :: p in params[1..] ==> p in params;
    }
    var rest := Interpret(value, mode, params).1;
    assert rest == params || (params != [] && rest == params[1..]);
  }

  lemma {:induction false} ParsedArePrintable(letters: seq<(bool, char)>, params: seq<string>)
    requires forall p :: p in params ==> p != ""
    ensures forall item :: item in Items(letters, params) ==> QueryOrPrintable(item)
  {
    if letters != [] {
      InterpretPrintable(letters[0].0, letters[0].1, params);
      ParsedArePrintable(letters[1..], Interpret(letters[0].0, letters[0].1, params).1);
    }
  }
}
