/** What the alphabet of nicknames is good for: a nickname is a mask of its own, and one word of a line. */
module Nicknames {
  import opened Text
  import opened Names
  import opened Glob
  import MaskSets
  import Messages
  import RT = RoundTrip

  lemma {:induction false} PlainMask(mask: string, s: string)
    requires '*' !in mask && '?' !in mask
    ensures Matches(mask, s) <==> s == mask
    decreases |mask|
  {
    if mask != "" && s != "" {
      PlainMask(mask[1..], s[1..]);
      assert s == [s[0]] + s[1..] && mask == [mask[0]] + mask[1..];
    }
  }

  /** Used as a mask, a nickname is one mask and matches itself and nothing else. */
  lemma OwnMask(nick: string, s: string)
    requires IsNickname(nick)
    ensures MaskSets.IsMask(nick) && (Matches(nick, s) <==> s == nick)
  {
    assert forall k :: 0 <= k < |nick| ==> IsValidChar(nick[k]) && !IsWildcard(nick[k]);
    PlainMask(nick, s);
  }

  /** A nickname is one word of a line unless it holds a NUL or has white space at an end. */
  lemma OneWord(nick: string)
    requires IsNickname(nick)
    ensures RT.Middle(nick) <==>
              Messages.NUL !in nick && !IsWhitespace(nick[0]) && !IsWhitespace(nick[|nick| - 1])
  {
  }
}
