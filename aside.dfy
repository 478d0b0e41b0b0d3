/**
 * The chat search of the sidebar: the chats, in the registry's order, whose title
 * contains the filter text regardless of letter case.
 */
module Aside {
  import opened Common
  import opened Strings
  import opened JsObject
  import opened Chats

  /** `r` can be obtained from `s` by dropping elements. */
  predicate IsSubsequence<T(==)>(r: seq<T>, s: seq<T>) {
    r == [] || (s != [] && ((r[0] == s[0] && IsSubsequence(r[1..], s[1..])) || IsSubsequence(r, s[1..])))
  }

  /**
   * The filter's test for one chat: it has a title, and the lower-cased title
   * includes the lower-cased filter. A chat without a title never passes.
   */
  predicate Matches(chat: Chat, filter: string): (b: bool)
    ensures b <==> chat.title.Some? && exists i :: OccursAt(Lower(chat.title.value), Lower(filter), i)
  {
    chat.title.Some? && Includes(Lower(chat.title.value), Lower(filter))
  }

  /**
   * `chats.filter(...)`: keeps exactly the chats that pass the test, in their
   * original order.
   */
  function FilterChats(chats: seq<Chat>, filter: string): (r: seq<Chat>)
    ensures forall c :: c in r <==> c in chats && Matches(c, filter)
    ensures IsSubsequence(r, chats)
    ensures |r| <= |chats|
    ensures forall c :: multiset(r)[c] == if Matches(c, filter) then multiset(chats)[c] else 0
  {
    if chats == [] then []
    else
      var rest := FilterChats(chats[1..], filter);
      assert chats == [chats[0]] + chats[1..];
      assert multiset(chats) == multiset{chats[0]} + multiset(chats[1..]);
      if Matches(chats[0], filter) then
        assert ([chats[0]] + rest)[1..] == rest;
        [chats[0]] + rest
      else
        rest
  }

  /** `filteredChatList`: the filter over `Object.values(chatList)`. */
  function FilteredChatList(keys: seq<string>, chatList: map<string, Chat>, filter: string): (r: seq<Chat>)
    requires forall k :: k in keys ==> k in chatList
    ensures forall c :: c in r ==> c.title.Some? && Includes(Lower(c.title.value), Lower(filter))
    ensures forall k :: k in keys && Matches(chatList[k], filter) ==> chatList[k] in r
    ensures forall c :: c in r ==> exists k :: k in keys && chatList[k] == c
  {
    var values := Values(keys, chatList);
    assert forall k :: k in keys ==> chatList[k] in values by {
      forall k | k in keys ensures chatList[k] in values {
        var i :| 0 <= i < |keys| && keys[i] == k;
        assert values[i] == chatList[k];
      }
    }
    FilterChats(values, filter)
  }

  /** With an empty filter the list holds exactly the chats that have a title. */
  lemma EmptyFilter(chats: seq<Chat>)
    ensures forall c :: c in FilterChats(chats, "") <==> c in chats && c.title.Some?
  {
    forall c | c in chats && c.title.Some? ensures Matches(c, "") {
      IncludesEmpty(Lower(c.title.value));
    }
  }

  /** A subsequence only holds elements of the sequence it was taken from. */
  lemma {:induction false} SubsequenceElements<T>(r: seq<T>, s: seq<T>)
    requires IsSubsequence(r, s)
    ensures forall x :: x in r ==> x in s
    decreases |s|
  {
    if r != [] {
      if r[0] == s[0] && IsSubsequence(r[1..], s[1..]) {
        SubsequenceElements(r[1..], s[1..]);
        assert r == [r[0]] + r[1..];
      } else {
        SubsequenceElements(r, s[1..]);
      }
    }
  }

  /** A subsequence of a sequence without duplicates has none either. */
  lemma {:induction false} SubsequenceDistinct<T>(r: seq<T>, s: seq<T>)
    requires IsSubsequence(r, s) && Distinct(s)
    ensures Distinct(r)
    decreases |s|
  {
    if r != [] {
      if r[0] == s[0] && IsSubsequence(r[1..], s[1..]) {
        SubsequenceDistinct(r[1..], s[1..]);
        SubsequenceElements(r[1..], s[1..]);
        DistinctCons(r[0], r[1..]);
        assert r == [r[0]] + r[1..];
      } else {
        SubsequenceDistinct(r, s[1..]);
      }
    }
  }

  /**
   * With every chat stored under its own id, the filtered list holds no chat twice:
   * it is taken in order from the registry's values, which are all different.
   */
  lemma FilteredChatListDistinct(keys: seq<string>, chatList: map<string, Chat>, filter: string)
    requires KeyOrder(keys, chatList)
    requires forall k :: k in chatList ==> chatList[k].id == k
    ensures Distinct(FilteredChatList(keys, chatList, filter))
    ensures IsSubsequence(FilteredChatList(keys, chatList, filter), Values(keys, chatList))
  {
    var values := Values(keys, chatList);
    assert Distinct(values) by {
      forall i, j | 0 <= i < j < |values| ensures values[i] != values[j] {
        assert values[i].id == keys[i] && values[j].id == keys[j];
      }
    }
    SubsequenceDistinct(FilterChats(values, filter), values);
  }
}
