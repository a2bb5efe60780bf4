/**
  The poll app's mock authentication over `localStorage`: the current user id
  under `user_id` and one `voted_poll_<id>` flag per poll voted in. The store is
  a map from keys to string values; each operation is a specification function
  on that map and a method on the `Storage` object that performs it.
*/
module MockAuth {
  import opened Wrappers
  import opened JsStrings

  const UserKey := "user_id"
  const VotedPrefix := "voted_poll_"
  const DefaultUserId := 1

  function VotedKey(pollId: int): string {
    VotedPrefix + IntToString(pollId)
  }

  /** What `getMockUserId` returns (`None` for `NaN`) and the store it leaves. */
  datatype UserIdRead = UserIdRead(id: Option<int>, store: map<string, string>)

  /** `getMockUserId()`: a non-empty stored id is parsed; otherwise 1 is stored and
      returned. */
  function ReadUserId(store: map<string, string>): (r: UserIdRead)
    ensures UserKey in store && store[UserKey] != [] ==> r == UserIdRead(ParseInt(store[UserKey]), store)
    ensures !(UserKey in store && store[UserKey] != []) ==>
      r.id == Some(DefaultUserId) && r.store == store[UserKey := "1"]
  {
    if UserKey in store && store[UserKey] != [] then UserIdRead(ParseInt(store[UserKey]), store)
    else UserIdRead(Some(DefaultUserId), WithUserId(store, DefaultUserId))
  }

  /** `setMockUserId(n)`. */
  function WithUserId(store: map<string, string>, userId: int): map<string, string> {
    store[UserKey := IntToString(userId)]
  }

  /** `clearMockUserId()`. */
  function WithoutUserId(store: map<string, string>): map<string, string> {
    store - {UserKey}
  }

  /** `hasVotedForPoll(p)`: the stored flag is exactly "true". */
  predicate HasVoted(store: map<string, string>, pollId: int) {
    VotedKey(pollId) in store && store[VotedKey(pollId)] == "true"
  }

  /** `markPollAsVoted(p)`. */
  function MarkVoted(store: map<string, string>, pollId: int): map<string, string> {
    store[VotedKey(pollId) := "true"]
  }

  /** `clearVotedStatus(p)`. */
  function ClearVoted(store: map<string, string>, pollId: int): map<string, string> {
    store - {VotedKey(pollId)}
  }

  /** `clearAllVotedStatuses()`: every key with the voted prefix removed. */
  function ClearAllVoted(store: map<string, string>): (r: map<string, string>)
    ensures forall k :: k in r <==> k in store && !StartsWith(k, VotedPrefix)
    ensures forall k :: k in r ==> r[k] == store[k]
  {
    map k | k in store && !StartsWith(k, VotedPrefix) :: store[k]
  }

  lemma VotedKeyInjective(p: int, q: int)
    requires VotedKey(p) == VotedKey(q)
    ensures p == q
  {
    assert VotedKey(p)[|VotedPrefix|..] == IntToString(p);
    assert VotedKey(q)[|VotedPrefix|..] == IntToString(q);
    IntToStringInjective(p, q);
  }

  /** After marking poll `p`, `p` reads as voted and every other poll reads as before. */
  lemma MarkThenHasVoted(store: map<string, string>, p: int, q: int)
    ensures HasVoted(MarkVoted(store, p), p)
    ensures q != p ==> HasVoted(MarkVoted(store, p), q) == HasVoted(store, q)
  {
    if q != p && VotedKey(q) == VotedKey(p) {
      VotedKeyInjective(p, q);
    }
  }

  /** Clearing poll `p` makes it read as not voted and touches no other key. */
  lemma ClearVotedIsLocal(store: map<string, string>, p: int)
    ensures !HasVoted(ClearVoted(store, p), p)
    ensures forall k :: k != VotedKey(p) ==> (k in ClearVoted(store, p) <==> k in store)
    ensures forall k :: k in ClearVoted(store, p) ==> ClearVoted(store, p)[k] == store[k]
  {
  }

  /** After clearing all, no poll reads as voted, and the user id is kept. */
  lemma ClearAllVotedKeepsOthers(store: map<string, string>, p: int)
    ensures !HasVoted(ClearAllVoted(store), p)
    ensures UserKey in store ==> UserKey in ClearAllVoted(store) && ClearAllVoted(store)[UserKey] == store[UserKey]
  {
    assert VotedKey(p)[..|VotedPrefix|] == VotedPrefix;
    assert !StartsWith(UserKey, VotedPrefix);
  }

  /** `setMockUserId(n)` then `getMockUserId()` gives `n` back and stores nothing new. */
  lemma SetThenGet(store: map<string, string>, n: int)
    ensures ReadUserId(WithUserId(store, n)) == UserIdRead(Some(n), WithUserId(store, n))
  {
    ParseIntOfIntToString(n, []);
    assert IntToString(n) + [] == IntToString(n);
  }

  /** `clearMockUserId()` then `getMockUserId()` gives the default 1, which is stored,
      and a second read gives 1 again without writing. */
  lemma ClearThenGet(store: map<string, string>)
    ensures ReadUserId(WithoutUserId(store)).id == Some(DefaultUserId)
    ensures var after := ReadUserId(WithoutUserId(store)).store;
      ReadUserId(after) == UserIdRead(Some(DefaultUserId), after)
  {
    SetThenGet(WithoutUserId(store), DefaultUserId);
  }

  /** `getMockUserInfo()`'s result (`isMock` is always true). */
  datatype UserInfo = UserInfo(id: Option<int>, username: string)

  /** `String(id)` for what `getMockUserId` returns, `NaN` included. */
  function IdText(id: Option<int>): string {
    if id.Some? then IntToString(id.value) else "NaN"
  }

  /** The browser's `localStorage` for this origin. */
  class Storage {
    var store: map<string, string>

    constructor(initial: map<string, string>)
      ensures store == initial
    {
      store := initial;
    }

    method GetMockUserId() returns (id: Option<int>)
      modifies this
      ensures UserIdRead(id, store) == ReadUserId(old(store))
    {
      if UserKey in store && store[UserKey] != [] {
        return ParseInt(store[UserKey]);
      }
      SetMockUserId(DefaultUserId);
      id := Some(DefaultUserId);
    }

    /** `getMockUserInfo()`: the current id, read as `getMockUserId` does, and the
        username `user_<id>`. */
    method GetMockUserInfo() returns (info: UserInfo)
      modifies this
      ensures info.id == ReadUserId(old(store)).id && store == ReadUserId(old(store)).store
      ensures info.username == "user_" + IdText(info.id)
    {
      var id := GetMockUserId();
      info := UserInfo(id, "user_" + IdText(id));
    }

    method SetMockUserId(userId: int)
      modifies this
      ensures store == WithUserId(old(store), userId)
    {
      store := store[UserKey := IntToString(userId)];
    }

    method ClearMockUserId()
      modifies this
      ensures store == WithoutUserId(old(store))
    {
      store := store - {UserKey};
    }

    function HasVotedForPoll(pollId: int): (voted: bool)
      reads this
      ensures voted <==> HasVoted(store, pollId)
    {
      var key := VotedKey(pollId);
      key in store && store[key] == "true"
    }

    method MarkPollAsVoted(pollId: int)
      modifies this
      ensures store == MarkVoted(old(store), pollId)
    {
      store := store[VotedKey(pollId) := "true"];
    }

    method ClearVotedStatus(pollId: int)
      modifies this
      ensures store == ClearVoted(old(store), pollId)
    {
      store := store - {VotedKey(pollId)};
    }

    /** `clearAllVotedStatuses()`: walk the keys present at the start, removing each
        one with the voted prefix. */
    method ClearAllVotedStatuses()
      modifies this
      ensures store == ClearAllVoted(old(store))
    {
      ghost var original := store;
      var keys := store.Keys;
      ghost var visited: set<string> := {};
      KeptNothing(original);
      while keys != {}
        invariant keys !! visited && keys + visited == original.Keys
        invariant store == Kept(original, visited)
        decreases |keys|
      {
        var key :| key in keys;
        KeptStep(original, visited, key);
        if StartsWith(key, VotedPrefix) {
          store := store - {key};
        }
        keys := keys - {key};
        visited := visited + {key};
      }
      KeptAll(original, visited);
    }
  }

  /** The store once the keys of `visited` have been walked. */
  ghost function Kept(original: map<string, string>, visited: set<string>): map<string, string> {
    map k | k in original && !(k in visited && StartsWith(k, VotedPrefix)) :: original[k]
  }

  lemma KeptNothing(original: map<string, string>)
    ensures Kept(original, {}) == original
  {
  }

  lemma KeptStep(original: map<string, string>, visited: set<string>, key: string)
    requires key !in visited
    ensures Kept(original, visited + {key}) ==
      if StartsWith(key, VotedPrefix) then Kept(original, visited) - {key} else Kept(original, visited)
  {
  }

  lemma KeptAll(original: map<string, string>, visited: set<string>)
    requires visited == original.Keys
    ensures Kept(original, visited) == ClearAllVoted(original)
  {
  }
}
