/**
  The simulated "who else is studying" map (components/LightMapModal.tsx).
  Every call to `Math.random` is replaced by an oracle parameter whose range
  is the range the source's expression produces.
*/
module LightMap {
  import opened Wrappers
  import opened Types
  import opened JsText

  /** How many simulated users the effect creates. */
  const USER_COUNT: nat := 20

  const STUDY_MESSAGES: seq<string> := [
    "토익 공부중", "미적분학", "중간고사", "졸려요",
    "코딩 테스트", "자격증", "수능 대박", "빡공",
    "잠깐 휴식", "달리는 중", "밤샘각", "파이팅"
  ]

  /** The id of the `i`-th simulated user, `user-${i}`. */
  function UserId(i: nat): (id: string)
    ensures |id| > 5 && id[..5] == "user-"
  {
    "user-" + DecimalString(i)
  }

  /** No two simulated users share an id (they serve as React keys). */
  lemma UserIdsDistinct(i: nat, j: nat)
    requires i != j
    ensures UserId(i) != UserId(j)
  {
    if UserId(i) == UserId(j) {
      assert DecimalString(i) == UserId(i)[5..] == UserId(j)[5..] == DecimalString(j);
      DecimalStringInjective(i, j);
    }
  }

  // ---------------------------------------------------------------------------
  // The Fisher-Yates shuffle of `indices`
  // ---------------------------------------------------------------------------

  /** `[0, 1, ..., n - 1]`, the array `Array.from({ length: n }, (_, i) => i)`. */
  function Range(n: nat): (r: seq<int>)
    ensures |r| == n && forall k :: 0 <= k < n ==> r[k] == k
  {
    seq(n, k => k)
  }

  /**
    The oracle for the shuffle: `picks[i]` stands for
    `Math.floor(Math.random() * (i + 1))`, which lies in `0..i`.
    `picks[0]` is never used.
  */
  predicate ValidPicks(picks: seq<nat>, n: nat) {
    |picks| == n && forall i :: 0 < i < n ==> picks[i] <= i
  }

  /** `[s[i], s[j]] = [s[j], s[i]]`. */
  function Swap(s: seq<int>, i: nat, j: nat): (r: seq<int>)
    requires i < |s| && j < |s|
    ensures |r| == |s| && r[i] == s[j] && r[j] == s[i]
    ensures forall k :: 0 <= k < |s| && k != i && k != j ==> r[k] == s[k]
  {
    s[i := s[j]][j := s[i]]
  }

  /** The loop's remaining work from index `i` down to 1: swap `i` with `picks[i]`, then go on with `i - 1`. */
  function Shuffled(s: seq<int>, picks: seq<nat>, i: nat): (r: seq<int>)
    requires i < |s| && ValidPicks(picks, |s|)
    ensures |r| == |s|
    decreases i
  {
    if i == 0 then s else Shuffled(Swap(s, i, picks[i]), picks, i - 1)
  }

  lemma SwapPermutes(s: seq<int>, i: nat, j: nat)
    requires i < |s| && j < |s|
    ensures multiset(Swap(s, i, j)) == multiset(s)
  {
    if i != j {
      var t := s[i := s[j]];
      assert multiset(t) == multiset(s) - multiset{s[i]} + multiset{s[j]};
      assert multiset(t[j := s[i]]) == multiset(t) - multiset{t[j]} + multiset{s[i]};
    }
  }

  /** The shuffle only reorders: it is a permutation of its input. */
  lemma {:induction false} ShuffledPermutes(s: seq<int>, picks: seq<nat>, i: nat)
    requires i < |s| && ValidPicks(picks, |s|)
    ensures multiset(Shuffled(s, picks, i)) == multiset(s)
    decreases i
  {
    if i > 0 {
      SwapPermutes(s, i, picks[i]);
      ShuffledPermutes(Swap(s, i, picks[i]), picks, i - 1);
    }
  }

  /** Every entry is a valid index into a list of length `n`. */
  predicate AllBelow(s: seq<int>, n: nat) {
    forall k :: 0 <= k < |s| ==> 0 <= s[k] < n
  }

  predicate Distinct(s: seq<int>) {
    forall a, b :: 0 <= a < b < |s| ==> s[a] != s[b]
  }

  /** The shuffle keeps distinct entries distinct. */
  lemma {:induction false} ShuffledDistinct(s: seq<int>, picks: seq<nat>, i: nat)
    requires i < |s| && ValidPicks(picks, |s|)
    requires Distinct(s)
    ensures Distinct(Shuffled(s, picks, i))
    decreases i
  {
    if i > 0 {
      var t := Swap(s, i, picks[i]);
      forall a, b | 0 <= a < b < |t| ensures t[a] != t[b] {
        var a', b' := if a == i then picks[i] else if a == picks[i] then i else a,
                      if b == i then picks[i] else if b == picks[i] then i else b;
        assert t[a] == s[a'] && t[b] == s[b'] && a' != b';
      }
      ShuffledDistinct(t, picks, i - 1);
    }
  }

  /** Shuffling `0..n-1` gives a permutation of `0..n-1`: distinct entries, each in range. */
  lemma ShuffledRangeIsPermutation(n: nat, picks: seq<nat>)
    requires 0 < n && ValidPicks(picks, n)
    ensures multiset(Shuffled(Range(n), picks, n - 1)) == multiset(Range(n))
    ensures Distinct(Shuffled(Range(n), picks, n - 1))
    ensures AllBelow(Shuffled(Range(n), picks, n - 1), n)
  {
    var r := Shuffled(Range(n), picks, n - 1);
    ShuffledPermutes(Range(n), picks, n - 1);
    ShuffledDistinct(Range(n), picks, n - 1);
    forall k | 0 <= k < |r| ensures 0 <= r[k] < n {
      assert r[k] in multiset(r);
      assert r[k] in Range(n);
    }
  }

  /** The in-place shuffle loop of the effect. */
  method ShuffleInPlace(a: array<int>, picks: seq<nat>)
    requires 0 < a.Length && ValidPicks(picks, a.Length)
    modifies a
    ensures a[..] == Shuffled(old(a[..]), picks, a.Length - 1)
  {
    var i := a.Length - 1;
    while i > 0
      invariant 0 <= i < a.Length
      invariant Shuffled(a[..], picks, i) == Shuffled(old(a[..]), picks, a.Length - 1)
      decreases i
    {
      var j := picks[i];
      a[i], a[j] := a[j], a[i];
      i := i - 1;
    }
  }

  /** A sequence without repetitions has as many members as entries. */
  lemma {:induction false} DistinctCardinality(s: seq<int>)
    requires Distinct(s)
    ensures |set x | x in s| == |s|
  {
    if s != [] {
      var n := |s| - 1;
      DistinctCardinality(s[..n]);
      assert (set x | x in s) == (set x | x in s[..n]) + {s[n]};
      assert s[n] !in s[..n];
    }
  }

  // ---------------------------------------------------------------------------
  // The generator
  // ---------------------------------------------------------------------------

  /**
    The oracle for the messages: `coin` stands for
    `Math.floor(Math.random() * 2)`, and `messagePicks[k]` for the k-th
    `Math.floor(Math.random() * STUDY_MESSAGES.length)`.
  */
  predicate ValidMessageOracle(coin: nat, messagePicks: seq<nat>) {
    coin < 2 && |messagePicks| == 5 + coin
    && forall k :: 0 <= k < |messagePicks| ==> messagePicks[k] < |STUDY_MESSAGES|
  }

  /**
    The `forEach` that tags the selected users: the user at `selected[k]`
    gets message number `messagePicks[k]`. The indices are distinct, so no
    user is written twice.
  */
  method AssignMessages(mockUsers: array<UserLocation>, selected: seq<int>, messagePicks: seq<nat>)
    requires |selected| == |messagePicks| && Distinct(selected)
    requires forall k :: 0 <= k < |selected| ==> 0 <= selected[k] < mockUsers.Length
    requires forall k :: 0 <= k < |messagePicks| ==> messagePicks[k] < |STUDY_MESSAGES|
    requires forall i :: 0 <= i < mockUsers.Length ==> mockUsers[i].message.None?
    modifies mockUsers
    ensures forall i :: 0 <= i < mockUsers.Length ==> mockUsers[i].id == old(mockUsers[i].id)
    ensures forall i :: 0 <= i < mockUsers.Length ==> (mockUsers[i].message.Some? <==> i in selected)
    ensures forall k :: 0 <= k < |selected| ==> mockUsers[selected[k]].message == Some(STUDY_MESSAGES[messagePicks[k]])
  {
    for k := 0 to |selected|
      invariant forall i :: 0 <= i < mockUsers.Length ==> mockUsers[i].id == old(mockUsers[i].id)
      invariant forall i :: 0 <= i < mockUsers.Length ==> (mockUsers[i].message.Some? <==> i in selected[..k])
      invariant forall m :: 0 <= m < k ==> mockUsers[selected[m]].message == Some(STUDY_MESSAGES[messagePicks[m]])
    {
      var index := selected[k];
      mockUsers[index] := mockUsers[index].(message := Some(STUDY_MESSAGES[messagePicks[k]]));
      assert selected[..k + 1] == selected[..k] + [index];
    }
    assert selected[..|selected|] == selected;
  }

  /** The users tagged by `AssignMessages` are exactly as many as the selected indices. */
  lemma TaggedCount(users: seq<UserLocation>, selected: seq<int>)
    requires Distinct(selected)
    requires forall k :: 0 <= k < |selected| ==> 0 <= selected[k] < |users|
    requires forall i :: 0 <= i < |users| ==> (users[i].message.Some? <==> i in selected)
    ensures |set i | 0 <= i < |users| && users[i].message.Some?| == |selected|
  {
    assert (set i | 0 <= i < |users| && users[i].message.Some?) == (set x | x in selected);
    DistinctCardinality(selected);
  }

  /**
    The body of the effect: twenty users `user-0` .. `user-19` in order, the
    shuffled index list, its first `messageCount` (5 or 6) entries, and a
    message for each of them. Returns the users and the selected indices.
  */
  method GenerateUsers(picks: seq<nat>, coin: nat, messagePicks: seq<nat>)
    returns (users: seq<UserLocation>, selected: seq<int>)
    requires ValidPicks(picks, USER_COUNT) && ValidMessageOracle(coin, messagePicks)
    ensures |users| == USER_COUNT
    ensures forall i :: 0 <= i < |users| ==> users[i].id == UserId(i)
    ensures selected == Shuffled(Range(USER_COUNT), picks, USER_COUNT - 1)[..5 + coin]
    ensures |selected| == 5 + coin && Distinct(selected)
    ensures AllBelow(selected, USER_COUNT)
    ensures forall k :: 0 <= k < |selected| ==> users[selected[k]].message == Some(STUDY_MESSAGES[messagePicks[k]])
    ensures forall i :: 0 <= i < |users| ==> (users[i].message.Some? <==> i in selected)
    ensures forall i :: 0 <= i < |users| && users[i].message.Some? ==> users[i].message.value in STUDY_MESSAGES
    ensures |set i | 0 <= i < |users| && users[i].message.Some?| == 5 + coin
  {
    var mockUsers := new UserLocation[USER_COUNT](i => UserLocation(UserId(i), None));
    var indices := new int[USER_COUNT](i => i);
    assert indices[..] == Range(USER_COUNT);
    ShuffleInPlace(indices, picks);
    ShuffledRangeIsPermutation(USER_COUNT, picks);
    var messageCount := 5 + coin;
    selected := indices[..messageCount];
    assert forall k :: 0 <= k < |selected| ==> selected[k] in indices[..];
    AssignMessages(mockUsers, selected, messagePicks);
    users := mockUsers[..];
    TaggedCount(users, selected);
  }

  /** What the open map shows. */
  datatype Headline = FriendsStudying(count: nat) | KeyNeeded

  datatype MapView = MapView(headline: Headline, lights: seq<UserLocation>, footer: bool)

  /**
    Renders the map. A closed map renders nothing; without a key the map
    shows the "key needed" text and no lights; with a key it counts the
    simulated users plus the viewer.
  */
  function Render(isOpen: bool, apiKey: Option<string>, users: seq<UserLocation>): (v: Option<MapView>)
    ensures v.None? <==> !isOpen
    ensures v.Some? && Truthy(apiKey) ==> v.value.headline == FriendsStudying(|users| + 1) && v.value.lights == users && v.value.footer
    ensures v.Some? && !Truthy(apiKey) ==> v.value.headline == KeyNeeded && v.value.lights == [] && !v.value.footer
  {
    if !isOpen then None
    else if Truthy(apiKey) then Some(MapView(FriendsStudying(|users| + 1), users, true))
    else Some(MapView(KeyNeeded, [], false))
  }

  /** The `users` state hook and the effect that refills it. */
  class LightMapModal {
    var users: seq<UserLocation>

    constructor ()
      ensures users == []
    {
      users := [];
    }

    /**
      The effect, run when `isOpen` or `apiKey` changes. It does nothing
      unless the map is open and a non-empty key is present; otherwise it
      replaces `users` with a fresh simulated crowd.
    */
    method Refresh(isOpen: bool, apiKey: Option<string>, picks: seq<nat>, coin: nat, messagePicks: seq<nat>)
      requires ValidPicks(picks, USER_COUNT) && ValidMessageOracle(coin, messagePicks)
      modifies this
      ensures !(isOpen && Truthy(apiKey)) ==> users == old(users)
      ensures isOpen && Truthy(apiKey) ==>
        |users| == USER_COUNT
        && (forall i :: 0 <= i < |users| ==> users[i].id == UserId(i))
        && (forall i :: 0 <= i < |users| && users[i].message.Some? ==> users[i].message.value in STUDY_MESSAGES)
        && |set i | 0 <= i < |users| && users[i].message.Some?| == 5 + coin
    {
      if !isOpen || !Truthy(apiKey) {
        return;
      }
      var generated, _ := GenerateUsers(picks, coin, messagePicks);
      users := generated;
    }
  }
}
