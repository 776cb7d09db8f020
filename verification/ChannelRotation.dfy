/** pkg/manager/control/vault/channels.go: the status rows of a channel, rotated on each insert. */
module ChannelRotation {
  import opened Wrappers
  import opened ServiceModel

  // ---------------------------------------------------------------- newest first

  predicate IsNewest(t: Time, times: set<Time>) {
    t in times && forall u :: u in times ==> u <= t
  }

  lemma {:induction false} HasNewest(times: set<Time>)
    requires times != {}
    ensures exists t :: IsNewest(t, times)
  {
    var t :| t in times;
    var rest := times - {t};
    if rest != {} {
      HasNewest(rest);
      var m :| IsNewest(m, rest);
      assert times == rest + {t};
      assert IsNewest(if t < m then m else t, times);
    } else {
      assert times == rest + {t};
      assert IsNewest(t, times);
    }
  }

  function Newest(times: set<Time>): (t: Time)
    requires times != {}
    ensures IsNewest(t, times)
  {
    HasNewest(times);
    var t :| IsNewest(t, times);
    t
  }

  /** The times, newest first. */
  function Ranked(times: set<Time>): seq<Time> {
    if times == {} then []
    else [Newest(times)] + Ranked(times - {Newest(times)})
  }

  function Members(list: seq<Time>): set<Time> {
    set t | t in list
  }

  lemma MembersOfConcat(a: seq<Time>, b: seq<Time>)
    ensures Members(a + b) == Members(a) + Members(b)
  {
  }

  ghost predicate Descending(list: seq<Time>) {
    forall i, j :: 0 <= i < j < |list| ==> list[i] > list[j]
  }

  lemma DescendingCons(top: Time, rest: seq<Time>)
    requires Descending(rest) && forall t :: t in Members(rest) ==> t < top
    ensures Descending([top] + rest)
  {
    forall j | 0 <= j < |rest| ensures rest[j] < top {
      assert rest[j] in Members(rest);
    }
  }

  lemma RankedCons(top: Time, times: set<Time>, rest: seq<Time>)
    requires IsNewest(top, times)
    requires Members(rest) == times - {top} && |rest| == |times - {top}| && Descending(rest)
    ensures var list := [top] + rest;
      Members(list) == times && |list| == |times| && Descending(list)
  {
    DescendingCons(top, rest);
    assert Members([top]) == {top};
    MembersOfConcat([top], rest);
  }

  lemma {:induction false} RankedIsDescending(times: set<Time>)
    ensures Members(Ranked(times)) == times && |Ranked(times)| == |times|
    ensures Descending(Ranked(times))
  {
    if times != {} {
      var top := Newest(times);
      var rest := Ranked(times - {top});
      RankedIsDescending(times - {top});
      RankedCons(top, times, rest);
      assert Ranked(times) == [top] + rest;
    }
  }

  lemma {:induction false} DescendingCount(list: seq<Time>)
    requires Descending(list)
    ensures |Members(list)| == |list|
  {
    if list != [] {
      DescendingCount(list[1..]);
      assert Members(list) == {list[0]} + Members(list[1..]);
    }
  }

  // ---------------------------------------------------------------- limit and offset

  const DEFAULT_LIMIT: nat := 127

  /** The offset is worked out with the default limit if the limit is not positive; the limit itself
      goes into the statement as it is. */
  function OffsetOf(limit: int, page: nat): int
    requires page > 0
  {
    (page - 1) * (if limit > 0 then limit else DEFAULT_LIMIT)
  }

  function Min(a: nat, b: nat): nat {
    if a < b then a else b
  }

  function Max(a: int, b: int): int {
    if a < b then b else a
  }

  function Page(list: seq<Time>, offset: nat, limit: nat): seq<Time> {
    list[Min(offset, |list|)..Min(offset + limit, |list|)]
  }

  // ---------------------------------------------------------------- one insert

  /** The times to be removed: the second page of `max - 1`. */
  function Rotated(times: set<Time>, max: nat): seq<Time>
    requires max > 0
  {
    Page(Ranked(times), OffsetOf(max - 1, 2), max - 1)
  }

  function After(times: set<Time>, created: Time, max: nat): set<Time>
    requires max > 0
  {
    set t | t in times + {created} && t !in Rotated(times, max)
  }

  function NewerThan(times: set<Time>, t: Time): set<Time> {
    set u | u in times && t < u
  }

  lemma LaterAreInFront(list: seq<Time>, i: nat, u: Time)
    requires Descending(list) && i < |list|
    ensures u in list[..i] <==> u in list && list[i] < u
  {
    if u in list && list[i] < u {
      var k :| 0 <= k < |list| && list[k] == u;
      assert list[..i][k] == u;
    }
  }

  /** The place of a time in the ranking is the number of later ones. */
  lemma PlaceIsNewer(times: set<Time>, i: nat)
    requires i < |Ranked(times)|
    ensures |NewerThan(times, Ranked(times)[i])| == i
  {
    var list := Ranked(times);
    var t := list[i];
    RankedIsDescending(times);
    DescendingCount(list[..i]);
    forall u ensures u in NewerThan(times, t) <==> u in Members(list[..i]) {
      LaterAreInFront(list, i, u);
      assert u in list <==> u in Members(list);
    }
    assert NewerThan(times, t) == Members(list[..i]);
  }

  lemma InPage(list: seq<Time>, lo: nat, hi: nat, t: Time)
    requires lo <= hi <= |list|
    ensures t in list[lo..hi] <==> exists k :: lo <= k < hi && list[k] == t
  {
    if exists k :: lo <= k < hi && list[k] == t {
      var k :| lo <= k < hi && list[k] == t;
      assert list[lo..hi][k - lo] == t;
    }
  }

  /** What goes, without any ranking: the times with at least `max - 1` and less than `2 * (max - 1)` later
      ones. */
  lemma RotatedIff(times: set<Time>, max: nat, t: Time)
    requires max > 0
    ensures t in Rotated(times, max) <==> t in times && max - 1 <= |NewerThan(times, t)| < 2 * (max - 1)
  {
    var list := Ranked(times);
    var lo, hi := Min(max - 1, |list|), Min(max - 1 + (max - 1), |list|);
    RankedIsDescending(times);
    SecondPage(list, max - 1);
    assert Rotated(times, max) == list[lo..hi];
    InPage(list, lo, hi, t);
    assert t in times <==> t in Members(list);
    forall k | 0 <= k < |list| && list[k] == t ensures |NewerThan(times, t)| == k {
      PlaceIsNewer(times, k);
    }
  }

  function NewestOf(times: set<Time>, n: nat): set<Time> {
    Members(Ranked(times)[..Min(n, |Ranked(times)|)])
  }

  /** The second page begins where the first ends, except that there is none for a limit of zero. */
  lemma SecondPage(list: seq<Time>, limit: nat)
    ensures OffsetOf(limit, 2) == if limit == 0 then 127 else limit
    ensures Page(list, OffsetOf(limit, 2), limit)
         == if limit == 0 then [] else list[Min(limit, |list|)..Min(limit + limit, |list|)]
  {
  }

  lemma PartsOf(list: seq<Time>, i: nat, j: nat)
    requires Descending(list) && i <= j <= |list|
    ensures |Members(list[i..j])| == j - i
    ensures Members(list[i..j]) <= Members(list) && Members(list[..i]) <= Members(list)
    ensures Members(list[..i]) !! Members(list[i..j])
    ensures j == |list| ==> Members(list) == Members(list[..i]) + Members(list[i..j])
  {
    DescendingCount(list[i..j]);
    if j == |list| {
      assert list == list[..i] + list[i..j];
      MembersOfConcat(list[..i], list[i..j]);
    }
  }

  lemma PartsOfRanking(times: set<Time>, i: nat, j: nat)
    requires i <= j <= |times|
    ensures |Ranked(times)| == |times|
    ensures |Members(Ranked(times)[i..j])| == j - i
    ensures Members(Ranked(times)[i..j]) <= times && Members(Ranked(times)[..i]) <= times
    ensures Members(Ranked(times)[..i]) !! Members(Ranked(times)[i..j])
    ensures j == |times| ==> times == Members(Ranked(times)[..i]) + Members(Ranked(times)[i..j])
  {
    RankedIsDescending(times);
    PartsOf(Ranked(times), i, j);
  }

  /** The number of rows after one more insert. */
  function SizeAfter(size: nat, max: nat): nat
    requires max > 0
  {
    if max == 1 || size < max then size + 1
    else Max(max, size - (max - 2))
  }

  lemma SwapCount(times: set<Time>, gone: set<Time>, created: Time)
    requires gone <= times && created !in times
    ensures |times + {created} - gone| == |times| - |gone| + 1
  {
    assert times + {created} - gone == (times - gone) + {created};
  }

  lemma RotatedCount(times: set<Time>, max: nat)
    requires max > 0
    ensures Members(Rotated(times, max)) <= times
    ensures |Members(Rotated(times, max))|
         == if |times| < max then 0 else Min(|times| - (max - 1), max - 1)
  {
    var i, j := Min(max - 1, |times|), Min(max - 1 + (max - 1), |times|);
    PartsOfRanking(times, i, j);
    assert Rotated(times, max) == if max == 1 then [] else Ranked(times)[i..j] by {
      SecondPage(Ranked(times), max - 1);
    }
  }

  lemma SizeOfAfter(times: set<Time>, created: Time, max: nat)
    requires max > 0 && created !in times
    ensures |After(times, created, max)| == SizeAfter(|times|, max)
  {
    RotatedCount(times, max);
    var gone := Members(Rotated(times, max));
    assert After(times, created, max) == times + {created} - gone;
    SwapCount(times, gone, created);
  }

  /** The new row and the newest `max - 1` old ones are never removed. */
  lemma NewestSurvive(times: set<Time>, created: Time, max: nat)
    requires max > 0 && created !in times
    ensures created in After(times, created, max)
    ensures NewestOf(times, max - 1) <= After(times, created, max)
  {
    PartsOfRanking(times, Min(max - 1, |times|), Min(max - 1 + (max - 1), |times|));
    SecondPage(Ranked(times), max - 1);
  }

  /** Within the bound, those are all that is left, and the bound holds again. */
  lemma RotationKeepsBound(times: set<Time>, created: Time, max: nat)
    requires max >= 2 && created !in times && |times| <= max
    ensures After(times, created, max) == NewestOf(times, max - 1) + {created}
    ensures |After(times, created, max)| == Min(|times| + 1, max)
  {
    SizeOfAfter(times, created, max);
    PartsOfRanking(times, Min(max - 1, |times|), |times|);
    SecondPage(Ranked(times), max - 1);
  }

  // ---------------------------------------------------------------- many inserts

  ghost predicate KeepsBound(max: nat)
    requires max > 0
  {
    forall times, created {:trigger After(times, created, max)} ::
      created !in times && |times| <= max ==> |After(times, created, max)| <= max
  }

  /** The bound is kept exactly for a maximum of two or more. */
  lemma KeepsBoundIff(max: nat)
    requires max > 0
    ensures KeepsBound(max) <==> max >= 2
  {
    if max >= 2 {
      forall times, created | created !in times && |times| <= max
        ensures |After(times, created, max)| <= max
      {
        SizeOfAfter(times, created, max);
      }
    } else {
      SizeOfAfter({0}, 1, max);
      assert |After({0}, 1, max)| > max;
    }
  }

  function Inserts(times: set<Time>, createds: seq<Time>, max: nat): set<Time>
    requires max > 0
    decreases |createds|
  {
    if createds == [] then times
    else Inserts(After(times, createds[0], max), createds[1..], max)
  }

  /** Each row is new when it is inserted. */
  predicate AllNew(times: set<Time>, createds: seq<Time>, max: nat)
    requires max > 0
    decreases |createds|
  {
    createds != [] ==> createds[0] !in times && AllNew(After(times, createds[0], max), createds[1..], max)
  }

  function SizeAfterAll(size: nat, n: nat, max: nat): nat
    requires max > 0
    decreases n
  {
    if n == 0 then size else SizeAfterAll(SizeAfter(size, max), n - 1, max)
  }

  lemma {:induction false} SizeOfInserts(times: set<Time>, createds: seq<Time>, max: nat)
    requires max > 0 && AllNew(times, createds, max)
    ensures |Inserts(times, createds, max)| == SizeAfterAll(|times|, |createds|, max)
    decreases |createds|
  {
    if createds != [] {
      SizeOfAfter(times, createds[0], max);
      SizeOfInserts(After(times, createds[0], max), createds[1..], max);
    }
  }

  /** So many inserts bring any backlog within the bound, and it stays there. */
  ghost predicate SettlesWithin(size: nat, calls: nat, max: nat)
    requires max > 0
  {
    forall times, createds ::
      |times| == size && |createds| >= calls && AllNew(times, createds, max) ==>
        |Inserts(times, createds, max)| <= max
  }

  ghost predicate Settles(size: nat, max: nat)
    requires max > 0
  {
    exists calls :: SettlesWithin(size, calls, max)
  }

  lemma {:induction false} SizeSettles(size: nat, n: nat, max: nat)
    requires max >= 3 && n >= size - max
    ensures SizeAfterAll(size, n, max) <= max
    decreases n
  {
    if n > 0 {
      SizeSettles(SizeAfter(size, max), n - 1, max);
    }
  }

  /** With a maximum of three or more, each insert takes `max - 2` rows off a backlog until it is
      within the bound. */
  lemma BacklogShrinks(times: set<Time>, created: Time, max: nat)
    requires max >= 3 && created !in times && |times| > max
    ensures |After(times, created, max)| == Max(max, |times| - (max - 2))
    ensures max <= |After(times, created, max)| < |times|
  {
    SizeOfAfter(times, created, max);
  }

  lemma BacklogSettles(size: nat, max: nat)
    requires max >= 3
    ensures SettlesWithin(size, size, max)
  {
    forall times, createds | |times| == size && |createds| >= size && AllNew(times, createds, max)
      ensures |Inserts(times, createds, max)| <= max
    {
      SizeOfInserts(times, createds, max);
      SizeSettles(size, |createds|, max);
    }
  }

  /** `n` times later than all of `times` and `from`. */
  function Later(from: Time, n: nat): seq<Time> {
    seq(n, i requires 0 <= i => from + i)
  }

  lemma {:induction false} LaterIsNew(times: set<Time>, from: Time, n: nat, max: nat)
    requires max > 0 && forall t :: t in times ==> t < from
    ensures AllNew(times, Later(from, n), max)
    decreases n
  {
    if n > 0 {
      assert Later(from, n)[1..] == Later(from + 1, n - 1);
      LaterIsNew(After(times, from, max), from + 1, n - 1, max);
    }
  }

  lemma {:induction false} SizeStuck(size: nat, n: nat, max: nat)
    requires 0 < max <= 2 && size > max
    ensures SizeAfterAll(size, n, max) > max
    decreases n
  {
    if n > 0 {
      SizeStuck(SizeAfter(size, max), n - 1, max);
    }
  }

  /** Three rows are never brought within a smaller bound. */
  lemma ThreeNeverSettle(calls: nat, max: nat)
    requires 0 < max <= 2
    ensures !SettlesWithin(3, calls, max)
  {
    var times: set<Time>, createds := {0, 1, 2}, Later(3, calls);
    LaterIsNew(times, 3, calls, max);
    SizeOfInserts(times, createds, max);
    SizeStuck(3, calls, max);
    assert |times| == 3;
  }

  /** Every backlog comes within the bound exactly for a maximum of three or more: with two it stays
      as it is for ever, with one it grows. */
  lemma SettlesIff(max: nat)
    requires max > 0
    ensures (forall size :: Settles(size, max)) <==> max >= 3
  {
    if max >= 3 {
      forall size: nat ensures Settles(size, max) {
        BacklogSettles(size, max);
      }
    } else {
      forall calls: nat ensures !SettlesWithin(3, calls, max) {
        ThreeNeverSettle(calls, max);
      }
      assert !Settles(3, max);
    }
  }

  // ---------------------------------------------------------------- the table

  datatype Key = Key(uuid: Uuid, created: Time)

  datatype Failure = BadStatement | DuplicateKey

  function Effective(option: Option<nat>, default: nat): nat {
    if option.Some? && option.value != 0 then option.value else default
  }

  function Without(rows: map<Key, string>, uuid: Uuid, times: set<Time>): map<Key, string> {
    map k | k in rows && !(k.uuid == uuid && k.created in times) :: rows[k]
  }

  function TimesOf(rows: map<Key, string>, uuid: Uuid): set<Time> {
    set k | k in rows && k.uuid == uuid :: k.created
  }

  lemma WithoutOneMore(rows: map<Key, string>, uuid: Uuid, list: seq<Time>, i: nat)
    requires i < |list|
    ensures Without(rows, uuid, Members(list[..i])) - {Key(uuid, list[i])}
         == Without(rows, uuid, Members(list[..i + 1]))
  {
    assert list[..i + 1] == list[..i] + [list[i]];
    MembersOfConcat(list[..i], [list[i]]);
  }

  /** The whole table after an insert that goes through. */
  lemma TableAfter(rows: map<Key, string>, uuid: Uuid, created: Time, message: string, max: nat)
    requires max > 0 && Key(uuid, created) !in rows
    ensures var times := TimesOf(rows, uuid);
      var now := Without(rows[Key(uuid, created) := message], uuid, Members(Rotated(times, max)));
      && TimesOf(now, uuid) == After(times, created, max)
      && Key(uuid, created) in now
      && now[Key(uuid, created)] == message
      && (forall k :: k in now && k != Key(uuid, created) ==> k in rows && now[k] == rows[k])
      && (forall k :: k in rows && k.uuid != uuid ==> k in now)
  {
    var times := TimesOf(rows, uuid);
    var inserted := rows[Key(uuid, created) := message];
    var gone := Members(Rotated(times, max));
    var now := Without(inserted, uuid, gone);
    assert created !in times;
    NewestSurvive(times, created, max);
    forall t | t in After(times, created, max) ensures t in TimesOf(now, uuid) {
      assert Key(uuid, t) in inserted;
      assert Key(uuid, t) in now;
    }
    forall t | t in TimesOf(now, uuid) ensures t in After(times, created, max) {
      assert Key(uuid, t) in now;
    }
  }

  /** Which old rows of the channel are left. */
  lemma KeptRows(was: map<Key, string>, uuid: Uuid, created: Time, max: nat, now: map<Key, string>)
    requires max > 0 && Key(uuid, created) !in was
    requires TimesOf(now, uuid) == After(TimesOf(was, uuid), created, max)
    ensures var times := TimesOf(was, uuid);
      forall t :: t in times ==>
        (Key(uuid, t) in now <==> !(max - 1 <= |NewerThan(times, t)| < 2 * (max - 1)))
  {
    var times := TimesOf(was, uuid);
    forall t | t in times
      ensures Key(uuid, t) in now <==> !(max - 1 <= |NewerThan(times, t)| < 2 * (max - 1))
    {
      RotatedIff(times, max, t);
      assert t in TimesOf(now, uuid) <==> Key(uuid, t) in now;
    }
  }

  class StatusTable {
    var rows: map<Key, string>

    /** A maximum of zero makes a statement the database refuses, so nothing is ever stored. */
    method CreateChannelStatus(uuid: Uuid, message: string, created: Time, option: Option<nat>, default: nat)
      returns (r: Result<(), Failure>)
      modifies this
      ensures var max := if option.None? || option == Some(0) then default else option.value;
        && (r == Err(BadStatement) <==> max == 0)
        && (r == Err(DuplicateKey) <==> max > 0 && Key(uuid, created) in old(rows))
        && (r.Err? ==> rows == old(rows))
        && (r.Ok? ==> TimesOf(rows, uuid) == After(TimesOf(old(rows), uuid), created, max))
      ensures r.Ok? ==>
                && Key(uuid, created) in rows && rows[Key(uuid, created)] == message
                && (forall k :: k in rows && k != Key(uuid, created) ==> k in old(rows) && rows[k] == old(rows[k]))
                && (forall k :: k in old(rows) && k.uuid != uuid ==> k in rows)
      ensures r.Ok? ==>
                var max := if option.None? || option == Some(0) then default else option.value;
                var times := TimesOf(old(rows), uuid);
                forall t :: t in times ==>
                  (Key(uuid, t) in rows <==> !(max - 1 <= |NewerThan(times, t)| < 2 * (max - 1)))
    {
      var max := Effective(option, default);
      var limit := max as int - 1;
      if limit < 0 {
        return Err(BadStatement);
      }
      var createds := Page(Ranked(TimesOf(rows, uuid)), OffsetOf(limit, 2), limit);
      if Key(uuid, created) in rows {
        return Err(DuplicateKey);
      }
      TableAfter(rows, uuid, created, message, max);
      rows := rows[Key(uuid, created) := message];
      ghost var inserted := rows;
      var i := 0;
      while i < |createds|
        invariant 0 <= i <= |createds|
        invariant rows == Without(inserted, uuid, Members(createds[..i]))
      {
        WithoutOneMore(inserted, uuid, createds, i);
        rows := rows - {Key(uuid, createds[i])};
        i := i + 1;
      }
      assert createds[..i] == createds;
      KeptRows(old(rows), uuid, created, max, rows);
      return Ok(());
    }
  }
}
