/** Splitting a communicator by color, ordering each new one by key. */
module CommSplit {
  import Collectives
  import Sequences
  import opened NcclIds

  /** The color of a rank that wants no new communicator. */
  const NO_COLOR := -1

  datatype Member = Member(host: nat, device: int)

  datatype SplitInfo = SplitInfo(host: nat, device: int, color: int, key: int)

  datatype SplitWaiting = SplitWaiting(joined: map<nat, SplitInfo>, waitingFor: set<nat>)

  /** What a rank is told: there is no such communicator; or it is in no new one; or its place in a new one. */
  datatype Reply = Unknown | NotAMember | NewRank(rank: nat, nranks: nat, id: NcclId)

  /** A new communicator: its ranks in the old one, in their new order. */
  datatype Made = Made(order: seq<nat>, id: NcclId)

  ghost predicate Distinct(s: seq<nat>) {
    forall i, j :: 0 <= i < j < |s| ==> s[i] != s[j]
  }

  /** All ranks of a color, by key; equal keys in any order. */
  ghost predicate Ordered(joined: map<nat, SplitInfo>, color: int, order: seq<nat>) {
    && Distinct(order) && (forall r: nat :: r in order <==> r in joined && joined[r].color == color)
    && forall i, j :: 0 <= i < j < |order| ==> joined[order[i]].key <= joined[order[j]].key
  }

  function MembersOf(joined: map<nat, SplitInfo>, order: seq<nat>): seq<Member>
    requires forall i :: 0 <= i < |order| ==> order[i] in joined
  {
    seq(|order|, i requires 0 <= i < |order| => Member(joined[order[i]].host, joined[order[i]].device))
  }

  function Colors(joined: map<nat, SplitInfo>): set<int> {
    set r | r in joined && joined[r].color != NO_COLOR :: joined[r].color
  }

  /** One new communicator: its ranks are told their positions, and it is recorded in that order. */
  ghost predicate MadeOk(joined: map<nat, SplitInfo>, color: int, made: Made, replies: map<nat, Reply>,
      groups: map<NcclId, seq<Member>>) {
    && Ordered(joined, color, made.order) && (forall i :: 0 <= i < |made.order| ==> made.order[i] in joined)
    && made.id in groups && groups[made.id] == MembersOf(joined, made.order)
    && forall k :: 0 <= k < |made.order| ==>
         made.order[k] in replies && replies[made.order[k]] == NewRank(k, |made.order|, made.id)
  }

  ghost predicate AllMade(joined: map<nat, SplitInfo>, made: map<int, Made>, replies: map<nat, Reply>,
      before: map<NcclId, seq<Member>>, groups: map<NcclId, seq<Member>>)
  {
    forall c :: c in made ==> c != NO_COLOR && made[c].id !in before && MadeOk(joined, c, made[c], replies, groups)
  }

  /** Exactly the ranks without a color and those of the colors made have been told something. */
  ghost predicate Told(joined: map<nat, SplitInfo>, made: map<int, Made>, replies: map<nat, Reply>) {
    && (forall r: nat :: r in replies <==> r in joined && (joined[r].color == NO_COLOR || joined[r].color in made))
    && (forall r :: r in joined && joined[r].color == NO_COLOR ==> replies[r] == NotAMember)
  }

  /** Exactly the old communicators and the ones made are recorded, each made one under an identifier of its own. */
  ghost predicate Recorded(made: map<int, Made>, before: map<NcclId, seq<Member>>, groups: map<NcclId, seq<Member>>) {
    && (forall c, c' :: c in made && c' in made && c != c' ==> made[c].id != made[c'].id)
    && (forall id :: id in before ==> id in groups && groups[id] == before[id])
    && (forall id :: id in groups ==> id in before || exists c :: c in made && made[c].id == id)
  }

  /** The outcome of a split for the colors made so far. */
  ghost predicate SplitSoFar(joined: map<nat, SplitInfo>, made: map<int, Made>, replies: map<nat, Reply>,
      before: map<NcclId, seq<Member>>, groups: map<NcclId, seq<Member>>)
  {
    AllMade(joined, made, replies, before, groups) && Told(joined, made, replies) && Recorded(made, before, groups)
  }

  /** The outcome of a whole split: every color has its communicator. */
  ghost predicate SplitDone(joined: map<nat, SplitInfo>, made: map<int, Made>, replies: map<nat, Reply>,
      before: map<NcclId, seq<Member>>, groups: map<NcclId, seq<Member>>)
  {
    made.Keys == Colors(joined) && SplitSoFar(joined, made, replies, before, groups)
  }

  /** The new communicators partition the ranks that have a color: a rank is told to be in one
      exactly if it has a color, and two ranks are told the same one exactly if they have the same color. */
  lemma SplitPartitions(joined: map<nat, SplitInfo>, made: map<int, Made>, replies: map<nat, Reply>,
      before: map<NcclId, seq<Member>>, groups: map<NcclId, seq<Member>>, r: nat, r': nat)
    requires SplitDone(joined, made, replies, before, groups) && r in joined && r' in joined
    ensures r in replies && r' in replies && (replies[r].NewRank? <==> joined[r].color != -1)
    ensures replies[r].NewRank? && replies[r'].NewRank? ==> (replies[r].id == replies[r'].id <==>
            joined[r].color == joined[r'].color)
    ensures replies[r].NewRank? ==> replies[r].id !in before && replies[r].rank < replies[r].nranks
    ensures replies[r].NewRank? ==>
              && replies[r].id in groups && |groups[replies[r].id]| == replies[r].nranks
              && groups[replies[r].id][replies[r].rank] == Member(joined[r].host, joined[r].device)
  {
    hide MadeOk;
    if joined[r].color != NO_COLOR { ToldItsPlace(joined, made, replies, before, groups, r); }
    if joined[r'].color != NO_COLOR { ToldItsPlace(joined, made, replies, before, groups, r'); }
  }

  lemma ToldItsPlace(joined: map<nat, SplitInfo>, made: map<int, Made>, replies: map<nat, Reply>,
      before: map<NcclId, seq<Member>>, groups: map<NcclId, seq<Member>>, r: nat)
    requires SplitDone(joined, made, replies, before, groups) && r in joined && joined[r].color != NO_COLOR
    ensures var c := joined[r].color;
            && c in made && r in replies && replies[r].NewRank? && replies[r].id == made[c].id
            && replies[r].rank < replies[r].nranks == |made[c].order| && made[c].order[replies[r].rank] == r
            && made[c].id in groups && |groups[made[c].id]| == replies[r].nranks
            && groups[made[c].id][replies[r].rank] == Member(joined[r].host, joined[r].device)
  {
    var c := joined[r].color;
    assert c in Colors(joined);
    assert MadeOk(joined, c, made[c], replies, groups);
    assert r in made[c].order;
    var k :| 0 <= k < |made[c].order| && made[c].order[k] == r;
  }

  /** In one new communicator the new ranks are 0 to n - 1, each taken once, and follow the keys. */
  lemma NewRanksFollowKeys(joined: map<nat, SplitInfo>, made: map<int, Made>, replies: map<nat, Reply>,
      before: map<NcclId, seq<Member>>, groups: map<NcclId, seq<Member>>, r: nat, r': nat)
    requires SplitDone(joined, made, replies, before, groups) && r in joined && r' in joined
    requires joined[r].color == joined[r'].color != -1
    ensures r in replies && r' in replies && replies[r].NewRank? && replies[r'].NewRank?
    ensures replies[r].rank == replies[r'].rank ==> r == r'
    ensures replies[r].rank < replies[r'].rank ==> joined[r].key <= joined[r'].key
    ensures forall k: nat :: k < replies[r].nranks ==>
            exists x :: x in replies && replies[x] == NewRank(k, replies[r].nranks, replies[r].id)
  {
    ToldItsPlace(joined, made, replies, before, groups, r);
    ToldItsPlace(joined, made, replies, before, groups, r');
    var order := made[joined[r].color].order;
    assert MadeOk(joined, joined[r].color, made[joined[r].color], replies, groups);
    forall k: nat | k < replies[r].nranks
        ensures exists x :: x in replies && replies[x] == NewRank(k, replies[r].nranks, replies[r].id) {
      assert order[k] in replies && replies[order[k]] == NewRank(k, |order|, replies[r].id);
    }
  }

  /*** The program ***/

  /** `r` put behind all ranks whose key is no greater. */
  function Insert(joined: map<nat, SplitInfo>, order: seq<nat>, r: nat): seq<nat>
    requires r in joined && forall i :: 0 <= i < |order| ==> order[i] in joined
  {
    if order == [] || joined[order[|order| - 1]].key <= joined[r].key then order + [r]
    else Insert(joined, order[..|order| - 1], r) + [order[|order| - 1]]
  }

  /** Distinct ranks in the order of their keys. */
  ghost predicate ByKey(joined: map<nat, SplitInfo>, order: seq<nat>) {
    && Distinct(order) && (forall i :: 0 <= i < |order| ==> order[i] in joined)
    && forall i, j :: 0 <= i < j < |order| ==> joined[order[i]].key <= joined[order[j]].key
  }

  lemma {:induction false} InsertIs(joined: map<nat, SplitInfo>, order: seq<nat>, r: nat)
    requires ByKey(joined, order) && r in joined && r !in order
    ensures ByKey(joined, Insert(joined, order, r)) && forall x: nat :: x in Insert(joined, order, r) <==>
            x == r || x in order
    decreases |order|
  {
    if order == [] || joined[order[|order| - 1]].key <= joined[r].key {
      var o := order + [r];
      forall i, j | 0 <= i < j < |o| ensures joined[o[i]].key <= joined[o[j]].key {
        if j == |order| && i < |order| - 1 { assert joined[order[i]].key <= joined[order[|order| - 1]].key; }
      }
    } else {
      var last := order[|order| - 1];
      InsertIs(joined, order[..|order| - 1], r);
      var o := Insert(joined, order[..|order| - 1], r);
      assert last !in order[..|order| - 1];
      forall i | 0 <= i < |o| ensures joined[o[i]].key <= joined[last].key && o[i] != last {
        assert o[i] == r || o[i] in order[..|order| - 1];
      }
    }
  }

  lemma RemoveAgain(m: map<NcclId, SplitWaiting>, id: NcclId, w: SplitWaiting)
    ensures m[id := w] - {id} == m - {id}
  {
  }

  lemma OrderedDistinct(joined: map<nat, SplitInfo>, color: int, order: seq<nat>)
    requires Ordered(joined, color, order)
    ensures Distinct(order)
  {
  }

  /** Joined and awaited ranks make up all ranks. */
  ghost predicate WaitingOk(w: SplitWaiting, n: nat) {
    w.joined.Keys + w.waitingFor == Collectives.Ranks(n) && w.joined.Keys !! w.waitingFor
  }

  lemma FirstWaits(n: nat, rank: nat, info: SplitInfo)
    requires rank < n
    ensures WaitingOk(SplitWaiting(map[rank := info], Collectives.Ranks(n) - {rank}), n)
  {
  }

  lemma NextWaits(w: SplitWaiting, n: nat, rank: nat, info: SplitInfo)
    requires WaitingOk(w, n) && rank < n
    ensures WaitingOk(SplitWaiting(w.joined[rank := info], w.waitingFor - {rank}), n)
  {
  }

  lemma AllJoined(w: SplitWaiting, n: nat)
    requires WaitingOk(w, n) && w.waitingFor == {}
    ensures w.joined.Keys == Collectives.Ranks(n) && |w.joined| == n
  {
    RanksCount(n);
    assert |w.joined| == |w.joined.Keys|;
  }

  /** The device of the first member on a host; 0 if there is none. */
  function DeviceOf(members: seq<Member>, host: nat): (device: int)
    ensures DeviceOn(members, host, device)
  {
    if members == [] then 0
    else if members[0].host == host then
      assert FirstOn(members, host, members[0].device, 0);
      members[0].device
    else
      var device := DeviceOf(members[1..], host);
      DeviceLater(members, host, device);
      device
  }

  lemma DeviceLater(members: seq<Member>, host: nat, device: int)
    requires members != [] && members[0].host != host && DeviceOn(members[1..], host, device)
    ensures DeviceOn(members, host, device)
  {
    forall i | 0 < i < |members| ensures members[i] == members[1..][i - 1] {}
    if r :| FirstOn(members[1..], host, device, r) { assert FirstOn(members, host, device, r + 1); }
  }

  /** `device` is that of the first member on the host, or 0 if there is none. */
  ghost predicate DeviceOn(members: seq<Member>, host: nat, device: int) {
    || ((forall i :: 0 <= i < |members| ==> members[i].host != host) && device == 0)
    || exists r :: FirstOn(members, host, device, r)
  }

  ghost predicate FirstOn(members: seq<Member>, host: nat, device: int, r: int) {
    && 0 <= r < |members| && members[r] == Member(host, device)
    && forall i :: 0 <= i < r ==> members[i].host != host
  }

  /** The effect of `nccl_comm_split`. */
  ghost predicate SplitCalled(groups: map<NcclId, seq<Member>>, waiting: map<NcclId, SplitWaiting>,
      groups': map<NcclId, seq<Member>>, waiting': map<NcclId, SplitWaiting>,
      id: NcclId, rank: nat, info: SplitInfo, replies: map<nat, Reply>, made: map<int, Made>)
  {
    if id !in groups then replies == map[rank := Unknown] && groups' == groups && waiting' == waiting
    else if id !in waiting then
      replies == map[] && groups' == groups
          && waiting' == waiting[id := SplitWaiting(map[rank := info], Collectives.Ranks(|groups[id]|) - {rank})]
    else
      var w := SplitWaiting(waiting[id].joined[rank := info], waiting[id].waitingFor - {rank});
      if w.waitingFor != {} then replies == map[] && groups' == groups && waiting' == waiting[id := w]
      else waiting' == waiting - {id} && SplitDone(w.joined, made, replies, groups, groups')
  }

  /** The ranks whose color is yet to be made a communicator. */
  function Remaining(joined: map<nat, SplitInfo>, made: set<int>): set<nat> {
    set r | r in joined && joined[r].color != NO_COLOR && joined[r].color !in made
  }

  lemma RemainingLess(joined: map<nat, SplitInfo>, made: set<int>, color: int, r: nat)
    requires r in Remaining(joined, made) && joined[r].color == color
    ensures color in Colors(joined) && color !in made
            && Remaining(joined, made + {color}) <= Remaining(joined, made) - {r}
    ensures |Remaining(joined, made + {color})| < |Remaining(joined, made)|
  {
    CountAtMost(Remaining(joined, made + {color}), Remaining(joined, made) - {r});
  }

  lemma CountAtMost(a: set<nat>, b: set<nat>)
    requires a <= b
    ensures |a| <= |b|
  {
    assert a + (b - a) == b && a * (b - a) == {};
  }

  lemma NoneRemain(joined: map<nat, SplitInfo>, made: set<int>)
    requires Remaining(joined, made) == {} && made <= Colors(joined)
    ensures made == Colors(joined)
  {
    forall c | c in Colors(joined) ensures c in made {
      var r :| r in joined && joined[r].color != NO_COLOR && joined[r].color == c;
      assert r !in Remaining(joined, made);
    }
  }

  /** A communicator that is being set up: the ranks that have called, and the awaited ones. */
  datatype InitWaiting = InitWaiting(joined: map<nat, Member>, waitingFor: set<nat>)

  /** The members, rank by rank. */
  ghost function InRankOrder(joined: map<nat, Member>, n: nat): (members: seq<Member>)
    requires forall r: nat :: r < n ==> r in joined
    ensures |members| == n && forall r: nat :: r < n ==> members[r] == joined[r]
  {
    seq(n, r requires 0 <= r < n => joined[r])
  }

  /** The effect of `nccl_comm_init_rank`: the last rank's call records the communicator, every rank in its place. */
  ghost predicate InitCalled(groups: map<NcclId, seq<Member>>, waiting: map<NcclId, InitWaiting>,
      groups': map<NcclId, seq<Member>>, waiting': map<NcclId, InitWaiting>,
      id: NcclId, rank: nat, member: Member, n: nat, answered: seq<Member>)
  {
    if id !in waiting then
      answered == [] && groups' == groups
          && waiting' == waiting[id := InitWaiting(map[rank := member], Collectives.Ranks(n) - {rank})]
    else
      var w := InitWaiting(waiting[id].joined[rank := member], waiting[id].waitingFor - {rank});
      if w.waitingFor != {} then answered == [] && groups' == groups && waiting' == waiting[id := w]
      else
        && waiting' == waiting - {id} && groups' == groups[id := answered] && |answered| == n
        && forall r: nat :: r < n ==> r in w.joined && answered[r] == w.joined[r]
  }

  lemma LastInits(w: InitWaiting, n: nat, rank: nat, member: Member)
    requires w.joined.Keys + w.waitingFor == Collectives.Ranks(n) && rank < n && w.waitingFor - {rank} == {}
    ensures w.joined[rank := member].Keys == Collectives.Ranks(n)
  {
  }

  class Comms {
    const uniqueId: array<byte>
    var groups: map<NcclId, seq<Member>>
    var splitWaiting: map<NcclId, SplitWaiting>
    var initWaiting: map<NcclId, InitWaiting>
    ghost var issued: nat

    /** As long as fewer than 256 to the 128 identifiers have been handed out, all of them are below the next one. */
    ghost predicate Valid()
      reads this, uniqueId
    {
      && uniqueId.Length == 128 && Value(uniqueId[..]) == issued
      && (forall id :: id in groups ==> |id| == ID_LENGTH && Value(id) < issued)
      && (forall id :: id in initWaiting ==> |id| == ID_LENGTH && Value(id) < issued)
      && forall id :: id in splitWaiting ==> id in groups && WaitingOk(splitWaiting[id], |groups[id]|)
    }

    constructor ()
      ensures Valid() && fresh(uniqueId) && groups == map[] && splitWaiting == map[] && initWaiting == map[]
              && issued == 0
    {
      uniqueId := new byte[ID_LENGTH](_ => 0);
      groups, splitWaiting, initWaiting, issued := map[], map[], map[], 0;
      new;
      ValueOfZeros(uniqueId[..]);
    }

    /** `nccl_get_unique_id`. */
    method NextId() returns (id: NcclId)
      requires Valid() && issued + 1 < Pow256(ID_LENGTH)
      modifies uniqueId, this`issued
      ensures Valid() && issued == old(issued) + 1
      ensures |id| == ID_LENGTH && Value(id) == old(issued) && id !in groups && id !in initWaiting
    {
      hide Value, Pow256;
      CountUp(issued, Pow256(ID_LENGTH));
      id := IncrNcclId(uniqueId);
      issued := issued + 1;
    }

    /** `nccl_comm_init_rank` under an identifier that has been handed out; all ranks say the same `n`.  Here too the
        first call only waits.  `answered` are those who are told that the communicator is ready. */
    method InitRank(host: nat, device: int, rank: nat, n: nat, id: NcclId) returns (answered: seq<Member>)
      requires Valid() && |id| == ID_LENGTH && Value(id) < issued && id !in splitWaiting
      requires rank < n && (id in initWaiting ==>
               initWaiting[id].joined.Keys + initWaiting[id].waitingFor == Collectives.Ranks(n))
      modifies this`groups, this`initWaiting
      ensures Valid()
      ensures InitCalled(old(groups), old(initWaiting), groups, initWaiting, id, rank, Member(host, device), n,
              answered)
    {
      hide Value, Pow256, Collectives.Ranks, WaitingOk;
      if id !in initWaiting {
        initWaiting := initWaiting[id := InitWaiting(map[rank := Member(host, device)], Collectives.Ranks(n) - {rank})];
        return [];
      }
      var w := InitWaiting(initWaiting[id].joined[rank := Member(host, device)], initWaiting[id].waitingFor - {rank});
      if w.waitingFor != {} {
        initWaiting := initWaiting[id := w];
        return [];
      }
      initWaiting := initWaiting - {id};
      assert w.joined.Keys == Collectives.Ranks(n)
          by { LastInits(old(initWaiting)[id], n, rank, Member(host, device)); }
      answered := [];
      for i := 0 to n
        invariant answered == InRankOrder(w.joined, i)
      {
        assert i in Collectives.Ranks(n);
        answered := answered + [w.joined[i]];
      }
      groups := groups[id := answered];
    }

    /** `nccl_comm_split`.  As in the program, the first call only waits, even if there is nobody to wait for.
        `info` is what the rank joins with: what it said, and the device of the first member on its host. */
    method CommSplit(host: nat, rank: nat, id: NcclId, color: int, key: int)
      returns (replies: map<nat, Reply>, ghost info: SplitInfo, ghost made: map<int, Made>)
      requires Valid() && (id in groups ==> rank < |groups[id]| && issued + |groups[id]| < Pow256(ID_LENGTH))
      modifies this`groups, this`splitWaiting, this`issued, uniqueId
      ensures Valid()
      ensures info.host == host && info.color == color && info.key == key
      ensures id in old(groups) ==> DeviceOn(old(groups)[id], host, info.device)
      ensures SplitCalled(old(groups), old(splitWaiting), groups, splitWaiting, id, rank, info, replies, made)
      ensures id in splitWaiting ==> rank in splitWaiting[id].joined && splitWaiting[id].joined[rank] == info
      ensures id in splitWaiting ==> issued == old(issued) && uniqueId[..] == old(uniqueId[..])
    {
      hide SplitDone, Value, Pow256, Collectives.Ranks, WaitingOk, DeviceOn;
      var device := if id in groups then DeviceOf(groups[id], host) else 0;
      var joining := SplitInfo(host, device, color, key);
      info, made := joining, map[];
      if id !in groups {
        return map[rank := Unknown], info, made;
      }
      if id !in splitWaiting {
        FirstWaits(|groups[id]|, rank, joining);
        Wait(id, SplitWaiting(map[rank := joining], Collectives.Ranks(|groups[id]|) - {rank}));
        return map[], info, made;
      }
      var w := SplitWaiting(splitWaiting[id].joined[rank := joining], splitWaiting[id].waitingFor - {rank});
      NextWaits(splitWaiting[id], |groups[id]|, rank, joining);
      Wait(id, w);
      if w.waitingFor != {} {
        return map[], info, made;
      }
      AllJoined(w, |groups[id]|);
      replies, made := MakeGroups(w.joined);
      RemoveAgain(old(splitWaiting), id, w);
      NoLongerWait(id);
    }

    method NoLongerWait(id: NcclId)
      requires Valid()
      modifies this`splitWaiting
      ensures Valid() && splitWaiting == old(splitWaiting) - {id}
    {
      hide Value, WaitingOk;
      splitWaiting := splitWaiting - {id};
    }

    method Wait(id: NcclId, w: SplitWaiting)
      requires Valid() && id in groups && WaitingOk(w, |groups[id]|)
      modifies this`splitWaiting
      ensures Valid() && splitWaiting == old(splitWaiting)[id := w]
    {
      hide Value, WaitingOk;
      splitWaiting := splitWaiting[id := w];
    }

    /** All new communicators, in any order of the colors. */
    method MakeGroups(joined: map<nat, SplitInfo>) returns (replies: map<nat, Reply>, ghost made: map<int, Made>)
      requires Valid() && issued + |joined| < Pow256(ID_LENGTH)
      modifies this`groups, this`issued, uniqueId
      ensures Valid() && SplitDone(joined, made, replies, old(groups), groups)
    {
      hide SplitSoFar, Value, Pow256, Colors, WaitingOk, Remaining;
      replies := map r | r in joined && joined[r].color == NO_COLOR :: NotAMember;
      made := map[];
      var done: set<int> := {};
      NoneMade(joined, replies, groups);
      AtMostAll(joined);
      while Remaining(joined, done) != {}
        invariant Valid() && issued + |Remaining(joined, done)| < Pow256(ID_LENGTH)
        invariant made.Keys == done && done <= Colors(joined)
        invariant SplitSoFar(joined, made, replies, old(groups), groups)
        decreases |Remaining(joined, done)|
      {
        var r :| r in Remaining(joined, done);
        RemainsIn(joined, done, r);
        var color := joined[r].color;
        RemainingLess(joined, done, color, r);
        ghost var one;
        replies, one := MakeGroup(joined, color, replies, made, old(groups));
        made := made[color := one];
        done := done + {color};
      }
      NoneRemain(joined, done);
    }

    /** One new communicator. */
    method MakeGroup(joined: map<nat, SplitInfo>, color: int, replies: map<nat, Reply>, ghost made: map<int, Made>,
        ghost before: map<NcclId, seq<Member>>)
      returns (replies': map<nat, Reply>, ghost one: Made)
      requires Valid() && issued + 1 < Pow256(ID_LENGTH) && color != NO_COLOR && color !in made
      requires SplitSoFar(joined, made, replies, before, groups)
      modifies this`groups, this`issued, uniqueId
      ensures Valid() && issued == old(issued) + 1
      ensures SplitSoFar(joined, made[color := one], replies', before, groups)
    {
      hide SplitSoFar, Value, Pow256, WaitingOk, Ordered, Distinct;
      var order := Sorted(joined, color);
      assert Distinct(order) by { assert Ordered(joined, color, order); OrderedDistinct(joined, color, order); }
      var newId := NextId();
      replies' := TellRanks(joined, order, newId, replies);
      one := Made(order, newId);
      OneMade(joined, made, replies, replies', before, groups, color, order, newId);
      groups := groups[newId := MembersOf(joined, order)];
    }

    /** The ranks of a color: collected in any order, sorted by key. */
    method Sorted(joined: map<nat, SplitInfo>, color: int) returns (order: seq<nat>)
      ensures Ordered(joined, color, order) && forall i :: 0 <= i < |order| ==> order[i] in joined
    {
      order := [];
      var todo := set r | r in joined && joined[r].color == color;
      ghost var members := todo;
      while todo != {}
        invariant todo <= members && ByKey(joined, order) && forall r: nat :: r in order <==> r in members && r !in todo
        decreases |todo|
      {
        var r :| r in todo;
        InsertIs(joined, order, r);
        order := Insert(joined, order, r);
        todo := todo - {r};
      }
    }

    /** Each rank of a new communicator is told its position. */
    method TellRanks(joined: map<nat, SplitInfo>, order: seq<nat>, id: NcclId, replies: map<nat, Reply>)
        returns (replies': map<nat, Reply>)
      requires Distinct(order)
      ensures forall r: nat :: r in replies' <==> r in replies || r in order
      ensures forall k :: 0 <= k < |order| ==> order[k] in replies' && replies'[order[k]] == NewRank(k, |order|, id)
      ensures forall r :: r in replies && r !in order ==> replies'[r] == replies[r]
    {
      replies' := replies;
      for i := 0 to |order|
        invariant forall r: nat :: r in replies' <==> r in replies || r in order[..i]
        invariant forall k :: 0 <= k < i ==> order[k] in replies' && replies'[order[k]] == NewRank(k, |order|, id)
        invariant forall r :: r in replies && r !in order[..i] ==> replies'[r] == replies[r]
      {
        replies' := replies'[order[i] := NewRank(i, |order|, id)];
        assert order[..i + 1] == order[..i] + [order[i]];
      }
      assert order[..|order|] == order;
    }
  }

  lemma {:induction false} RanksCount(n: nat)
    ensures |Collectives.Ranks(n)| == n
  {
    if n > 0 {
      RanksCount(n - 1);
      var before: set<nat> := Collectives.Ranks(n - 1);
      assert (n - 1) !in before;
    }
  }

  lemma AtMostAll(joined: map<nat, SplitInfo>)
    ensures |Remaining(joined, {})| <= |joined|
  {
    assert Remaining(joined, {}) <= joined.Keys;
    CountAtMost(Remaining(joined, {}), joined.Keys);
    assert |joined.Keys| == |joined|;
  }

  lemma RemainsIn(joined: map<nat, SplitInfo>, made: set<int>, r: nat)
    requires r in Remaining(joined, made)
    ensures r in joined && joined[r].color != NO_COLOR && joined[r].color !in made
  {
  }

  lemma NoneMade(joined: map<nat, SplitInfo>, replies: map<nat, Reply>, groups: map<NcclId, seq<Member>>)
    requires replies == map r | r in joined && joined[r].color == NO_COLOR :: NotAMember
    ensures SplitSoFar(joined, map[], replies, groups, groups)
  {
  }

  lemma OneMade(joined: map<nat, SplitInfo>, made: map<int, Made>, replies: map<nat, Reply>, replies': map<nat, Reply>,
      before: map<NcclId, seq<Member>>, groups: map<NcclId, seq<Member>>, color: int, order: seq<nat>, id: NcclId)
    requires SplitSoFar(joined, made, replies, before, groups) && color !in made && color != NO_COLOR && id !in groups
    requires Ordered(joined, color, order) && forall i :: 0 <= i < |order| ==> order[i] in joined
    requires forall r: nat :: r in replies' <==> r in replies || r in order
    requires forall k :: 0 <= k < |order| ==> order[k] in replies' && replies'[order[k]] == NewRank(k, |order|, id)
    requires forall r :: r in replies && r !in order ==> replies'[r] == replies[r]
    ensures SplitSoFar(joined, made[color := Made(order, id)], replies', before, groups[id := MembersOf(joined, order)])
  {
    hide MembersOf, MadeOk, Ordered, Distinct, AllMade, Told, Recorded;
    var groups' := groups[id := MembersOf(joined, order)];
    NewOk(joined, replies', groups', color, order, id);
    assert id !in before by { BeforeKept(made, before, groups); }
    AllMadeAfter(joined, made, replies, replies', before, groups, groups', color, order, id);
    RepliesAfter(joined, made, replies, replies', color, order, Made(order, id));
    MadeAreRecorded(joined, made, replies, before, groups);
    GroupsAfter(made, before, groups, groups', color, Made(order, id));
  }

  lemma BeforeKept(made: map<int, Made>, before: map<NcclId, seq<Member>>, groups: map<NcclId, seq<Member>>)
    requires Recorded(made, before, groups)
    ensures forall id :: id in before ==> id in groups
  {
  }

  lemma AllMadeAfter(joined: map<nat, SplitInfo>, made: map<int, Made>, replies: map<nat, Reply>,
      replies': map<nat, Reply>,
      before: map<NcclId, seq<Member>>, groups: map<NcclId, seq<Member>>, groups': map<NcclId, seq<Member>>,
          color: int, order: seq<nat>, id: NcclId)
    requires AllMade(joined, made, replies, before, groups) && color !in made && color != NO_COLOR && id !in groups
             && id !in before
    requires MadeOk(joined, color, Made(order, id), replies', groups') && Ordered(joined, color, order)
    requires id in groups' && groups' == groups[id := groups'[id]]
    requires forall r :: r in replies && r !in order ==> r in replies' && replies'[r] == replies[r]
    ensures AllMade(joined, made[color := Made(order, id)], replies', before, groups')
  {
    hide MadeOk, Ordered;
    forall c | c in made ensures MadeOk(joined, c, made[c], replies', groups') {
      StaysOk(joined, c, made[c], color, order, replies, replies', groups, groups', id);
    }
  }

  lemma MadeAreRecorded(joined: map<nat, SplitInfo>, made: map<int, Made>, replies: map<nat, Reply>,
      before: map<NcclId, seq<Member>>, groups: map<NcclId, seq<Member>>)
    requires AllMade(joined, made, replies, before, groups)
    ensures forall c :: c in made ==> made[c].id in groups
  {
    hide Ordered;
    forall c | c in made ensures made[c].id in groups { assert MadeOk(joined, c, made[c], replies, groups); }
  }

  /** Where the recorded communicators come from. */
  lemma GroupsAfter(made: map<int, Made>, before: map<NcclId, seq<Member>>, groups: map<NcclId, seq<Member>>,
      groups': map<NcclId, seq<Member>>,
      color: int, one: Made)
    requires Recorded(made, before, groups) && forall c :: c in made ==> made[c].id in groups
    requires color !in made && one.id in groups' && groups' == groups[one.id := groups'[one.id]] && one.id !in groups
    ensures Recorded(made[color := one], before, groups')
  {
    var made' := made[color := one];
    forall id | id in groups' ensures id in before || exists c :: c in made' && made'[c].id == id {
      if id == one.id {
        assert color in made' && made'[color].id == id;
      } else if id !in before {
        var c :| c in made && made[c].id == id;
        assert c in made' && made'[c].id == id;
      }
    }
  }

  /** Those who have been told something: the ranks without a color, and those of the colors made. */
  lemma RepliesAfter(joined: map<nat, SplitInfo>, made: map<int, Made>, replies: map<nat, Reply>,
      replies': map<nat, Reply>,
      color: int, order: seq<nat>, one: Made)
    requires Told(joined, made, replies) && Ordered(joined, color, order) && color != NO_COLOR
    requires forall r: nat :: r in replies' <==> r in replies || r in order
    requires forall r :: r in replies && r !in order ==> replies'[r] == replies[r]
    ensures Told(joined, made[color := one], replies')
  {
    hide Distinct;
    forall r: nat ensures r in order <==> r in joined && joined[r].color == color { InOrder(joined, color, order, r); }
  }

  lemma InOrder(joined: map<nat, SplitInfo>, color: int, order: seq<nat>, r: nat)
    requires Ordered(joined, color, order)
    ensures r in order <==> r in joined && joined[r].color == color
  {
  }

  lemma NewOk(joined: map<nat, SplitInfo>, replies: map<nat, Reply>, groups: map<NcclId, seq<Member>>, color: int,
      order: seq<nat>, id: NcclId)
    requires Ordered(joined, color, order) && (forall i :: 0 <= i < |order| ==> order[i] in joined)
    requires id in groups && groups[id] == MembersOf(joined, order)
    requires forall k :: 0 <= k < |order| ==> order[k] in replies && replies[order[k]] == NewRank(k, |order|, id)
    ensures MadeOk(joined, color, Made(order, id), replies, groups)
  {
  }

  lemma StaysOk(joined: map<nat, SplitInfo>, c: int, m: Made, color: int, order: seq<nat>, replies: map<nat, Reply>,
      replies': map<nat, Reply>,
      groups: map<NcclId, seq<Member>>, groups': map<NcclId, seq<Member>>, id: NcclId)
    requires MadeOk(joined, c, m, replies, groups) && Ordered(joined, color, order) && c != color && id !in groups
    requires id in groups' && groups' == groups[id := groups'[id]]
    requires forall r :: r in replies && r !in order ==> r in replies' && replies'[r] == replies[r]
    ensures MadeOk(joined, c, m, replies', groups') && m.id in groups
  {
    OtherColor(joined, c, color, m.order, order);
  }

  lemma OtherColor(joined: map<nat, SplitInfo>, c: int, c': int, order: seq<nat>, order': seq<nat>)
    requires Ordered(joined, c, order) && Ordered(joined, c', order') && c != c'
    ensures forall k :: 0 <= k < |order| ==> order[k] !in order'
  {
  }

  /*** A whole split ***/

  /** One rank's call. */
  datatype SplitCall = SplitCall(host: nat, rank: nat, color: int, key: int)

  /** `joined` is what the calls said, each with the device of the first member on the caller's host. */
  ghost predicate Said(joined: map<nat, SplitInfo>, calls: seq<SplitCall>, members: seq<Member>) {
    && (forall r :: r in joined ==> exists i :: 0 <= i < |calls| && calls[i].rank == r)
    && forall i :: 0 <= i < |calls| ==>
         && calls[i].rank in joined && joined[calls[i].rank].host == calls[i].host
         && joined[calls[i].rank].color == calls[i].color && joined[calls[i].rank].key == calls[i].key
         && DeviceOn(members, calls[i].host, joined[calls[i].rank].device)
  }

  /** Each of the `n` ranks calls once. */
  ghost predicate CallOnce(calls: seq<SplitCall>, n: nat) {
    && |calls| == n && (forall i :: 0 <= i < n ==> calls[i].rank < n)
    && forall i, j :: 0 <= i < j < n ==> calls[i].rank != calls[j].rank
  }

  lemma SaidOneMore(joined: map<nat, SplitInfo>, calls: seq<SplitCall>, members: seq<Member>, i: nat, info: SplitInfo)
    requires i < |calls| && Said(joined, calls[..i], members)
    requires forall j :: 0 <= j < i ==> calls[j].rank != calls[i].rank
    requires info.host == calls[i].host && info.color == calls[i].color && info.key == calls[i].key
    requires DeviceOn(members, calls[i].host, info.device)
    ensures Said(joined[calls[i].rank := info], calls[..i + 1], members)
  {
    hide DeviceOn;
    var joined', said := joined[calls[i].rank := info], calls[..i + 1];
    forall r | r in joined' ensures exists j :: 0 <= j < |said| && said[j].rank == r {
      if r in joined {
        var j :| 0 <= j < i && calls[..i][j].rank == r;
        assert said[j].rank == r;
      } else {
        assert said[i].rank == r;
      }
    }
    forall j | 0 <= j < i + 1
      ensures calls[j].rank in joined' && joined'[calls[j].rank].host == calls[j].host
      ensures joined'[calls[j].rank].color == calls[j].color && joined'[calls[j].rank].key == calls[j].key
      ensures DeviceOn(members, calls[j].host, joined'[calls[j].rank].device)
    {
      if j < i { assert calls[..i][j] == calls[j]; }
    }
  }

  /** While some rank has not called, it is awaited. */
  lemma SomeoneIsAwaited(w: SplitWaiting, calls: seq<SplitCall>, members: seq<Member>, i: nat, n: nat)
    requires CallOnce(calls, n) && i < n && WaitingOk(w, n) && Said(w.joined, calls[..i], members)
    ensures calls[i].rank in w.waitingFor
  {
    hide DeviceOn;
    assert calls[i].rank in Collectives.Ranks(n);
    forall r | r in w.joined ensures r != calls[i].rank {
      var j :| 0 <= j < i && calls[..i][j].rank == r;
    }
  }

  lemma NobodyIsAwaited(w: SplitWaiting, calls: seq<SplitCall>, members: seq<Member>, n: nat)
    requires CallOnce(calls, n) && WaitingOk(w, n) && Said(w.joined, calls, members)
    ensures w.waitingFor == {}
  {
    hide DeviceOn;
    forall r: nat | r < n ensures r in w.joined {
      SomeCall(calls, n, r);
      var i :| 0 <= i < n && calls[i].rank == r;
      assert calls[i].rank in w.joined;
    }
  }

  /** If each of `n` ranks calls once, every rank has a call. */
  lemma SomeCall(calls: seq<SplitCall>, n: nat, r: nat)
    requires CallOnce(calls, n) && r < n
    ensures exists i :: 0 <= i < n && calls[i].rank == r
  {
    var called := RanksCalled(calls, n);
    Sequences.DistinctSize(called);
    RanksCount(n);
    SameSize(Sequences.Elems(called), Collectives.Ranks(n));
    assert r in Collectives.Ranks(n) && r in Sequences.Elems(called);
    var i :| 0 <= i < n && called[i] == r;
    assert calls[i].rank == r;
  }

  ghost function RanksCalled(calls: seq<SplitCall>, n: nat): (called: seq<nat>)
    requires CallOnce(calls, n)
    ensures |called| == n && forall i :: 0 <= i < n ==> called[i] == calls[i].rank
    ensures Sequences.Distinct(called) && Sequences.Elems(called) <= Collectives.Ranks(n)
  {
    seq(n, i requires 0 <= i < n => calls[i].rank)
  }

  lemma SameSize(a: set<nat>, b: set<nat>)
    requires a <= b && |a| == |b|
    ensures a == b
  {
    assert a + (b - a) == b && a * (b - a) == {};
  }

  /** What each rank is told once all have called: whether it has a color; which ranks share its new communicator;
      in which order; and as whom it is recorded there. */
  ghost predicate SplitAsSaid(calls: seq<SplitCall>, members: seq<Member>, replies: map<nat, Reply>,
      before: map<NcclId, seq<Member>>, groups: map<NcclId, seq<Member>>)
  {
    && (forall i :: 0 <= i < |calls| ==> Placed(calls[i], members, replies, before, groups))
    && (forall i, j :: 0 <= i < |calls| && 0 <= j < |calls| && i != j ==> Related(calls[i], calls[j], replies))
    && forall id :: id in before ==> id in groups && groups[id] == before[id]
  }

  ghost predicate Placed(call: SplitCall, members: seq<Member>, replies: map<nat, Reply>,
      before: map<NcclId, seq<Member>>, groups: map<NcclId, seq<Member>>)
  {
    && call.rank in replies
    && match replies[call.rank]
       case Unknown => false
       case NotAMember => call.color == -1
       case NewRank(k, n, id) =>
         && call.color != -1 && id !in before && id in groups && k < n == |groups[id]|
         && groups[id][k].host == call.host && DeviceOn(members, call.host, groups[id][k].device)
         && forall k' :: 0 <= k' < n ==> exists r :: r in replies && replies[r] == NewRank(k', n, id)
  }

  ghost predicate Related(a: SplitCall, b: SplitCall, replies: map<nat, Reply>) {
    a.color != -1 && b.color != -1 ==>
      && a.rank in replies && replies[a.rank].NewRank? && b.rank in replies && replies[b.rank].NewRank?
      && (replies[a.rank].id == replies[b.rank].id <==> a.color == b.color)
      && (a.color == b.color ==>
            && replies[a.rank].nranks == replies[b.rank].nranks && replies[a.rank].rank != replies[b.rank].rank
            && (a.key < b.key ==> replies[a.rank].rank < replies[b.rank].rank))
  }

  lemma PlacedOne(calls: seq<SplitCall>, i: nat, joined: map<nat, SplitInfo>, made: map<int, Made>,
      replies: map<nat, Reply>, members: seq<Member>, before: map<NcclId, seq<Member>>,
      groups: map<NcclId, seq<Member>>)
    requires SplitDone(joined, made, replies, before, groups) && Said(joined, calls, members) && i < |calls|
    ensures Placed(calls[i], members, replies, before, groups)
  {
    hide SplitDone, DeviceOn;
    var r := calls[i].rank;
    SplitPartitions(joined, made, replies, before, groups, r, r);
    if calls[i].color != -1 {
      NewRanksFollowKeys(joined, made, replies, before, groups, r, r);
    } else {
      NoColorIsTold(joined, made, replies, before, groups, r);
    }
  }

  lemma NoColorIsTold(joined: map<nat, SplitInfo>, made: map<int, Made>, replies: map<nat, Reply>,
      before: map<NcclId, seq<Member>>, groups: map<NcclId, seq<Member>>, r: nat)
    requires SplitDone(joined, made, replies, before, groups) && r in joined && joined[r].color == -1
    ensures r in replies && replies[r] == NotAMember
  {
    hide AllMade, Recorded;
  }

  lemma SaidAt(joined: map<nat, SplitInfo>, calls: seq<SplitCall>, members: seq<Member>, i: nat)
    requires Said(joined, calls, members) && i < |calls|
    ensures var call := calls[i];
            call.rank in joined && joined[call.rank].color == call.color && joined[call.rank].key == call.key
  {
    hide DeviceOn;
  }

  lemma RelatedBoth(calls: seq<SplitCall>, i: nat, j: nat, joined: map<nat, SplitInfo>, made: map<int, Made>,
      replies: map<nat, Reply>, members: seq<Member>, before: map<NcclId, seq<Member>>,
      groups: map<NcclId, seq<Member>>)
    requires SplitDone(joined, made, replies, before, groups) && Said(joined, calls, members)
    requires i < |calls| && j < |calls| && calls[i].rank != calls[j].rank
    ensures Related(calls[i], calls[j], replies)
  {
    hide SplitDone, Said;
    SaidAt(joined, calls, members, i);
    SaidAt(joined, calls, members, j);
    var a, b := calls[i].rank, calls[j].rank;
    SplitPartitions(joined, made, replies, before, groups, a, b);
    SplitPartitions(joined, made, replies, before, groups, b, a);
    if calls[i].color == calls[j].color && calls[i].color != -1 {
      NewRanksFollowKeys(joined, made, replies, before, groups, a, b);
      NewRanksFollowKeys(joined, made, replies, before, groups, b, a);
    }
  }

  lemma SplitIsAsSaid(calls: seq<SplitCall>, n: nat, joined: map<nat, SplitInfo>, made: map<int, Made>,
      replies: map<nat, Reply>, members: seq<Member>, before: map<NcclId, seq<Member>>,
      groups: map<NcclId, seq<Member>>)
    requires SplitDone(joined, made, replies, before, groups) && Said(joined, calls, members) && CallOnce(calls, n)
    ensures SplitAsSaid(calls, members, replies, before, groups)
  {
    hide SplitDone, DeviceOn, Placed, Related, Said;
    forall i | 0 <= i < |calls| ensures Placed(calls[i], members, replies, before, groups) {
      PlacedOne(calls, i, joined, made, replies, members, before, groups);
    }
    forall i, j | 0 <= i < |calls| && 0 <= j < |calls| && i != j ensures Related(calls[i], calls[j], replies) {
      assert calls[i].rank != calls[j].rank;
      RelatedBoth(calls, i, j, joined, made, replies, members, before, groups);
    }
    OldStay(joined, made, replies, before, groups);
  }

  lemma OldStay(joined: map<nat, SplitInfo>, made: map<int, Made>, replies: map<nat, Reply>,
      before: map<NcclId, seq<Member>>, groups: map<NcclId, seq<Member>>)
    requires SplitDone(joined, made, replies, before, groups)
    ensures forall id :: id in before ==> id in groups && groups[id] == before[id]
  {
    hide AllMade, Told;
  }

  lemma NothingSaid(members: seq<Member>)
    ensures Said(map[], [], members)
  {
  }

  /** A call that is not the last one only waits. */
  lemma NotTheLast(groups: map<NcclId, seq<Member>>, waiting: map<NcclId, SplitWaiting>,
      groups': map<NcclId, seq<Member>>, waiting': map<NcclId, SplitWaiting>, id: NcclId, calls: seq<SplitCall>, i: nat,
      joined: map<nat, SplitInfo>, info: SplitInfo, replies: map<nat, Reply>, made: map<int, Made>)
    requires id in groups && CallOnce(calls, |groups[id]|) && i + 1 < |calls|
    requires SplitCalled(groups, waiting, groups', waiting', id, calls[i].rank, info, replies, made)
    requires if i == 0 then id !in waiting && joined == map[]
             else id in waiting && WaitingOk(waiting[id], |calls|) && joined == waiting[id].joined
    requires Said(joined[calls[i].rank := info], calls[..i + 1], groups[id])
    ensures groups' == groups && id in waiting' && waiting' == waiting[id := waiting'[id]]
    ensures waiting'[id].joined == joined[calls[i].rank := info]
  {
    hide SplitDone, Said, WaitingOk, Collectives.Ranks;
    if i > 0 {
      var w := SplitWaiting(joined[calls[i].rank := info], waiting[id].waitingFor - {calls[i].rank});
      NextWaits(waiting[id], |calls|, calls[i].rank, info);
      SomeoneIsAwaited(w, calls, groups[id], i + 1, |calls|);
    }
  }

  lemma WaitsRightly(c: Comms, id: NcclId)
    requires c.Valid() && id in c.splitWaiting
    ensures id in c.groups && WaitingOk(c.splitWaiting[id], |c.groups[id]|)
  {
    hide Value;
  }

  /** All ranks of a communicator, of two or more, split it, in any order: nothing happens before the last call,
      and that one tells every rank its place as the arguments of all calls say. */
  method SplitByAll(c: Comms, id: NcclId, calls: seq<SplitCall>) returns (replies: map<nat, Reply>)
    requires c.Valid() && id in c.groups && id !in c.splitWaiting && |c.groups[id]| >= 2
    requires CallOnce(calls, |c.groups[id]|) && c.issued + |calls| < Pow256(ID_LENGTH)
    modifies c`groups, c`splitWaiting, c`issued, c.uniqueId
    ensures c.Valid() && c.splitWaiting == old(c.splitWaiting)
    ensures SplitAsSaid(calls, old(c.groups)[id], replies, old(c.groups), c.groups)
  {
    hide SplitDone, DeviceOn, Said, WaitingOk, Value, Pow256, Collectives.Ranks, SplitAsSaid, SplitCalled;
    ghost var n, members, before, waiting := |calls|, c.groups[id], c.groups, c.splitWaiting;
    var last := |calls| - 1;
    for i := 0 to last
      invariant c.Valid() && c.groups == before && c.issued == old(c.issued)
      invariant if i == 0 then c.splitWaiting == waiting
                else id in c.splitWaiting && c.splitWaiting == waiting[id := c.splitWaiting[id]]
                     && Said(c.splitWaiting[id].joined, calls[..i], members)
    {
      ghost var joined, waitingNow := if i == 0 then map[] else c.splitWaiting[id].joined, c.splitWaiting;
      if i > 0 { WaitsRightly(c, id); }
      NothingSaid(members);
      assert calls[..0] == [];
      ghost var info, made;
      replies, info, made := c.CommSplit(calls[i].host, calls[i].rank, id, calls[i].color, calls[i].key);
      SaidOneMore(joined, calls, members, i, info);
      NotTheLast(before, waitingNow, c.groups, c.splitWaiting, id, calls, i, joined, info, replies, made);
    }
    WaitsRightly(c, id);
    ghost var waitingNow := c.splitWaiting;
    ghost var info, made;
    replies, info, made := c.CommSplit(calls[last].host, calls[last].rank, id, calls[last].color, calls[last].key);
    TheLast(before, waitingNow, c.groups, c.splitWaiting, id, calls, info, replies, made);
    RemoveAgain(waiting, id, waitingNow[id]);
  }

  /** The last call makes the new communicators. */
  lemma TheLast(groups: map<NcclId, seq<Member>>, waiting: map<NcclId, SplitWaiting>,
      groups': map<NcclId, seq<Member>>, waiting': map<NcclId, SplitWaiting>, id: NcclId, calls: seq<SplitCall>,
      info: SplitInfo, replies: map<nat, Reply>, made: map<int, Made>)
    requires id in groups && id in waiting && CallOnce(calls, |groups[id]|) && calls != []
    requires WaitingOk(waiting[id], |calls|) && Said(waiting[id].joined, calls[..|calls| - 1], groups[id])
    requires var call := calls[|calls| - 1];
             && info.host == call.host && info.color == call.color && info.key == call.key
             && DeviceOn(groups[id], call.host, info.device)
             && SplitCalled(groups, waiting, groups', waiting', id, call.rank, info, replies, made)
    ensures waiting' == waiting - {id} && SplitAsSaid(calls, groups[id], replies, groups, groups')
  {
    hide SplitDone, DeviceOn, Said, WaitingOk, Collectives.Ranks, SplitAsSaid;
    var n, last, members, w := |calls|, |calls| - 1, groups[id], waiting[id];
    SaidOneMore(w.joined, calls, members, last, info);
    assert calls[..last + 1] == calls;
    NextWaits(w, n, calls[last].rank, info);
    var w' := SplitWaiting(w.joined[calls[last].rank := info], w.waitingFor - {calls[last].rank});
    NobodyIsAwaited(w', calls, members, n);
    SplitIsAsSaid(calls, n, w'.joined, made, replies, members, groups, groups');
  }

  /*** A whole communicator ***/

  /** The ranks that have called are recorded with what they said, and the others are awaited. */
  ghost predicate CalledSoFar(w: InitWaiting, members: seq<Member>, called: set<nat>) {
    && w.joined.Keys == called && w.waitingFor == Collectives.Ranks(|members|) - called
    && forall r: nat :: r in w.joined && r < |members| ==> w.joined[r] == members[r]
  }

  ghost predicate EachOnce(order: seq<nat>, n: nat) {
    |order| == n && (forall i :: 0 <= i < n ==> order[i] < n) && Sequences.Distinct(order)
  }

  lemma EachIsThere(order: seq<nat>, n: nat)
    requires EachOnce(order, n)
    ensures Sequences.Elems(order) == Collectives.Ranks(n)
  {
    Sequences.DistinctSize(order);
    RanksCount(n);
    SameSize(Sequences.Elems(order), Collectives.Ranks(n));
  }

  /** A call that is not the last one only waits. */
  lemma OneMoreInits(groups: map<NcclId, seq<Member>>, waiting: map<NcclId, InitWaiting>,
      groups': map<NcclId, seq<Member>>, waiting': map<NcclId, InitWaiting>, id: NcclId, members: seq<Member>,
      order: seq<nat>, i: nat, answered: seq<Member>)
    requires EachOnce(order, |members|) && i + 1 < |order|
    requires InitCalled(groups, waiting, groups', waiting', id, order[i], members[order[i]], |members|, answered)
    requires if i == 0 then id !in waiting
             else id in waiting && CalledSoFar(waiting[id], members, Sequences.Elems(order[..i]))
    ensures groups' == groups && id in waiting' && waiting' == waiting[id := waiting'[id]]
    ensures CalledSoFar(waiting'[id], members, Sequences.Elems(order[..i + 1]))
  {
    hide Collectives.Ranks;
    Sequences.ElemsPrefix(order, i);
    assert order[..0] == [];
    Sequences.ElemsPrefix(order, i + 1);
    assert order[i + 1] in Collectives.Ranks(|members|) && order[i + 1] !in Sequences.Elems(order[..i + 1]);
  }

  /** All ranks of a new communicator, two or more, call in any order: nothing happens before the last call, and that
      one records exactly what they said, rank by rank, and tells all of them. */
  method InitByAll(c: Comms, id: NcclId, members: seq<Member>, order: seq<nat>) returns (answered: seq<Member>)
    requires c.Valid() && |id| == 128 && Value(id) < c.issued && id !in c.splitWaiting && id !in c.initWaiting
    requires |members| >= 2 && EachOnce(order, |members|)
    modifies c`groups, c`initWaiting
    ensures c.Valid() && c.initWaiting == old(c.initWaiting)
    ensures c.groups == old(c.groups)[id := members] && answered == members
  {
    hide Value, Pow256, Collectives.Ranks, CalledSoFar, Sequences.Distinct, Sequences.Elems;
    ghost var before, waiting := c.groups, c.initWaiting;
    var n := |members|;
    EachIsThere(order, n);
    for i := 0 to n - 1
      invariant c.Valid() && c.groups == before && id !in c.splitWaiting
      invariant if i == 0 then c.initWaiting == waiting
                else id in c.initWaiting && c.initWaiting == waiting[id := c.initWaiting[id]]
                     && CalledSoFar(c.initWaiting[id], members, Sequences.Elems(order[..i]))
    {
      ghost var waitingNow := c.initWaiting;
      if i > 0 { AllAreRanks(waitingNow[id], members, order, i); }
      answered := c.InitRank(members[order[i]].host, members[order[i]].device, order[i], n, id);
      OneMoreInits(before, waitingNow, c.groups, c.initWaiting, id, members, order, i, answered);
    }
    ghost var waitingNow := c.initWaiting;
    AllAreRanks(waitingNow[id], members, order, n - 1);
    answered := c.InitRank(members[order[n - 1]].host, members[order[n - 1]].device, order[n - 1], n, id);
    LastInitsAll(before, waitingNow, c.groups, c.initWaiting, id, members, order, answered);
    assert waitingNow - {id} == waiting;
  }

  lemma AllAreRanks(w: InitWaiting, members: seq<Member>, order: seq<nat>, i: nat)
    requires EachOnce(order, |members|) && i <= |order| && CalledSoFar(w, members, Sequences.Elems(order[..i]))
    ensures w.joined.Keys + w.waitingFor == Collectives.Ranks(|members|)
  {
    hide Collectives.Ranks;
  }

  lemma LastInitsAll(groups: map<NcclId, seq<Member>>, waiting: map<NcclId, InitWaiting>,
      groups': map<NcclId, seq<Member>>, waiting': map<NcclId, InitWaiting>, id: NcclId, members: seq<Member>,
      order: seq<nat>, answered: seq<Member>)
    requires EachOnce(order, |members|) && order != [] && id in waiting
    requires var i := |order| - 1;
             && CalledSoFar(waiting[id], members, Sequences.Elems(order[..i]))
             && InitCalled(groups, waiting, groups', waiting', id, order[i], members[order[i]], |members|, answered)
    ensures groups' == groups[id := members] && waiting' == waiting - {id} && answered == members
  {
    hide Collectives.Ranks;
    var i := |order| - 1;
    EachIsThere(order, |members|);
    Sequences.ElemsPrefix(order, i);
    assert order[..i + 1] == order;
    assert waiting[id].waitingFor - {order[i]} == {};
    assert forall r: nat :: r < |members| ==> answered[r] == members[r];
    assert answered == members;
  }
}
