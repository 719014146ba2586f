// indexer/lib/getLogsRange.ts: how many addresses one merged eth_getLogs request can name, and how
// many blocks it may then span. The bound is proved for every request the client can build by
// merging per-(source, event) filters, in any order.
module GetLogs {
  import opened Common

  // What the backup endpoint answers: addresses times blocks in one request.
  const RPC_MAX_GET_LOGS_ADDRESS_BLOCKS: nat := 200_000

  // A source's `address`: none, one, a list, or a factory() whose children are only known at run
  // time and whose own address is one of the first three.
  datatype Plain = Absent | One(address: nat) | Many(list: seq<nat>)

  datatype SourceAddress = Fixed(plain: Plain) | Factory(own: Plain)

  datatype AbiItem = Event(selector: nat) | NotAnEvent

  datatype Source = Source(name: string, address: SourceAddress, abi: seq<AbiItem>)

  function Count(a: Plain): nat {
    match a
    case Absent => 0
    case One(_) => 1
    case Many(list) => |list|
  }

  function Own(s: Source): nat {
    match s.address
    case Fixed(plain) => Count(plain)
    case Factory(own) => Count(own)
  }

  function Selectors(s: Source): set<nat> {
    set item | item in s.abi && item.Event? :: item.selector
  }

  // ---------------------------------------------------------------- the bound

  // The addresses of every source whose ABI has the event, counted source by source.
  function Sharing(sources: seq<Source>, selector: nat): nat {
    if sources == [] then 0
    else
      var last := sources[|sources| - 1];
      Sharing(sources[..|sources| - 1], selector) + if selector in Selectors(last) then Own(last) else 0
  }

  function FactoryNames(sources: seq<Source>): seq<string> {
    if sources == [] then []
    else
      var last := sources[|sources| - 1];
      FactoryNames(sources[..|sources| - 1]) + if last.address.Factory? then [last.name] else []
  }

  ghost predicate IsBound(sources: seq<Source>, max: nat) {
    && (forall s :: s in sources ==> Own(s) <= max)
    && (forall selector: nat :: Sharing(sources, selector) <= max)
  }

  ghost predicate IsReached(sources: seq<Source>, max: nat) {
    max == 0 || (exists s :: s in sources && Own(s) == max) || (exists selector: nat :: Sharing(sources, selector) == max)
  }

  // The least number that bounds every source's own list and every event's shared total: when no list repeats an
  // address, some source really has that many, or the sources of some event do, each with its own.
  method MaxAddressesPerGetLogs(sources: seq<Source>) returns (max: nat, unbounded: seq<string>)
    ensures IsBound(sources, max) && IsReached(sources, max)
    ensures (forall s :: s in sources ==> NoRepeats(Listed(s))) ==> IsLeast(sources, max)
    ensures unbounded == FactoryNames(sources)
    ensures forall name :: name in unbounded <==> exists s :: s in sources && s.address.Factory? && s.name == name
  {
    var bySelector: map<nat, nat> := map[];
    max, unbounded := 0, [];
    for i := 0 to |sources|
      invariant unbounded == FactoryNames(sources[..i])
      invariant forall s :: s in sources[..i] ==> Own(s) <= max
      invariant max == 0 || exists s :: s in sources[..i] && Own(s) == max
      invariant forall selector: nat :: Sharing(sources[..i], selector) == Get(bySelector, selector, 0)
    {
      var source := sources[i];
      var own := Own(source);
      assert sources[..i + 1][..i] == sources[..i];
      if source.address.Factory? {
        unbounded := unbounded + [source.name];
      }
      max := if own > max then own else max;
      bySelector := AddToEach(bySelector, Selectors(source), own);
      assert forall s :: s in sources[..i + 1] <==> s in sources[..i] || s == source;
    }
    assert sources[..|sources|] == sources;
    ghost var largest := max;
    var rest := bySelector.Keys;
    while rest != {}
      invariant rest <= bySelector.Keys && max >= largest
      invariant forall selector :: selector in bySelector.Keys - rest ==> bySelector[selector] <= max
      invariant max == largest || exists selector :: selector in bySelector && bySelector[selector] == max
    {
      var selector :| selector in rest;
      max := if bySelector[selector] > max then bySelector[selector] else max;
      rest := rest - {selector};
    }
    forall selector: nat ensures Sharing(sources, selector) <= max {
      assert Sharing(sources, selector) == Get(bySelector, selector, 0);
    }
    if max != largest {
      var selector :| selector in bySelector && bySelector[selector] == max;
      assert Sharing(sources, selector) == max;
    }
    NamesOfFactories(sources);
    if forall s :: s in sources ==> NoRepeats(Listed(s)) {
      BoundIsTight(sources, max);
    }
  }

  // One more source's addresses on each of its events' totals.
  method AddToEach(totals: map<nat, nat>, selectors: set<nat>, own: nat) returns (r: map<nat, nat>)
    ensures forall k: nat :: Get(r, k, 0) == Get(totals, k, 0) + if k in selectors then own else 0
  {
    r := totals;
    var rest := selectors;
    while rest != {}
      invariant rest <= selectors
      invariant forall k: nat :: Get(r, k, 0) == Get(totals, k, 0) + if k in selectors - rest then own else 0
    {
      var selector :| selector in rest;
      r := r[selector := Get(r, selector, 0) + own];
      rest := rest - {selector};
    }
  }

  // The bound is one number, whatever order the sources' events are visited in.
  lemma BoundUnique(sources: seq<Source>, a: nat, b: nat)
    requires IsBound(sources, a) && IsReached(sources, a) && IsBound(sources, b) && IsReached(sources, b)
    ensures a == b
  {
    if 0 < a && !(exists s :: s in sources && Own(s) == a) {
      var selector: nat :| Sharing(sources, selector) == a;
      assert Sharing(sources, selector) <= b;
    }
    if 0 < b && !(exists s :: s in sources && Own(s) == b) {
      var selector: nat :| Sharing(sources, selector) == b;
      assert Sharing(sources, selector) <= a;
    }
  }

  // ---------------------------------------------------------------- the bound against the addresses themselves

  // The addresses a source names, its factory's own for a factory.
  function Listed(s: Source): Plain { match s.address case Fixed(plain) => plain case Factory(own) => own }

  predicate NoRepeats(a: Plain) {
    a.Many? ==> forall i, j :: 0 <= i < j < |a.list| ==> a.list[i] != a.list[j]
  }

  // How many addresses the sources of one event have, each source with its own.
  function EmittersOf(sources: seq<Source>, selector: nat): nat {
    if sources == [] then 0
    else
      var last := sources[|sources| - 1];
      EmittersOf(sources[..|sources| - 1], selector) + if AbiItem.Event(selector) in last.abi then |AddressSet(Listed(last))| else 0
  }

  ghost predicate IsLeast(sources: seq<Source>, max: nat) {
    && (forall s :: s in sources ==> |AddressSet(Listed(s))| <= max)
    && (forall selector: nat :: EmittersOf(sources, selector) <= max)
    && (max == 0 || (exists s :: s in sources && |AddressSet(Listed(s))| == max)
        || exists selector: nat :: EmittersOf(sources, selector) == max)
  }

  lemma {:induction false} ListLength(list: seq<nat>)
    requires NoRepeats(Many(list))
    ensures |Members(list)| == |list|
  {
    if list != [] {
      var n := |list| - 1;
      ListLength(list[..n]);
      assert list == list[..n] + [list[n]];
      assert Members(list) == Members(list[..n]) + {list[n]};
      assert list[n] !in Members(list[..n]);
    }
  }

  lemma CountIsAddresses(a: Plain)
    requires NoRepeats(a)
    ensures Count(a) == |AddressSet(a)|
  {
    if a.Many? {
      ListLength(a.list);
    }
  }

  lemma {:induction false} SharingIsEmitters(sources: seq<Source>, selector: nat)
    requires forall s :: s in sources ==> NoRepeats(Listed(s))
    ensures Sharing(sources, selector) == EmittersOf(sources, selector)
  {
    if sources != [] {
      var n := |sources| - 1;
      assert sources == sources[..n] + [sources[n]];
      SharingIsEmitters(sources[..n], selector);
      CountIsAddresses(Listed(sources[n]));
      assert selector in Selectors(sources[n]) <==> AbiItem.Event(selector) in sources[n].abi by {
        if selector in Selectors(sources[n]) {
          var item :| item in sources[n].abi && item.Event? && item.selector == selector;
          assert item == AbiItem.Event(selector);
        }
      }
    }
  }

  lemma BoundIsTight(sources: seq<Source>, max: nat)
    requires IsBound(sources, max) && IsReached(sources, max)
    requires forall s :: s in sources ==> NoRepeats(Listed(s))
    ensures IsLeast(sources, max)
  {
    forall s | s in sources ensures Own(s) == |AddressSet(Listed(s))| {
      CountIsAddresses(Listed(s));
    }
    forall selector: nat ensures Sharing(sources, selector) == EmittersOf(sources, selector) {
      SharingIsEmitters(sources, selector);
    }
    if exists selector: nat :: Sharing(sources, selector) == max {
      var selector: nat :| Sharing(sources, selector) == max;
      assert EmittersOf(sources, selector) == max;
    } else if max != 0 {
      var s :| s in sources && Own(s) == max;
      assert |AddressSet(Listed(s))| == max;
    }
  }

  // A list that repeats an address counts it each time, as the client does; the names keep the sources' order.
  lemma {:induction false} CountedAndNamedInOrder(list: seq<nat>, more: seq<nat>, sources: seq<Source>, others: seq<Source>)
    ensures Count(Many(list + more)) == Count(Many(list)) + Count(Many(more)) && forall x :: Count(Many([x])) == 1
    ensures FactoryNames(sources + others) == FactoryNames(sources) + FactoryNames(others)
    decreases |others|
  {
    if others == [] {
      assert sources + others == sources;
    } else {
      var n := |others| - 1;
      CountedAndNamedInOrder(list, more, sources, others[..n]);
      assert (sources + others)[..|sources + others| - 1] == sources + others[..n];
    }
  }

  lemma {:induction false} NamesOfFactories(sources: seq<Source>)
    ensures forall name :: name in FactoryNames(sources) <==> exists s :: s in sources && s.address.Factory? && s.name == name
  {
    if sources != [] {
      var n := |sources| - 1;
      NamesOfFactories(sources[..n]);
      assert sources == sources[..n] + [sources[n]];
      assert forall s :: s in sources <==> s in sources[..n] || s == sources[n];
    }
  }

  // ---------------------------------------------------------------- the requests a client can build

  // One filter per event of a source with known addresses, and the two merges: equal address sets
  // unite their topics, equal topic sets unite their addresses.
  datatype Request =
    | Filter(source: Source, selector: nat)
    | SameAddresses(left: Request, right: Request)
    | SameTopics(left: Request, right: Request)

  function Members(list: seq<nat>): set<nat> {
    set address | address in list
  }

  function AddressSet(a: Plain): set<nat> {
    match a
    case Absent => {}
    case One(address) => {address}
    case Many(list) => Members(list)
  }

  function Addresses(r: Request): set<nat> {
    match r
    case Filter(source, _) => if source.address.Fixed? then AddressSet(source.address.plain) else {}
    case SameAddresses(left, _) => Addresses(left)
    case SameTopics(left, right) => Addresses(left) + Addresses(right)
  }

  function Topics(r: Request): set<nat> {
    match r
    case Filter(_, selector) => {selector}
    case SameAddresses(left, right) => Topics(left) + Topics(right)
    case SameTopics(left, _) => Topics(left)
  }

  predicate Buildable(sources: seq<Source>, r: Request) {
    match r
    case Filter(source, selector) => source in sources && source.address.Fixed? && selector in Selectors(source)
    case SameAddresses(left, right) => Buildable(sources, left) && Buildable(sources, right) && Addresses(left) == Addresses(right)
    case SameTopics(left, right) => Buildable(sources, left) && Buildable(sources, right) && Topics(left) == Topics(right)
  }

  // Every address of every source with known addresses whose ABI has the event.
  function Emitters(sources: seq<Source>, selector: nat): set<nat> {
    if sources == [] then {}
    else
      var last := sources[|sources| - 1];
      Emitters(sources[..|sources| - 1], selector)
      + if last.address.Fixed? && selector in Selectors(last) then AddressSet(last.address.plain) else {}
  }

  lemma UnionNoLarger(a: set<nat>, b: set<nat>)
    ensures |a + b| <= |a| + |b|
  {
    assert |a + b| == |a| + |b - a| by { assert a + b == a + (b - a); }
    SubsetNoLarger(b - a, b);
  }

  lemma {:induction false} SetNoLonger(list: seq<nat>)
    ensures |Members(list)| <= |list|
  {
    if list != [] {
      var n := |list| - 1;
      SetNoLonger(list[..n]);
      assert list == list[..n] + [list[n]];
      UnionNoLarger(Members(list[..n]), {list[n]});
      assert Members(list) == Members(list[..n]) + {list[n]};
    }
  }

  lemma {:induction false} EmittersCounted(sources: seq<Source>, selector: nat)
    ensures |Emitters(sources, selector)| <= Sharing(sources, selector)
  {
    if sources != [] {
      var n := |sources| - 1;
      EmittersCounted(sources[..n], selector);
      if sources[n].address.Fixed? && selector in Selectors(sources[n]) {
        UnionNoLarger(Emitters(sources[..n], selector), AddressSet(sources[n].address.plain));
        if sources[n].address.plain.Many? {
          SetNoLonger(sources[n].address.plain.list);
        }
      }
    }
  }

  lemma {:induction false} SourceEmits(sources: seq<Source>, s: Source, selector: nat)
    requires s in sources && s.address.Fixed? && selector in Selectors(s)
    ensures AddressSet(s.address.plain) <= Emitters(sources, selector)
  {
    var n := |sources| - 1;
    if s in sources[..n] {
      SourceEmits(sources[..n], s, selector);
    } else {
      assert sources == sources[..n] + [sources[n]];
    }
  }

  // What every merge keeps: the request has a topic, and each of its topics is emitted at all of its addresses.
  lemma {:induction false} MergesStayWithinEmitters(sources: seq<Source>, r: Request, topic: nat)
    requires Buildable(sources, r) && topic in Topics(r)
    ensures Addresses(r) <= Emitters(sources, topic)
  {
    match r
    case Filter(source, selector) => SourceEmits(sources, source, selector);
    case SameAddresses(left, right) =>
      if topic in Topics(left) {
        MergesStayWithinEmitters(sources, left, topic);
      } else {
        MergesStayWithinEmitters(sources, right, topic);
      }
    case SameTopics(left, right) =>
      MergesStayWithinEmitters(sources, left, topic);
      MergesStayWithinEmitters(sources, right, topic);
  }

  lemma {:induction false} SomeTopic(r: Request) returns (topic: nat)
    ensures topic in Topics(r)
  {
    match r
    case Filter(_, selector) => topic := selector;
    case SameAddresses(left, _) => topic := SomeTopic(left);
    case SameTopics(left, _) => topic := SomeTopic(left);
  }

  lemma SubsetNoLarger(a: set<nat>, b: set<nat>)
    requires a <= b
    ensures |a| <= |b|
  {
    assert b == a + (b - a);
  }

  // No request, however its filters were merged, names more addresses than the bound.
  lemma RequestWithinBound(sources: seq<Source>, r: Request, max: nat)
    requires Buildable(sources, r) && IsBound(sources, max)
    ensures |Addresses(r)| <= max
  {
    var topic := SomeTopic(r);
    MergesStayWithinEmitters(sources, r, topic);
    SubsetNoLarger(Addresses(r), Emitters(sources, topic));
    EmittersCounted(sources, topic);
    assert Sharing(sources, topic) <= max;
  }

  // ---------------------------------------------------------------- the block range

  datatype Range = Blocks(range: nat) | TooManyAddresses

  // The blocks the budget leaves for that many addresses.
  function PerAddress(addresses: nat): nat {
    RPC_MAX_GET_LOGS_ADDRESS_BLOCKS / AtLeastOne(addresses)
  }

  function AtLeastOne(addresses: nat): nat { if addresses > 1 then addresses else 1 }

  function EthGetLogsBlockRange(addresses: nat, cap: nat): Range {
    if PerAddress(addresses) < 1 then TooManyAddresses
    else Blocks(if cap < PerAddress(addresses) then cap else PerAddress(addresses))
  }

  lemma BudgetSpent(addresses: nat)
    ensures AtLeastOne(addresses) * PerAddress(addresses) <= RPC_MAX_GET_LOGS_ADDRESS_BLOCKS
    ensures RPC_MAX_GET_LOGS_ADDRESS_BLOCKS < AtLeastOne(addresses) * (PerAddress(addresses) + 1)
  {
    DivBelow(RPC_MAX_GET_LOGS_ADDRESS_BLOCKS, AtLeastOne(addresses));
  }

  // The largest range within the cap and the budget, refused exactly when not even one block fits.
  lemma RangeIsLargest(addresses: nat, cap: nat)
    ensures EthGetLogsBlockRange(addresses, cap) == TooManyAddresses <==> addresses > 200_000
    ensures var r := EthGetLogsBlockRange(addresses, cap);
            r.Blocks? ==>
              && r.range <= cap && addresses * r.range <= 200_000
              && (0 < addresses ==> forall wider: nat :: r.range < wider <= cap ==> addresses * wider > 200_000)
              && (addresses == 0 ==> r.range == if cap < 200_000 then cap else 200_000)
  {
    hide PerAddress;
    var n := AtLeastOne(addresses);
    BudgetSpent(addresses);
    var r := EthGetLogsBlockRange(addresses, cap);
    if r.Blocks? {
      MulMonotone(n, r.range, PerAddress(addresses));
      MulMonotone(n, 1, PerAddress(addresses));
      forall wider: nat | 0 < addresses && r.range < wider <= cap ensures addresses * wider > RPC_MAX_GET_LOGS_ADDRESS_BLOCKS {
        MulMonotone(n, PerAddress(addresses) + 1, wider);
      }
    }
  }

  // Every request over the configured range stays inside what the backup endpoint answers.
  lemma EveryRequestAnswered(sources: seq<Source>, r: Request, max: nat, cap: nat)
    requires Buildable(sources, r) && IsBound(sources, max)
    ensures var range := EthGetLogsBlockRange(max, cap);
            range.Blocks? ==> |Addresses(r)| * range.range <= 200_000
  {
    RequestWithinBound(sources, r, max);
    RangeIsLargest(max, cap);
    var range := EthGetLogsBlockRange(max, cap);
    if range.Blocks? {
      MulMonotone(range.range, |Addresses(r)|, max);
    }
  }
}
