/** The delay engine's buffer seen as values: a contiguous run of messages, the index
    of those the output can start from, and what they cost. */
module Ring {
  import opened Wrappers
  import opened EngineTypes

  function Cost(size: nat): nat { size + ENTRY_OVERHEAD }

  function RingCost(ring: seq<Entry>): nat {
    if ring == [] then 0 else Cost(ring[0].payload.size) + RingCost(ring[1..])
  }

  lemma {:induction false} RingCostConcat(a: seq<Entry>, b: seq<Entry>)
    ensures RingCost(a + b) == RingCost(a) + RingCost(b)
  {
    if a == [] {
      assert a + b == b;
    } else {
      assert (a + b)[1..] == a[1..] + b;
      RingCostConcat(a[1..], b);
    }
  }

  function HeadersCost(headers: seq<HeaderRec>): nat {
    if headers == [] then 0 else Cost(headers[0].payload.size) + HeadersCost(headers[1..])
  }

  lemma {:induction false} HeadersCostConcat(a: seq<HeaderRec>, b: seq<HeaderRec>)
    ensures HeadersCost(a + b) == HeadersCost(a) + HeadersCost(b)
  {
    if a == [] {
      assert a + b == b;
    } else {
      assert (a + b)[1..] == a[1..] + b;
      HeadersCostConcat(a[1..], b);
    }
  }

  lemma HeadersCostTail(headers: seq<HeaderRec>)
    ensures headers != [] ==> HeadersCost(headers) == Cost(headers[0].payload.size) + HeadersCost(headers[1..])
    ensures headers == [] ==> HeadersCost(headers) == 0
  {
  }

  lemma HeadersCostMore(headers: seq<HeaderRec>, r: HeaderRec)
    ensures HeadersCost(headers + [r]) == HeadersCost(headers) + Cost(r.payload.size)
  {
    HeadersCostConcat(headers, [r]);
    assert HeadersCost([r]) == Cost(r.payload.size) + HeadersCost([]);
  }

  /** One record fewer costs no more. */
  lemma HeadersCostLess(headers: seq<HeaderRec>, i: nat)
    requires i < |headers|
    ensures HeadersCost(headers[..i] + headers[i + 1..]) <= HeadersCost(headers)
  {
    hide HeadersCost;
    assert headers == headers[..i] + ([headers[i]] + headers[i + 1..]);
    HeadersCostConcat(headers[..i], [headers[i]] + headers[i + 1..]);
    HeadersCostConcat([headers[i]], headers[i + 1..]);
    HeadersCostConcat(headers[..i], headers[i + 1..]);
  }

  function SessionCost(s: Session): nat {
    Cost(if s.metadata.Some? then s.metadata.value.size else 0) + HeadersCost(s.headers)
  }

  function SessionsCost(sessions: seq<Session>): nat {
    if sessions == [] then 0 else SessionCost(sessions[0]) + SessionsCost(sessions[1..])
  }

  lemma {:induction false} SessionsCostConcat(a: seq<Session>, b: seq<Session>)
    ensures SessionsCost(a + b) == SessionsCost(a) + SessionsCost(b)
  {
    if a == [] {
      assert a + b == b;
    } else {
      assert (a + b)[1..] == a[1..] + b;
      SessionsCostConcat(a[1..], b);
    }
  }

  /** What the sessions cost but for the last one, and the last one. */
  lemma SessionsCostSplit(sessions: seq<Session>)
    requires sessions != []
    ensures SessionsCost(sessions) ==
      SessionsCost(sessions[..|sessions| - 1]) + SessionCost(sessions[|sessions| - 1])
  {
    var last := sessions[|sessions| - 1];
    assert sessions == sessions[..|sessions| - 1] + [last];
    SessionsCostConcat(sessions[..|sessions| - 1], [last]);
    assert SessionsCost([last]) == SessionCost(last) + SessionsCost([]);
  }

  lemma SessionsCostSuffix(sessions: seq<Session>, n: nat)
    requires n <= |sessions|
    ensures SessionsCost(sessions[n..]) <= SessionsCost(sessions)
  {
    assert sessions == sessions[..n] + sessions[n..];
    SessionsCostConcat(sessions[..n], sessions[n..]);
  }

  ghost predicate HasSession(sessions: seq<Session>, id: nat) {
    exists i :: 0 <= i < |sessions| && sessions[i].id == id
  }

  // ----- positions and the index ------------------------------------------------

  predicate Increasing(xs: seq<nat>) {
    forall i, j :: 0 <= i < j < |xs| ==> xs[i] < xs[j]
  }

  /** Numbers follow on from `base`, times and sessions never go back. */
  predicate Contiguous(ring: seq<Entry>, base: nat) {
    && (forall i :: 0 <= i < |ring| ==> ring[i].num == base + i)
    && (forall i, j :: 0 <= i <= j < |ring| ==>
          ring[i].arrival <= ring[j].arrival && ring[i].session <= ring[j].session)
    && (forall i, j :: 0 <= i < j < |ring| ==> ring[i].id < ring[j].id)
    && (forall i :: 0 <= i < |ring| ==> ring[i].sync ==> ring[i].config.None?)
  }

  /** `syncs` are exactly the numbers of the sync points in the ring, in order. */
  predicate Indexes(syncs: seq<nat>, ring: seq<Entry>, base: nat) {
    && Increasing(syncs)
    && (forall s :: s in syncs ==> base <= s < base + |ring| && ring[s - base].sync)
    && (forall i :: 0 <= i < |ring| && ring[i].sync ==> base + i in syncs)
  }

  /** The newest number in `xs` that `p` accepts. */
  function FindLast(xs: seq<nat>, p: nat -> bool): (r: Option<nat>)
    ensures r.Some? ==> r.value in xs && p(r.value)
    ensures r.Some? && Increasing(xs) ==> forall x :: x in xs && p(x) ==> x <= r.value
    ensures r.None? ==> forall x :: x in xs ==> !p(x)
  {
    if xs == [] then None
    else
      var last := xs[|xs| - 1];
      var rest := xs[..|xs| - 1];
      assert xs == rest + [last];
      if p(last) then Some(last) else FindLast(rest, p)
  }

  /** The oldest number in `xs` that `p` accepts. */
  function FindFirst(xs: seq<nat>, p: nat -> bool): (r: Option<nat>)
    ensures r.Some? ==> r.value in xs && p(r.value)
    ensures r.Some? && Increasing(xs) ==> forall x :: x in xs && p(x) ==> r.value <= x
    ensures r.None? ==> forall x :: x in xs ==> !p(x)
  {
    if xs == [] then None
    else
      assert xs == [xs[0]] + xs[1..];
      if p(xs[0]) then Some(xs[0]) else FindFirst(xs[1..], p)
  }

  /** A look-up in the index finds what a scan of the ring would: the newest, or the oldest,
      of the sync points `p` accepts, and none only if there is none. */
  lemma LookUpIsScan(syncs: seq<nat>, ring: seq<Entry>, base: nat, p: nat -> bool)
    requires Indexes(syncs, ring, base)
    ensures FindLast(syncs, p) == ScanLast(ring, base, p) && FindFirst(syncs, p) == ScanFirst(ring, base, p)
  {
    LastIsScan(syncs, ring, base, p);
    FirstIsScan(syncs, ring, base, p);
  }

  lemma LastIsScan(syncs: seq<nat>, ring: seq<Entry>, base: nat, p: nat -> bool)
    requires Indexes(syncs, ring, base)
    ensures FindLast(syncs, p) == ScanLast(ring, base, p)
  {
    hide FindLast, ScanLast, Indexes;
    IndexIncreases(syncs, ring, base);
    ScanLastIsLast(ring, base, p);
    var scan := ScanLast(ring, base, p);
    if scan.Some? {
      InIndex(syncs, ring, base, p, scan.value);
    }
    if FindLast(syncs, p).Some? {
      InRing(syncs, ring, base, p, FindLast(syncs, p).value);
    }
  }

  lemma FirstIsScan(syncs: seq<nat>, ring: seq<Entry>, base: nat, p: nat -> bool)
    requires Indexes(syncs, ring, base)
    ensures FindFirst(syncs, p) == ScanFirst(ring, base, p)
  {
    hide FindFirst, ScanFirst, Indexes;
    IndexIncreases(syncs, ring, base);
    ScanFirstIsFirst(ring, base, p);
    var scan := ScanFirst(ring, base, p);
    if scan.Some? {
      InIndex(syncs, ring, base, p, scan.value);
    }
    if FindFirst(syncs, p).Some? {
      InRing(syncs, ring, base, p, FindFirst(syncs, p).value);
    }
  }

  lemma IndexIncreases(syncs: seq<nat>, ring: seq<Entry>, base: nat)
    requires Indexes(syncs, ring, base)
    ensures Increasing(syncs)
  {
  }

  lemma InRing(syncs: seq<nat>, ring: seq<Entry>, base: nat, p: nat -> bool, x: nat)
    requires Indexes(syncs, ring, base) && x in syncs && p(x)
    ensures base <= x && Accepts(ring, base, p, x - base)
  {
  }

  lemma InIndex(syncs: seq<nat>, ring: seq<Entry>, base: nat, p: nat -> bool, x: nat)
    requires Indexes(syncs, ring, base) && base <= x && Accepts(ring, base, p, x - base)
    ensures x in syncs && p(x)
  {
  }

  predicate Accepts(ring: seq<Entry>, base: nat, p: nat -> bool, i: nat) {
    i < |ring| && ring[i].sync && p(base + i)
  }

  function ScanLast(ring: seq<Entry>, base: nat, p: nat -> bool): Option<nat> {
    if ring == [] then None
    else if ring[|ring| - 1].sync && p(base + |ring| - 1) then Some(base + |ring| - 1)
    else ScanLast(ring[..|ring| - 1], base, p)
  }

  function ScanFirst(ring: seq<Entry>, base: nat, p: nat -> bool): Option<nat> {
    if ring == [] then None
    else if ring[0].sync && p(base) then Some(base)
    else ScanFirst(ring[1..], base + 1, p)
  }

  lemma {:induction false} ScanLastIsLast(ring: seq<Entry>, base: nat, p: nat -> bool)
    ensures var r := ScanLast(ring, base, p);
      && (r.Some? ==> base <= r.value && Accepts(ring, base, p, r.value - base))
      && (forall i: nat :: Accepts(ring, base, p, i) ==> r.Some? && base + i <= r.value)
  {
    if ring != [] {
      var rest := ring[..|ring| - 1];
      ScanLastIsLast(rest, base, p);
      forall i: nat | Accepts(ring, base, p, i) && i < |rest|
        ensures ScanLast(rest, base, p).Some? && base + i <= ScanLast(rest, base, p).value
      {
        assert Accepts(rest, base, p, i);
      }
    }
  }

  lemma {:induction false} ScanFirstIsFirst(ring: seq<Entry>, base: nat, p: nat -> bool)
    ensures var r := ScanFirst(ring, base, p);
      && (r.Some? ==> base <= r.value && Accepts(ring, base, p, r.value - base))
      && (forall i: nat :: Accepts(ring, base, p, i) ==> r.Some? && r.value <= base + i)
  {
    if ring != [] {
      var rest := ring[1..];
      ScanFirstIsFirst(rest, base + 1, p);
      forall i: nat | Accepts(ring, base, p, i) && 0 < i
        ensures ScanFirst(rest, base + 1, p).Some? && ScanFirst(rest, base + 1, p).value <= base + i
      {
        assert Accepts(rest, base + 1, p, i - 1);
      }
    }
  }

  // ----- decoder configuration --------------------------------------------------

  /** Configuration per track after `headers` in order: a later one replaces an earlier. */
  function MapOf(headers: seq<HeaderRec>): map<Track, Payload> {
    if headers == [] then map[]
    else
      var h := headers[|headers| - 1];
      MapOf(headers[..|headers| - 1])[h.track := h.payload]
  }

  /** The records from before message `num`. */
  function Before(headers: seq<HeaderRec>, num: nat): seq<HeaderRec> {
    if headers == [] then []
    else
      var rest := Before(headers[..|headers| - 1], num);
      var h := headers[|headers| - 1];
      if h.num < num then rest + [h] else rest
  }

  /** The configuration in effect at message `num`. */
  function InEffect(headers: seq<HeaderRec>, num: nat): map<Track, Payload> {
    MapOf(Before(headers, num))
  }

  ghost predicate AllNumsBelow(headers: seq<HeaderRec>, num: nat) {
    forall i :: 0 <= i < |headers| ==> headers[i].num < num
  }

  /** `a` has everything `b` has. */
  predicate Includes(a: map<Track, Payload>, b: map<Track, Payload>) {
    forall t :: t in b ==> t in a && a[t] == b[t]
  }

  /** The configuration after `e` has been sent. */
  function After(e: Entry): map<Track, Payload> {
    match e.config
    case Some(c) => e.cfg[Track(e.kind, c) := e.payload]
    case None => e.cfg
  }

  lemma {:induction false} MapOfConcat(a: seq<HeaderRec>, b: seq<HeaderRec>)
    ensures MapOf(a + b) == MapOf(a) + MapOf(b)
  {
    if b == [] {
      assert a + b == a;
    } else {
      assert (a + b)[..|a + b| - 1] == a + b[..|b| - 1];
      MapOfConcat(a, b[..|b| - 1]);
    }
  }

  lemma {:induction false} BeforeConcat(a: seq<HeaderRec>, b: seq<HeaderRec>, num: nat)
    ensures Before(a + b, num) == Before(a, num) + Before(b, num)
  {
    if b == [] {
      assert a + b == a;
    } else {
      assert (a + b)[..|a + b| - 1] == a + b[..|b| - 1];
      BeforeConcat(a, b[..|b| - 1], num);
    }
  }

  lemma {:induction false} BeforeAll(headers: seq<HeaderRec>, num: nat)
    requires AllNumsBelow(headers, num)
    ensures Before(headers, num) == headers
  {
    if headers != [] {
      BeforeAll(headers[..|headers| - 1], num);
    }
  }

  /** `headers` without those of `track`. */
  function Without(headers: seq<HeaderRec>, track: Track): seq<HeaderRec> {
    if headers == [] then []
    else
      var rest := Without(headers[..|headers| - 1], track);
      var h := headers[|headers| - 1];
      if h.track == track then rest else rest + [h]
  }

  lemma {:induction false} MapOfWithout(headers: seq<HeaderRec>, track: Track)
    ensures MapOf(Without(headers, track)) == MapOf(headers) - {track}
  {
    if headers != [] {
      var rest, h := headers[..|headers| - 1], headers[|headers| - 1];
      MapOfWithout(rest, track);
      if h.track != track {
        assert (Without(rest, track) + [h])[..|Without(rest, track)|] == Without(rest, track);
      }
    }
  }

  /** Replacing a track's record by a later one leaves the same map as adding it. */
  lemma MapOfReplaced(headers: seq<HeaderRec>, h: HeaderRec)
    ensures MapOf(Without(headers, h.track) + [h]) == MapOf(headers)[h.track := h.payload]
  {
    MapOfWithout(headers, h.track);
    MapOfConcat(Without(headers, h.track), [h]);
    assert MapOf([h]) == map[h.track := h.payload];
  }

  /** `b` keeps, for messages from `base` on, the configuration `a` has. */
  ghost predicate SameFrom(a: seq<HeaderRec>, b: seq<HeaderRec>, base: nat) {
    && MapOf(b) == MapOf(a)
    && (forall num :: base <= num ==> InEffect(b, num) == InEffect(a, num))
    && (forall num :: AllNumsBelow(a, num) ==> AllNumsBelow(b, num))
  }

  /** A record whose track comes again later adds nothing to the map. */
  lemma MapOfMiddle(a: seq<HeaderRec>, h: HeaderRec, b: seq<HeaderRec>)
    requires h.track in MapOf(b)
    ensures MapOf(a + [h] + b) == MapOf(a + b)
  {
    MapOfConcat(a + [h], b);
    MapOfConcat(a, b);
    MapOfConcat(a, [h]);
    MapOfOne(h);
    hide MapOf;
    Overridden(MapOf(a), h.track, h.payload, MapOf(b));
  }

  lemma MapOfOne(h: HeaderRec)
    ensures MapOf([h]) == map[h.track := h.payload]
  {
    assert [h][..0] == [];
  }

  lemma Overridden(a: map<Track, Payload>, t: Track, p: Payload, b: map<Track, Payload>)
    requires t in b
    ensures a + map[t := p] + b == a + b
  {
  }

  lemma InEffectMiddle(a: seq<HeaderRec>, h: HeaderRec, b: seq<HeaderRec>, num: nat)
    requires h.track in InEffect(b, num)
    ensures InEffect(a + [h] + b, num) == InEffect(a + b, num)
  {
    BeforeConcat(a + [h], b, num);
    BeforeConcat(a, b, num);
    BeforeConcat(a, [h], num);
    assert Before([h], num) == if h.num < num then [h] else [];
    if h.num < num {
      MapOfMiddle(Before(a, num), h, Before(b, num));
    } else {
      assert Before(a, num) + [] == Before(a, num);
    }
  }

  /** A record that a later one replaces before `base` is not needed from there on. */
  lemma ReplacedNotNeeded(headers: seq<HeaderRec>, i: nat, j: nat, base: nat)
    requires i < j < |headers| && headers[j].track == headers[i].track && headers[j].num < base
    ensures SameFrom(headers, headers[..i] + headers[i + 1..], base)
  {
    hide MapOf, InEffect;
    var a, h, b := headers[..i], headers[i], headers[i + 1..];
    assert headers == a + [h] + b;
    TrackInMap(b, j - i - 1);
    MapOfMiddle(a, h, b);
    forall num | base <= num ensures InEffect(a + b, num) == InEffect(headers, num) {
      TrackInEffect(b, j - i - 1, num);
      InEffectMiddle(a, h, b, num);
    }
    forall num | AllNumsBelow(headers, num) ensures AllNumsBelow(a + b, num) {
      forall k | 0 <= k < |a + b| ensures (a + b)[k].num < num {
        assert (a + b)[k] == if k < i then headers[k] else headers[k + 1];
      }
    }
  }

  lemma {:induction false} TrackInMap(headers: seq<HeaderRec>, j: nat)
    requires j < |headers|
    ensures headers[j].track in MapOf(headers)
  {
    if j < |headers| - 1 {
      TrackInMap(headers[..|headers| - 1], j);
    }
  }

  lemma {:induction false} TrackInEffect(headers: seq<HeaderRec>, j: nat, num: nat)
    requires j < |headers| && headers[j].num < num
    ensures headers[j].track in InEffect(headers, num)
  {
    var rest, h := headers[..|headers| - 1], headers[|headers| - 1];
    assert headers == rest + [h];
    BeforeConcat(rest, [h], num);
    MapOfConcat(Before(rest, num), Before([h], num));
    if j < |headers| - 1 {
      TrackInEffect(rest, j, num);
    } else {
      assert Before([h], num) == [h];
      assert MapOf([h]) == map[h.track := h.payload];
    }
  }
}
