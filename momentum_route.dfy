/** `GET /api/momentum` (src/app/api/momentum/route.ts): the orders are grouped by song, every
    song with at least two orders gets its price momentum, and the 50 strongest movements (by
    absolute momentum score) are returned. */
module MomentumRoute {
  import opened Wrappers
  import opened Types
  import opened Seqs
  import opened Sorting
  import opened JsMath
  import opened Api
  import Calculator
  import Musicow

  /** `!order.song_id` skips orders without a song id and with an empty one. */
  predicate Keyed(w: OrderWithMetrics)
  {
    w.order.songId.Some? && w.order.songId.value != ""
  }

  function KeyOf(w: OrderWithMetrics): string
  {
    if w.order.songId.Some? then w.order.songId.value else ""
  }

  function InSong(id: string): OrderWithMetrics -> bool
  {
    (w: OrderWithMetrics) => w.order.songId == Some(id)
  }

  /** The song ids in the order the grouping map first meets them. */
  function SongKeys(orders: seq<OrderWithMetrics>): seq<string>
  {
    Distinct(Map(Filter(orders, Keyed), KeyOf))
  }

  /** `keys` and `groups` are the grouping map after walking `seen`: `keys` is the map's
      insertion order, `groups[k]` the orders of song `k` in input order, and every listed song
      id is non-empty. */
  ghost predicate Grouped(seen: seq<OrderWithMetrics>, keys: seq<string>,
                          groups: map<string, seq<OrderWithMetrics>>)
  {
    && keys == SongKeys(seen)
    && (forall k :: k in groups <==> k in keys)
    && (forall k :: k in groups ==> k != "" && groups[k] == Filter(seen, InSong(k)))
  }

  lemma KeysStep(seen: seq<OrderWithMetrics>, o: OrderWithMetrics)
    ensures SongKeys(seen + [o]) ==
      if !Keyed(o) || KeyOf(o) in SongKeys(seen) then SongKeys(seen) else SongKeys(seen) + [KeyOf(o)]
  {
    DistinctKeysSnoc(seen, o, Keyed, KeyOf);
  }

  lemma GroupStep(seen: seq<OrderWithMetrics>, o: OrderWithMetrics, k: string)
    ensures Filter(seen + [o], InSong(k)) ==
      Filter(seen, InSong(k)) + (if o.order.songId == Some(k) then [o] else [])
  {
    FilterAppend(seen, [o], InSong(k));
  }

  /** Every order with a song id contributes that id to the keys. */
  lemma KeyedListed(seen: seq<OrderWithMetrics>, i: nat)
    requires i < |seen| && Keyed(seen[i])
    ensures KeyOf(seen[i]) in SongKeys(seen)
  {
    var keyed := Filter(seen, Keyed);
    assert seen[i] in keyed;
    var j :| 0 <= j < |keyed| && keyed[j] == seen[i];
    assert Map(keyed, KeyOf)[j] == KeyOf(seen[i]);
  }

  /** A song id not met yet has no orders so far. */
  lemma UnseenSongHasNoOrders(seen: seq<OrderWithMetrics>, id: string)
    requires id != "" && id !in SongKeys(seen)
    ensures Filter(seen, InSong(id)) == []
  {
    forall i | 0 <= i < |seen| ensures !InSong(id)(seen[i]) {
      if Keyed(seen[i]) {
        KeyedListed(seen, i);
      }
    }
    FilterNone(seen, InSong(id));
  }

  /** One step of the `forEach`: skip an order without a song id, otherwise append it to its
      song's group, opening the group when the song is new. */
  method AddOrder(seen: seq<OrderWithMetrics>, o: OrderWithMetrics, keys: seq<string>,
                  groups: map<string, seq<OrderWithMetrics>>)
    returns (keys': seq<string>, groups': map<string, seq<OrderWithMetrics>>)
    requires Grouped(seen, keys, groups)
    ensures Grouped(seen + [o], keys', groups')
  {
    if !Keyed(o) {
      UnkeyedStep(seen, o, keys, groups);
      return keys, groups;
    }
    var id := o.order.songId.value;
    var existing := if id in groups then groups[id] else [];
    groups' := groups[id := existing + [o]];
    keys' := if id in keys then keys else keys + [id];
    KeyedStep(seen, o, keys, groups, id, keys', groups');
  }

  lemma UnkeyedStep(seen: seq<OrderWithMetrics>, o: OrderWithMetrics, keys: seq<string>,
                    groups: map<string, seq<OrderWithMetrics>>)
    requires Grouped(seen, keys, groups) && !Keyed(o)
    ensures Grouped(seen + [o], keys, groups)
  {
    KeysStep(seen, o);
    forall k | k in groups ensures groups[k] == Filter(seen + [o], InSong(k)) {
      GroupStep(seen, o, k);
    }
  }

  lemma KeyedStep(seen: seq<OrderWithMetrics>, o: OrderWithMetrics, keys: seq<string>,
                  groups: map<string, seq<OrderWithMetrics>>, id: string, keys': seq<string>,
                  groups': map<string, seq<OrderWithMetrics>>)
    requires Grouped(seen, keys, groups) && Keyed(o) && id == o.order.songId.value
    requires keys' == if id in keys then keys else keys + [id]
    requires groups' == groups[id := (if id in groups then groups[id] else []) + [o]]
    ensures Grouped(seen + [o], keys', groups')
  {
    KeysStep(seen, o);
    if id !in groups {
      UnseenSongHasNoOrders(seen, id);
    }
    GroupStep(seen, o, id);
    KeyedGroups(seen, o, groups, id, groups');
  }

  lemma KeyedGroups(seen: seq<OrderWithMetrics>, o: OrderWithMetrics,
                    groups: map<string, seq<OrderWithMetrics>>, id: string,
                    groups': map<string, seq<OrderWithMetrics>>)
    requires forall k :: k in groups ==> k != "" && groups[k] == Filter(seen, InSong(k))
    requires id != "" && o.order.songId == Some(id)
    requires Filter(seen + [o], InSong(id)) == (if id in groups then groups[id] else []) + [o]
    requires groups' == groups[id := (if id in groups then groups[id] else []) + [o]]
    ensures forall k :: k in groups' ==> k != "" && groups'[k] == Filter(seen + [o], InSong(k))
  {
    forall k | k in groups' ensures k != "" && groups'[k] == Filter(seen + [o], InSong(k)) {
      if k != id {
        GroupStep(seen, o, k);
      }
    }
  }

  /** The `forEach` that fills `songMap`. */
  method GroupBySong(orders: seq<OrderWithMetrics>)
    returns (keys: seq<string>, groups: map<string, seq<OrderWithMetrics>>)
    ensures keys == SongKeys(orders)
    ensures forall k :: k in groups <==> k in keys
    ensures forall k :: k in groups ==> k != "" && groups[k] == Filter(orders, InSong(k))
  {
    keys := [];
    groups := map[];
    for i := 0 to |orders|
      invariant Grouped(orders[..i], keys, groups)
    {
      assert orders[..i + 1] == orders[..i] + [orders[i]];
      keys, groups := AddOrder(orders[..i], orders[i], keys, groups);
    }
    assert orders[..|orders|] == orders;
  }

  /** Songs with at least two orders: the others map to `null` and are filtered out. */
  function Active(orders: seq<OrderWithMetrics>): string -> bool
  {
    (k: string) => |Filter(orders, InSong(k))| >= 2
  }

  function MomentumOf(orders: seq<OrderWithMetrics>, timeOf: string -> int): string -> MomentumData
  {
    (k: string) => Calculator.PriceMomentum(Orders(orders), k, timeOf)
  }

  function AbsScore(m: MomentumData): real { Abs(m.momentumScore) }

  const TopCount: nat := 50

  /** The momentum of every song with at least two orders, in the map's key order. */
  function Candidates(orders: seq<OrderWithMetrics>, timeOf: string -> int): seq<MomentumData>
  {
    Map(Filter(SongKeys(orders), Active(orders)), MomentumOf(orders, timeOf))
  }

  /** `.sort(descending |momentum_score|).slice(0, 50)`. */
  function TopMomentum(orders: seq<OrderWithMetrics>, timeOf: string -> int): seq<MomentumData>
  {
    JsSlice(SortWith(Candidates(orders, timeOf), ByKeyDesc(AbsScore)), 0, TopCount)
  }

  const FailureMessage: string := "Failed to calculate momentum"

  /** The route's answer: the top momentum list on success, status 500 with an empty list when
      fetching fails. */
  function MomentumResponseFor(payload: Musicow.Payload, timeOf: string -> int, now: string)
    : Response<seq<MomentumData>>
  {
    match Musicow.OrdersWithMetrics(payload)
    case Success(orders) => Ok(TopMomentum(orders, timeOf), now)
    case Failure(_) => ServerError(FailureMessage, [], now)
  }

  /** `GET`: groups with the map, keeps the songs whose group has two orders or more, computes
      their momentum, ranks and truncates. */
  method MomentumGet(payload: Musicow.Payload, timeOf: string -> int, now: string)
    returns (r: Response<seq<MomentumData>>)
    ensures r == MomentumResponseFor(payload, timeOf, now)
  {
    var fetched := Musicow.OrdersWithMetrics(payload);
    if fetched.Failure? {
      return ServerError(FailureMessage, [], now);
    }
    var orders := fetched.value;
    var keys, groups := GroupBySong(orders);
    var active := Filter(keys, (k: string) => k in groups && |groups[k]| >= 2);
    FilterCongruentOn(keys, (k: string) => k in groups && |groups[k]| >= 2, Active(orders));
    var momentumData := Map(active, MomentumOf(orders, timeOf));
    r := Ok(JsSlice(SortWith(momentumData, ByKeyDesc(AbsScore)), 0, TopCount), now);
  }

  /** The song's orders seen as plain orders are as many as its enriched orders. */
  lemma {:induction false} SongOrdersCount(ws: seq<OrderWithMetrics>, k: string)
    ensures |Filter(Orders(ws), Calculator.SameSong(Some(k)))| == |Filter(ws, InSong(k))|
  {
    if ws != [] {
      assert Orders(ws)[1..] == Orders(ws[1..]);
      SongOrdersCount(ws[1..], k);
    }
  }

  /** Every candidate is the momentum of a song with two orders or more, so its price history
      holds at least two prices and its trend and score come from the price change. */
  lemma CandidateHasHistory(orders: seq<OrderWithMetrics>, timeOf: string -> int, i: nat)
    requires i < |Candidates(orders, timeOf)|
    ensures var m := Candidates(orders, timeOf)[i];
      && |m.prices| >= 2
      && m.trend == Calculator.TrendOf(m.recentChangePercent)
      && m.momentumScore == Calculator.ClampScore(m.recentChangePercent)
  {
    var active := Filter(SongKeys(orders), Active(orders));
    var k := active[i];
    assert Active(orders)(k);
    SongOrdersCount(orders, k);
    var line := Calculator.SongTimeline(Orders(orders), k, timeOf);
    assert |line| == |multiset(line)|;
  }

  /** Every entry of a ranked list is one of the candidates, so it has a price history of two
      or more orders. */
  lemma RankedHaveHistory(orders: seq<OrderWithMetrics>, timeOf: string -> int, top: seq<MomentumData>)
    requires multiset(top) <= multiset(Candidates(orders, timeOf))
    ensures forall i :: 0 <= i < |top| ==> |top[i].prices| >= 2
  {
    var c := Candidates(orders, timeOf);
    forall i | 0 <= i < |top| ensures |top[i].prices| >= 2 {
      assert top[i] in multiset(c);
      var j :| 0 <= j < |c| && c[j] == top[i];
      CandidateHasHistory(orders, timeOf, j);
    }
  }

  /** What `GET /api/momentum` answers: on success at most 50 entries, from the largest
      absolute momentum score down, each for a song with a price history of two or more
      orders. When fetching fails: status 500 and an empty list. */
  lemma MomentumResponseProperties(payload: Musicow.Payload, timeOf: string -> int, now: string)
    ensures var r := MomentumResponseFor(payload, timeOf, now);
      && (r.success <==> payload.ArrayPayload?)
      && (!r.success ==> r.status == 500 && r.data == [] && r.error == Some(FailureMessage))
      && |r.data| <= TopCount
      && (forall i, j :: 0 <= i < j < |r.data| ==> AbsScore(r.data[i]) >= AbsScore(r.data[j]))
      && (forall i :: 0 <= i < |r.data| ==> |r.data[i].prices| >= 2)
  {
    if payload.ArrayPayload? {
      var orders := Musicow.OrdersWithMetrics(payload).value;
      var top := TopMomentum(orders, timeOf);
      TopDescending(Candidates(orders, timeOf), AbsScore, TopCount, top);
      RankedHaveHistory(orders, timeOf, top);
    }
  }

  /** Truncating to 50 drops only the weakest movements: a candidate that is left out has an
      absolute score no larger than any listed entry's. */
  lemma MomentumTopKeepsStrongest(orders: seq<OrderWithMetrics>, timeOf: string -> int)
    ensures var top := TopMomentum(orders, timeOf);
      forall x, y :: y in top && multiset(top)[x] < multiset(Candidates(orders, timeOf))[x] ==>
        AbsScore(y) >= AbsScore(x)
  {
    TopDescending(Candidates(orders, timeOf), AbsScore, TopCount, TopMomentum(orders, timeOf));
  }
}
