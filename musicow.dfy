/** Normalisation of the order feed and the fetch pipeline without its HTTP call
    (src/lib/api/musicow.ts). */
module Musicow {
  import opened Wrappers
  import opened Types
  import opened Seqs
  import opened Text
  import opened Calculator

  /** An element of the feed: the fields the normaliser copies. */
  datatype RawOrder = RawOrder(
    orderNo: string,
    orderDate: string,
    songName: string,
    songArtist: string,
    songCategory: string,
    orderType: OrderType,
    orderStatus: OrderStatus,
    orderPrice: real,
    orderCount: real,
    leavesCount: real,
    recentPrice: real,
    orderRoyaltyRate: real,
    urlLink: Option<string>)

  /** The decoded response body: an array of orders, or anything else. */
  datatype Payload = ArrayPayload(items: seq<RawOrder>) | OtherPayload

  // ---------------------------------------------------------------- /\/song\/(\d+)/

  /** The pattern matches at `i`: "/song/" followed by at least one ASCII digit. */
  predicate SongLinkAt(url: string, i: int)
  {
    0 <= i && i + 7 <= |url| && url[i..i + 6] == "/song/" && IsDigit(url[i + 6])
  }

  /** The leftmost position at or after `from` where the pattern matches, if any. */
  function FirstSongLink(url: string, from: nat): (r: Option<nat>)
    requires from <= |url|
    ensures r.None? ==> forall j :: from <= j ==> !SongLinkAt(url, j)
    ensures r.Some? ==> from <= r.value && SongLinkAt(url, r.value)
                        && forall j :: from <= j < r.value ==> !SongLinkAt(url, j)
    decreases |url| - from
  {
    if SongLinkAt(url, from) then Some(from)
    else if from == |url| then None
    else FirstSongLink(url, from + 1)
  }

  /** The longest run of digits at the start of `s` (what the greedy `\d+` captures). */
  function DigitRun(s: string): (r: string)
    ensures |r| <= |s| && r == s[..|r|]
    ensures forall i :: 0 <= i < |r| ==> IsDigit(r[i])
    ensures |r| < |s| ==> !IsDigit(s[|r|])
  {
    if s != [] && IsDigit(s[0]) then
      var t := DigitRun(s[1..]);
      assert [s[0]] + t == s[..|t| + 1];
      [s[0]] + t
    else []
  }

  /** The song number captured from a link: the digits after the leftmost "/song/" that is
      followed by a digit; `None` when the pattern does not occur. */
  function ExtractSongId(url: string): (r: Option<string>)
    ensures r.None? <==> forall j :: !SongLinkAt(url, j)
    ensures r.Some? ==> |r.value| > 0 && forall i :: 0 <= i < |r.value| ==> IsDigit(r.value[i])
  {
    match FirstSongLink(url, 0)
    case None => None
    case Some(i) => Some(DigitRun(url[i + 6..]))
  }

  /** A digit run ends where the digits end. */
  lemma {:induction false} DigitRunOfDigits(d: string, rest: string)
    requires forall i :: 0 <= i < |d| ==> IsDigit(d[i])
    requires rest == [] || !IsDigit(rest[0])
    ensures DigitRun(d + rest) == d
  {
    if d != [] {
      assert (d + rest)[1..] == d[1..] + rest;
      DigitRunOfDigits(d[1..], rest);
      assert d == [d[0]] + d[1..];
    } else {
      assert d + rest == rest;
    }
  }

  /** A link written as "/song/<n>" followed by anything that does not continue the number
      yields the decimal form of `n`. */
  lemma SongIdRoundTrip(n: nat, rest: string)
    requires rest == [] || !IsDigit(rest[0])
    ensures ExtractSongId("/song/" + NatToString(n) + rest) == Some(NatToString(n))
  {
    var d := NatToString(n);
    var url := "/song/" + d + rest;
    assert url[0..6] == "/song/";
    assert url[6] == d[0];
    assert SongLinkAt(url, 0);
    assert url[6..] == d + rest;
    DigitRunOfDigits(d, rest);
  }

  /** The example in the source comment: "/song/1737" yields "1737". */
  lemma ExtractExample()
    ensures ExtractSongId("/song/1737") == Some("1737")
  {
    assert NatToString(1737) == "1737";
    SongIdRoundTrip(1737, "");
    assert "/song/" + "1737" + "" == "/song/1737";
  }

  // ---------------------------------------------------------------- normalisation

  /** `normalizeOrder`: the feed's fields copied, the order number doubling as the order id,
      the count doubling as the quantity, and the song id taken from the link, or the order
      number when the link is absent or names no song. */
  function NormalizeOrder(raw: RawOrder): (o: Order)
    ensures o.orderNo == raw.orderNo && o.orderDate == raw.orderDate
    ensures o.songName == raw.songName && o.songArtist == raw.songArtist && o.songCategory == raw.songCategory
    ensures o.orderType == raw.orderType && o.orderStatus == raw.orderStatus
    ensures o.orderPrice == raw.orderPrice && o.orderCount == raw.orderCount
    ensures o.leavesCount == raw.leavesCount && o.recentPrice == raw.recentPrice
    ensures o.orderRoyaltyRate == raw.orderRoyaltyRate && o.urlLink == raw.urlLink
    ensures o.orderId == Some(raw.orderNo) && o.orderQuantity == Some(raw.orderCount)
    ensures IdOrNumber(o) == raw.orderNo && QuantityOrCount(o) == raw.orderCount
    ensures o.songId.Some?
    ensures raw.urlLink.Some? && ExtractSongId(raw.urlLink.value).Some? ==>
      o.songId == ExtractSongId(raw.urlLink.value)
    ensures raw.urlLink.None? || ExtractSongId(raw.urlLink.value).None? ==> o.songId == Some(raw.orderNo)
    ensures o.orderUserId.None? && o.createdAt.None? && o.updatedAt.None?
  {
    var songId :=
      match raw.urlLink
      case Some(url) => ExtractSongId(url).GetOr(raw.orderNo)
      case None => raw.orderNo;
    Order(raw.orderNo, raw.orderDate, raw.songName, raw.songArtist, raw.songCategory,
          raw.orderType, raw.orderStatus, raw.orderPrice, raw.orderCount, raw.leavesCount,
          raw.recentPrice, raw.orderRoyaltyRate, raw.urlLink,
          Some(raw.orderNo), Some(raw.orderCount), Some(songId), None, None, None)
  }

  /** Two feed orders whose links name the same song number land in the same cohort. */
  lemma SameLinkSameCohort(a: RawOrder, b: RawOrder, all: seq<Order>)
    requires a.urlLink.Some? && b.urlLink.Some?
    requires ExtractSongId(a.urlLink.value).Some?
    requires ExtractSongId(a.urlLink.value) == ExtractSongId(b.urlLink.value)
    ensures Cohort(NormalizeOrder(a), all) == Cohort(NormalizeOrder(b), all)
  {
  }

  const InvalidFormat: string := "Invalid data format: expected array"

  /** `fetchOrdersWithMetrics` after the response has arrived: anything but an array is
      rejected; otherwise every element is normalised and the batch metrics are computed over
      the whole list. */
  function OrdersWithMetrics(payload: Payload): (r: Result<seq<OrderWithMetrics>, string>)
    ensures payload.OtherPayload? <==> r.Failure?
    ensures r.Failure? ==> r.error == InvalidFormat
    ensures r.Success? ==>
      && |r.value| == |payload.items|
      && (forall i :: 0 <= i < |payload.items| ==> r.value[i].order == NormalizeOrder(payload.items[i]))
      && r.value == BatchMetrics(Map(payload.items, NormalizeOrder))
  {
    match payload
    case OtherPayload => Failure(InvalidFormat)
    case ArrayPayload(items) => Success(BatchMetrics(Map(items, NormalizeOrder)))
  }

  /** After normalisation every order has a song id, so every order of a fetched list belongs
      to a cohort of orders that share its id. */
  lemma FetchedOrdersHaveSongIds(payload: Payload)
    requires payload.ArrayPayload?
    ensures var r := OrdersWithMetrics(payload);
      forall i :: 0 <= i < |r.value| ==> r.value[i].order.songId.Some?
  {
  }
}
