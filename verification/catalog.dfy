/** Cards and the shaping of one fetched batch: the records the listing
    endpoint returns, the image URL built for each (with a per-batch
    cache-buster), and the truncation of the batch to the requested size. */
module Catalog {
  import Decimal

  /** The number of cards one session asks for. */
  const CAT_COUNT: nat := 15

  /** A record of the listing endpoint; only its id is used. */
  datatype CatRecord = CatRecord(id: string)

  /** A displayable card: the record's id and its resolved image URL. */
  datatype Card = Card(id: string, url: string)

  /** What the listing request produced: a decoded array of records, or the
      error thrown when the request itself fails, the status is not a
      success, or the body cannot be read. */
  datatype FetchError = NetworkError | BadStatus | MalformedBody
  datatype Reply = Delivered(data: seq<CatRecord>) | Failed(error: FetchError)

  const URL_PREFIX: string := "https://cataas.com/cat/"
  const URL_QUERY: string := "?width=420&height=560&cb="

  /** The two values a cat image URL carries. */
  datatype ImageUrl = NotACatUrl | CatUrl(id: string, cb: nat)

  /** The length of the longest all-digit suffix of `s`. */
  function TrailingDigits(s: string): (k: nat)
    ensures k <= |s|
    ensures forall i :: |s| - k <= i < |s| ==> Decimal.IsDigit(s[i])
    ensures k < |s| ==> !Decimal.IsDigit(s[|s| - 1 - k])
    decreases |s|
  {
    if |s| > 0 && Decimal.IsDigit(s[|s| - 1]) then 1 + TrailingDigits(s[..|s| - 1]) else 0
  }

  /** Reads an image URL back into its id and cache-buster: the cache-buster
      is the trailing run of digits, and what sits between the fixed prefix
      and the fixed query is the id. */
  function ParseCatImageUrl(url: string): ImageUrl {
    var k := TrailingDigits(url);
    var body := url[..|url| - k];
    if k == 0 || |body| < |URL_PREFIX| + |URL_QUERY| then NotACatUrl
    else if body[..|URL_PREFIX|] != URL_PREFIX then NotACatUrl
    else if body[|body| - |URL_QUERY|..] != URL_QUERY then NotACatUrl
    else
      var digits := url[|url| - k..];
      assert Decimal.AllDigits(digits) by {
        forall i | 0 <= i < |digits| ensures Decimal.IsDigit(digits[i]) {
          assert digits[i] == url[|url| - k + i];
        }
      }
      CatUrl(body[|URL_PREFIX|..|body| - |URL_QUERY|], Decimal.ToNat(digits))
  }

  /** A run of digits placed after a non-digit is exactly the trailing run. */
  lemma {:induction false} TrailingDigitsAfterNonDigit(a: string, b: string)
    requires |a| > 0 && !Decimal.IsDigit(a[|a| - 1])
    requires Decimal.AllDigits(b)
    ensures TrailingDigits(a + b) == |b|
    decreases |b|
  {
    if |b| > 0 {
      var b' := b[..|b| - 1];
      assert (a + b)[..|a + b| - 1] == a + b';
      TrailingDigitsAfterNonDigit(a, b');
    } else {
      assert a + b == a;
    }
  }

  /** The URL template reads back as the id and cache-buster filled into
      it. */
  lemma TemplateParsesBack(id: string, cb: nat)
    ensures ParseCatImageUrl(URL_PREFIX + id + URL_QUERY + Decimal.FromNat(cb)) == CatUrl(id, cb)
  {
    var digits := Decimal.FromNat(cb);
    var body := URL_PREFIX + id + URL_QUERY;
    var url := URL_PREFIX + id + URL_QUERY + digits;
    assert url == body + digits;
    assert body[|body| - 1] == '=';
    TrailingDigitsAfterNonDigit(body, digits);
    assert url[..|url| - |digits|] == body;
    assert url[|url| - |digits|..] == digits;
    assert body[..|URL_PREFIX|] == URL_PREFIX;
    assert body[|body| - |URL_QUERY|..] == URL_QUERY;
    assert body[|URL_PREFIX|..|body| - |URL_QUERY|] == id;
    Decimal.ToNatFromNat(cb);
  }

  /** The image URL of cat `id`, made cache-distinct by `cb`: it reads back
      as exactly that id and cache-buster. */
  function BuildCatImageUrl(id: string, cb: nat): (url: string)
    ensures ParseCatImageUrl(url) == CatUrl(id, cb)
  {
    TemplateParsesBack(id, cb);
    URL_PREFIX + id + URL_QUERY + Decimal.FromNat(cb)
  }

  /** Two URLs are equal only when both the id and the cache-buster are: a
      new cache-buster always yields a new URL for the same cat. */
  lemma UrlInjective(id1: string, cb1: nat, id2: string, cb2: nat)
    ensures BuildCatImageUrl(id1, cb1) == BuildCatImageUrl(id2, cb2) <==> id1 == id2 && cb1 == cb2
  {
    var u1 := BuildCatImageUrl(id1, cb1);
    var u2 := BuildCatImageUrl(id2, cb2);
    assert ParseCatImageUrl(u1) == CatUrl(id1, cb1);
    assert ParseCatImageUrl(u2) == CatUrl(id2, cb2);
  }

  /** The batch handed to the deck: the first `limit` records, in order, each
      with the URL built from its id and the one cache-buster `cb` of this
      fetch. */
  function ShapeBatch(data: seq<CatRecord>, limit: nat, cb: nat): (batch: seq<Card>)
    ensures |batch| == if |data| < limit then |data| else limit
    ensures forall i :: 0 <= i < |batch| ==> batch[i].id == data[i].id
    ensures forall i :: 0 <= i < |batch| ==> batch[i].url == BuildCatImageUrl(data[i].id, cb)
    decreases |data|
  {
    if |data| == 0 || limit == 0 then []
    else [Card(data[0].id, BuildCatImageUrl(data[0].id, cb))] + ShapeBatch(data[1..], limit - 1, cb)
  }

  /** Every URL of a batch reads back as its own card's id and the batch's
      cache-buster, so the whole batch shares one cache-buster. */
  lemma BatchSharesCacheBuster(data: seq<CatRecord>, limit: nat, cb: nat, i: nat)
    requires i < |data| && i < limit
    ensures ParseCatImageUrl(ShapeBatch(data, limit, cb)[i].url) == CatUrl(data[i].id, cb)
  {
    assert ShapeBatch(data, limit, cb)[i].url == BuildCatImageUrl(data[i].id, cb);
  }

  /** Outcome of `fetchCats`: the shaped batch, or the error it throws. */
  datatype Fetched = Cards(cards: seq<Card>) | Threw(error: FetchError)

  /** `fetchCats(limit, skip)` once the request's reply is known; the skip
      only chooses which reply the endpoint gives. */
  function FetchCats(reply: Reply, limit: nat, cb: nat): (r: Fetched)
    ensures r.Threw? <==> reply.Failed?
    ensures r.Threw? ==> r.error == reply.error
    ensures r.Cards? ==> r.cards == ShapeBatch(reply.data, limit, cb)
    ensures r.Cards? ==> |r.cards| == if |reply.data| < limit then |reply.data| else limit
  {
    match reply
    case Failed(e) => Threw(e)
    case Delivered(data) =>
      Cards(ShapeBatch(data, limit, cb))
  }
}
