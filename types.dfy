/**
 * The data of types.go: the response envelope shared by all endpoints, the endpoint
 * identifiers, the three result records, and their nil-safe String renderings.
 */
module Types {
  import opened Wrappers
  import GoStd

  newtype byte = x: int | 0 <= x < 0x100

  /** A Go float64. Rates are only ever copied, never computed, so a real stands for one. */
  type Float64 = real

  /** A Go time.Time, as nanoseconds counted from Go's zero time (January 1, year 1, UTC). */
  datatype Time = Time(nanos: int)

  /** The zero value of time.Time, which is also what time.Parse returns on failure. */
  const ZeroTime := Time(0)

  /** Go's `endpoint` is a string type: any string can be passed, three are meaningful. */
  type Endpoint = string

  const IndexEndpoint: Endpoint := "index"
  const PairEndpoint: Endpoint := "pair"
  const CodesEndpoint: Endpoint := "codes"

  predicate IsKnownEndpoint(e: Endpoint)
  {
    e == IndexEndpoint || e == PairEndpoint || e == CodesEndpoint
  }

  lemma EndpointsDistinct()
    ensures IndexEndpoint != PairEndpoint && PairEndpoint != CodesEndpoint && IndexEndpoint != CodesEndpoint
  {
    assert IndexEndpoint[0] == 'i' && PairEndpoint[0] == 'p' && CodesEndpoint[0] == 'c';
  }

  /**
   * The fields of the envelope that JSON decoding can fill. The two parsed times carry the
   * `json:"-"` tag, so they are not part of the wire form at all.
   */
  datatype WireResponse = WireResponse(
    result: string,
    lastUpdateString: string,
    nextUpdateString: string,
    baseCode: string,
    conversionRateMap: map<string, Float64>,
    targetCode: string,
    conversionRateFloat: Float64,
    supportedCodes: seq<seq<string>>)

  /** responseFromServer: the endpoint-agnostic envelope. */
  datatype ResponseFromServer = ResponseFromServer(
    result: string,
    lastUpdateString: string,
    lastUpdateDateTime: Time,
    nextUpdateString: string,
    nextUpdateDateTime: Time,
    baseCode: string,
    conversionRateMap: map<string, Float64>,
    targetCode: string,
    conversionRateFloat: Float64,
    supportedCodes: seq<seq<string>>)

  /** The JSON-visible part of an envelope. */
  function Wire(r: ResponseFromServer): WireResponse
  {
    WireResponse(r.result, r.lastUpdateString, r.nextUpdateString, r.baseCode,
                 r.conversionRateMap, r.targetCode, r.conversionRateFloat, r.supportedCodes)
  }

  /**
   * Decoding into a fresh envelope: the decoder fills the wire fields and leaves the
   * two parsed times at their zero value.
   */
  function FromWire(w: WireResponse): (r: ResponseFromServer)
    ensures Wire(r) == w
    ensures r.lastUpdateDateTime == ZeroTime && r.nextUpdateDateTime == ZeroTime
  {
    ResponseFromServer(w.result, w.lastUpdateString, ZeroTime, w.nextUpdateString, ZeroTime,
                       w.baseCode, w.conversionRateMap, w.targetCode, w.conversionRateFloat,
                       w.supportedCodes)
  }

  datatype Pair = Pair(baseCode: string, targetCode: string, rate: Float64)

  datatype Index = Index(baseCode: string, rateMap: map<string, Float64>)

  datatype Iso4217 = Iso4217(name: string, code: string)

  const EmptyPair := "empty pair"
  const EmptyIndex := "empty index"
  const EmptyIso4217 := "empty ISO4217"

  /**
   * pair.String. The %.4f rendering of the rate is floating-point formatting and is passed
   * in as `formatRate`. A nil pair, and only a nil pair, renders as "empty pair".
   */
  function PairString(p: Option<Pair>, formatRate: Float64 -> string): (s: string)
    ensures p.None? <==> s == EmptyPair
    ensures p.Some? ==> p.value.baseCode <= s
  {
    if p.None? then EmptyPair
    else p.value.baseCode + " rate to " + p.value.targetCode + ": " + formatRate(p.value.rate)
  }

  /**
   * Reads the two codes back from a pair rendering: the text before the first space, and
   * after " rate to " the text up to the first ":". None when the shape does not match.
   */
  function ParsePairCodes(s: string): Option<(string, string)>
  {
    var i := GoStd.FirstIndexOf(s, ' ');
    if i + 9 <= |s| && s[i..i + 9] == " rate to " then
      var rest := s[i + 9..];
      var k := GoStd.FirstIndexOf(rest, ':');
      if k + 2 <= |rest| && rest[k..k + 2] == ": " then Some((s[..i], rest[..k])) else None
    else None
  }

  /** The rendering of a pair names its two codes recoverably when they hold no " " and no ":". */
  lemma PairStringCodesRoundTrip(p: Pair, formatRate: Float64 -> string)
    requires ' ' !in p.baseCode && ':' !in p.targetCode
    ensures ParsePairCodes(PairString(Some(p), formatRate)) == Some((p.baseCode, p.targetCode))
  {
    var base, target, rate := p.baseCode, p.targetCode, formatRate(p.rate);
    var rest := target + ": " + rate;
    assert PairString(Some(p), formatRate) == base + " rate to " + rest;
    FieldAt(base, ' ', " rate to ", rest);
    FieldAt(target, ':', ": ", rate);
  }

  /**
   * Cutting `head + lit + tail` at the first `c`, where `lit` starts with `c` and `head`
   * holds none, finds `head` before the cut and `lit` then `tail` after it.
   */
  lemma FieldAt(head: string, c: char, lit: string, tail: string)
    requires c !in head && |lit| >= 1 && lit[0] == c
    ensures var s := head + lit + tail;
            var i := GoStd.FirstIndexOf(s, c);
            && i == |head| && i + |lit| <= |s|
            && s[i..i + |lit|] == lit && s[..i] == head && s[i + |lit|..] == tail
  {
    var s := head + lit + tail;
    assert s[|head|] == c;
    assert forall j :: 0 <= j < |head| ==> s[j] == head[j];
    assert s[|head|..|head| + |lit|] == lit;
    assert s[..|head|] == head;
    assert s[|head| + |lit|..] == tail;
  }

  /** iso4217.String: "empty ISO4217" for nil, otherwise the code, " -> " and the name. */
  function IsoString(iso: Option<Iso4217>): (s: string)
    ensures iso.None? <==> s == EmptyIso4217
  {
    if iso.None? then EmptyIso4217
    else
      var s := iso.value.code + " -> " + iso.value.name;
      assert s[|iso.value.code| + 2] == '>';
      assert forall j :: 0 <= j < |EmptyIso4217| ==> EmptyIso4217[j] != '>';
      s
  }

  /**
   * The inverse of IsoString: Some(None) for the nil rendering, Some(Some(iso)) for a
   * rendering of iso, None for a string that is neither.
   */
  function ParseIsoString(s: string): Option<Option<Iso4217>>
  {
    if s == EmptyIso4217 then Some(None)
    else
      var i := GoStd.FirstIndexOf(s, ' ');
      if i + 4 <= |s| && s[i..i + 4] == " -> " then Some(Some(Iso4217(s[i + 4..], s[..i])))
      else None
  }

  /** IsoString can be read back whenever the code holds no space (ISO 4217 codes are letters). */
  lemma IsoStringRoundTrip(iso: Option<Iso4217>)
    requires iso.Some? ==> ' ' !in iso.value.code
    ensures ParseIsoString(IsoString(iso)) == Some(iso)
  {
    if iso.Some? {
      var code, name := iso.value.code, iso.value.name;
      FieldAt(code, ' ', " -> ", name);
    }
  }

  /** One line of index.String; the %.4f rendering of the rate is `formatRate`. */
  function RateLine(code: string, rate: Float64, formatRate: Float64 -> string): string
  {
    "\t" + code + " : " + formatRate(rate) + "\n"
  }

  /** `header` followed by the rate lines for the codes in `order`, in that order. */
  function Rendered(header: string, order: seq<string>, rates: map<string, Float64>, formatRate: Float64 -> string): string
    requires forall i :: 0 <= i < |order| ==> order[i] in rates
  {
    if order == [] then header
    else
      var last := order[|order| - 1];
      Rendered(header, order[..|order| - 1], rates, formatRate) + RateLine(last, rates[last], formatRate)
  }

  /** `order` lists every element of `keys` exactly once. */
  predicate Enumerates(order: seq<string>, keys: set<string>)
  {
    && (forall i, j :: 0 <= i < j < |order| ==> order[i] != order[j])
    && (forall i :: 0 <= i < |order| ==> order[i] in keys)
    && (forall k :: k in keys ==> k in order)
  }

  function IndexHeader(baseCode: string): string
  {
    baseCode + " has rates of:\n"
  }

  /**
   * index.String. Go ranges over the rate map in an unspecified order; the ghost `order`
   * records the order this run took. A nil index, and only a nil index, renders as
   * "empty index"; otherwise the header is followed by one line per code of the map.
   */
  method IndexString(i: Option<Index>, formatRate: Float64 -> string) returns (s: string, ghost order: seq<string>)
    ensures i.None? <==> s == EmptyIndex
    ensures i.None? ==> order == []
    ensures i.Some? ==> Enumerates(order, i.value.rateMap.Keys)
    ensures i.Some? ==> s == Rendered(IndexHeader(i.value.baseCode), order, i.value.rateMap, formatRate)
  {
    if i.None? {
      return EmptyIndex, [];
    }
    var rates := i.value.rateMap;
    s := IndexHeader(i.value.baseCode);
    order := [];
    var remaining := rates.Keys;
    ghost var done: set<string> := {};
    while remaining != {}
      invariant done + remaining == rates.Keys && done !! remaining
      invariant Enumerates(order, done)
      invariant s == Rendered(IndexHeader(i.value.baseCode), order, rates, formatRate)
      decreases remaining
    {
      var code :| code in remaining;
      RenderedAppend(IndexHeader(i.value.baseCode), order, code, rates, formatRate);
      EnumeratesSnoc(order, done, code);
      s := s + RateLine(code, rates[code], formatRate);
      order := order + [code];
      done := done + {code};
      remaining := remaining - {code};
    }
    assert done == rates.Keys;
    RenderedKeepsHeader(IndexHeader(i.value.baseCode), order, rates, formatRate);
  }

  lemma EnumeratesSnoc(order: seq<string>, keys: set<string>, code: string)
    requires Enumerates(order, keys) && code !in keys
    ensures Enumerates(order + [code], keys + {code})
  {
    var order' := order + [code];
    forall k | k in keys + {code} ensures k in order' {
      if k != code {
        var j :| 0 <= j < |order| && order[j] == k;
        assert order'[j] == k;
      } else {
        assert order'[|order|] == code;
      }
    }
  }

  lemma RenderedAppend(header: string, order: seq<string>, code: string, rates: map<string, Float64>, formatRate: Float64 -> string)
    requires forall i :: 0 <= i < |order| ==> order[i] in rates
    requires code in rates
    ensures forall i :: 0 <= i < |order + [code]| ==> (order + [code])[i] in rates
    ensures Rendered(header, order + [code], rates, formatRate)
         == Rendered(header, order, rates, formatRate) + RateLine(code, rates[code], formatRate)
  {
    assert (order + [code])[..|order|] == order;
  }

  /** The rendering starts with the header. */
  lemma {:induction false} RenderedKeepsHeader(header: string, order: seq<string>, rates: map<string, Float64>, formatRate: Float64 -> string)
    requires forall i :: 0 <= i < |order| ==> order[i] in rates
    ensures header <= Rendered(header, order, rates, formatRate)
    decreases |order|
  {
    if order != [] {
      RenderedKeepsHeader(header, order[..|order| - 1], rates, formatRate);
    }
  }

  /** A list without repeats has exactly as many elements as its set of members. */
  lemma {:induction false} DistinctCount(order: seq<string>, keys: set<string>)
    requires Enumerates(order, keys)
    ensures |order| == |keys|
    decreases |order|
  {
    if order != [] {
      var last := order[|order| - 1];
      var prefix := order[..|order| - 1];
      assert forall k :: k in keys - {last} ==> k in prefix by {
        forall k | k in keys - {last} ensures k in prefix {
          var j :| 0 <= j < |order| && order[j] == k;
          assert j < |order| - 1;
          assert prefix[j] == k;
        }
      }
      DistinctCount(prefix, keys - {last});
    }
  }

  /** The number of line breaks in a string. */
  function NewlineCount(s: string): nat
    decreases |s|
  {
    if s == [] then 0 else NewlineCount(s[..|s| - 1]) + (if s[|s| - 1] == '\n' then 1 else 0)
  }

  lemma {:induction false} NewlineCountAppend(a: string, b: string)
    ensures NewlineCount(a + b) == NewlineCount(a) + NewlineCount(b)
    decreases |b|
  {
    if b != [] {
      var b' := b[..|b| - 1];
      assert (a + b)[..|a + b| - 1] == a + b';
      assert (a + b)[|a + b| - 1] == b[|b| - 1];
      assert b[..|b| - 1] == b';
      NewlineCountAppend(a, b');
    } else {
      assert a + b == a;
    }
  }

  lemma {:induction false} NoNewline(s: string)
    requires '\n' !in s
    ensures NewlineCount(s) == 0
    decreases |s|
  {
    if s != [] {
      NoNewline(s[..|s| - 1]);
    }
  }

  /** A rate line holds exactly one line break when neither the code nor the rate text has one. */
  lemma RateLineNewlines(code: string, rate: Float64, formatRate: Float64 -> string)
    requires '\n' !in code && '\n' !in formatRate(rate)
    ensures NewlineCount(RateLine(code, rate, formatRate)) == 1
  {
    var text := formatRate(rate);
    NoNewline(code);
    NoNewline(text);
    NoNewline("\t");
    NoNewline(" : ");
    NewlineCountAppend("\t", code);
    NewlineCountAppend("\t" + code, " : ");
    NewlineCountAppend("\t" + code + " : ", text);
    NewlineCountAppend("\t" + code + " : " + text, "\n");
    assert NewlineCount("\n") == 1 by {
      assert "\n"[..0] == [];
    }
  }

  /** Every rate line adds one line break to the header's. */
  lemma {:induction false} RenderedNewlines(header: string, order: seq<string>, rates: map<string, Float64>, formatRate: Float64 -> string)
    requires forall i :: 0 <= i < |order| ==> order[i] in rates
    requires forall i :: 0 <= i < |order| ==> '\n' !in order[i] && '\n' !in formatRate(rates[order[i]])
    ensures NewlineCount(Rendered(header, order, rates, formatRate)) == NewlineCount(header) + |order|
    decreases |order|
  {
    if order != [] {
      var last := order[|order| - 1];
      var prefix := order[..|order| - 1];
      RenderedNewlines(header, prefix, rates, formatRate);
      RateLineNewlines(last, rates[last], formatRate);
      NewlineCountAppend(Rendered(header, prefix, rates, formatRate), RateLine(last, rates[last], formatRate));
    }
  }

  /**
   * The rendering of a non-nil index has exactly one line per code in the map: when no code,
   * no rate text and not the base code holds a line break, the rendering holds one line break
   * for the header and one per key.
   */
  lemma IndexOneLinePerCode(i: Index, order: seq<string>, formatRate: Float64 -> string)
    requires Enumerates(order, i.rateMap.Keys)
    requires '\n' !in i.baseCode
    requires forall k :: k in i.rateMap ==> '\n' !in k && '\n' !in formatRate(i.rateMap[k])
    ensures NewlineCount(Rendered(IndexHeader(i.baseCode), order, i.rateMap, formatRate)) == |i.rateMap.Keys| + 1
  {
    DistinctCount(order, i.rateMap.Keys);
    RenderedNewlines(IndexHeader(i.baseCode), order, i.rateMap, formatRate);
    NoNewline(i.baseCode);
    NoNewline(" has rates of:");
    NewlineCountAppend(i.baseCode, " has rates of:");
    NewlineCountAppend(i.baseCode + " has rates of:", "\n");
    assert NewlineCount("\n") == 1 by {
      assert "\n"[..0] == [];
    }
    assert IndexHeader(i.baseCode) == i.baseCode + " has rates of:" + "\n";
  }
}
