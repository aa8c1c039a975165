/**
 * L402 credentials held for one session, and the parser for an L402 challenge carried in a
 * `WWW-Authenticate` header (`L402 macaroon="<base64>", invoice="<bolt11>"`).
 */
module L402 {
  import opened Wrappers
  import opened Json

  const PaymentRequiredStatus: string := "payment_required"
  const FreeTierMessage: string := "Free tier exhausted. Pay to continue using the routing service."
  const InvoiceStatusPath: string := "/invoice-status/"
  const DefaultAmountSats: int := 1000

  /**
   * The payment-required record handed back instead of a routing result. The fields that a
   * 402 body may supply are kept as the JSON values the body held.
   */
  datatype PaymentRequired = PaymentRequired(
    status: string,
    message: string,
    invoice: Json,
    macaroon: Json,
    paymentHash: Json,
    paymentUrl: string,
    amountSats: Json)

  /** The value of the Authorization header for a stored credential pair. */
  function HeaderValue(macaroon: string, preimage: string): string
  {
    "L402 " + macaroon + ":" + preimage
  }

  /**
   * Distinct credentials give distinct headers, as long as the preimage holds no colon (a
   * paid preimage is hex): the header determines the pair it was built from.
   */
  lemma HeaderValueInjective(m1: string, p1: string, m2: string, p2: string)
    requires ':' !in p1 && ':' !in p2
    requires HeaderValue(m1, p1) == HeaderValue(m2, p2)
    ensures m1 == m2 && p1 == p2
  {
    var h := HeaderValue(m1, p1);
    // The separator colon of the longer macaroon would fall inside the other preimage.
    if |m1| < |m2| {
      ColonPosition(m1, p1, 5 + |m2|);
    } else if |m2| < |m1| {
      ColonPosition(m2, p2, 5 + |m1|);
    }
    assert m1 == h[5..5 + |m1|] == m2;
    assert p1 == h[6 + |m1|..] == p2;
  }

  /** In a header whose preimage has no colon, every colon at or before the separator is in the macaroon. */
  lemma ColonPosition(m: string, p: string, k: int)
    requires ':' !in p
    requires 5 <= k < |HeaderValue(m, p)| && HeaderValue(m, p)[k] == ':'
    ensures k >= 5 + |m| ==> k == 5 + |m|
  {
  }

  /** JavaScript truthiness of a `string | null` field: present and not empty. */
  predicate Truthy(s: Option<string>)
  {
    s.Some? && s.value != ""
  }

  /** In-memory L402 credential storage for a single session. */
  class L402State {
    var macaroon: Option<string>
    var preimage: Option<string>

    constructor ()
      ensures macaroon == None && preimage == None
      ensures GetAuthHeader() == None
    {
      macaroon := None;
      preimage := None;
    }

    /** Store credentials after the user pays an invoice; no validation, last store wins. */
    method Store(m: string, p: string)
      modifies this
      ensures macaroon == Some(m) && preimage == Some(p)
      ensures GetAuthHeader() == if m != "" && p != "" then Some(HeaderValue(m, p)) else None
    {
      macaroon := Some(m);
      preimage := Some(p);
    }

    /**
     * The Authorization header value, or None when either field is missing or empty. A
     * header, when there is one, is never empty and starts with the scheme name.
     */
    function GetAuthHeader(): (h: Option<string>)
      reads this
      ensures h.Some? <==> Truthy(macaroon) && Truthy(preimage)
      ensures h.Some? ==> h.value == HeaderValue(macaroon.value, preimage.value)
      ensures h.Some? ==> |h.value| > 7 && h.value[..5] == "L402 "
    {
      if !Truthy(macaroon) || !Truthy(preimage) then None
      else Some(HeaderValue(macaroon.value, preimage.value))
    }

    /** Clear stored credentials. */
    method Clear()
      modifies this
      ensures macaroon == None && preimage == None
      ensures GetAuthHeader() == None
    {
      macaroon := None;
      preimage := None;
    }
  }

  /**
   * Two stores in a row: the header reflects only the second pair, whatever the first was.
   * Clearing afterwards leaves no header.
   */
  method StoreStoreClear(m1: string, p1: string, m2: string, p2: string)
    returns (afterSecond: Option<string>, afterClear: Option<string>)
    requires m2 != "" && p2 != ""
    ensures afterSecond == Some("L402 " + m2 + ":" + p2)
    ensures afterClear == None
  {
    var state := new L402State();
    state.Store(m1, p1);
    state.Store(m2, p2);
    afterSecond := state.GetAuthHeader();
    state.Clear();
    afterClear := state.GetAuthHeader();
  }

  // ---------------------------------------------------------------------------
  // The header challenge: the regular expression key="([^"]+)" searched leftmost-first.
  // ---------------------------------------------------------------------------

  /** The regular expression key="([^"]+)" matches s at position i and captures v. */
  ghost predicate MatchesAt(s: string, key: string, i: nat, v: string)
  {
    var open := i + |key| + 2;
    && open + |v| < |s|
    && s[i..i + |key|] == key
    && s[i + |key|] == '='
    && s[i + |key| + 1] == '"'
    && |v| > 0
    && s[open..open + |v|] == v
    && (forall k :: 0 <= k < |v| ==> v[k] != '"')
    && s[open + |v|] == '"'
  }

  /** v is the capture of the leftmost match of key="([^"]+)" in s. */
  ghost predicate Leftmost(s: string, key: string, v: string)
  {
    exists i: nat :: MatchesAt(s, key, i, v) && forall j: nat, w :: j < i ==> !MatchesAt(s, key, j, w)
  }

  /** Length of the run of characters other than '"' in s starting at start. */
  function RunLength(s: string, start: nat): (n: nat)
    requires start <= |s|
    decreases |s| - start
    ensures start + n <= |s|
    ensures forall k :: start <= k < start + n ==> s[k] != '"'
    ensures start + n == |s| || s[start + n] == '"'
  {
    if start == |s| || s[start] == '"' then 0 else 1 + RunLength(s, start + 1)
  }

  /**
   * The capture of key="([^"]+)" anchored at position i, if it matches there. The character
   * class is greedy and the closing quote is the first quote after the opening one, so there
   * is at most one capture per position.
   */
  function MatchAt(s: string, key: string, i: nat): (r: Option<string>)
    ensures r.Some? ==> MatchesAt(s, key, i, r.value)
    ensures forall v :: MatchesAt(s, key, i, v) ==> r == Some(v)
  {
    var open := i + |key| + 2;
    if open <= |s| && s[i..i + |key|] == key && s[i + |key|] == '=' && s[i + |key| + 1] == '"' then
      var n := RunLength(s, open);
      if n > 0 && open + n < |s| then
        var v := s[open..open + n];
        assert forall k :: 0 <= k < |v| ==> v[k] == s[open + k];
        Some(v)
      else
        assert forall v :: !MatchesAt(s, key, i, v) by {
          forall v | MatchesAt(s, key, i, v) ensures false {
            RunIsMaximal(s, open, v);
          }
        }
        None
    else
      None
  }

  /** A quote-free value that is followed by a quote is exactly the run of non-quotes. */
  lemma RunIsMaximal(s: string, start: nat, v: string)
    requires start + |v| < |s|
    requires s[start..start + |v|] == v
    requires forall k :: 0 <= k < |v| ==> v[k] != '"'
    requires s[start + |v|] == '"'
    ensures RunLength(s, start) == |v|
  {
  }

  /** The leftmost match of key="([^"]+)" at or after position from: its position and capture. */
  function Search(s: string, key: string, from: nat): (r: Option<(nat, string)>)
    decreases |s| - from
    ensures r.Some? ==> from <= r.value.0 && MatchesAt(s, key, r.value.0, r.value.1)
    ensures r.Some? ==> forall j: nat, w :: from <= j < r.value.0 ==> !MatchesAt(s, key, j, w)
    ensures r.None? ==> forall j: nat, w :: from <= j ==> !MatchesAt(s, key, j, w)
  {
    if from >= |s| then None
    else
      match MatchAt(s, key, from)
      case Some(v) => Some((from, v))
      case None => Search(s, key, from + 1)
  }

  /** `s.match(/key="([^"]+)"/)?.[1]`: the capture of the leftmost match, if any. */
  function MatchQuoted(s: string, key: string): (r: Option<string>)
    ensures r.Some? ==> Leftmost(s, key, r.value)
    ensures forall v :: Leftmost(s, key, v) ==> r == Some(v)
    ensures r.None? <==> forall i: nat, v :: !MatchesAt(s, key, i, v)
  {
    match Search(s, key, 0)
    case Some((i, v)) =>
      assert forall w :: Leftmost(s, key, w) ==> w == v by {
        forall w | Leftmost(s, key, w) ensures w == v {
          LeftmostUnique(s, key, v, w);
        }
      }
      Some(v)
    case None => None
  }

  /** There is only one leftmost capture. */
  lemma LeftmostUnique(s: string, key: string, v: string, w: string)
    requires Leftmost(s, key, v) && Leftmost(s, key, w)
    ensures v == w
  {
    var i: nat :| MatchesAt(s, key, i, v) && forall j: nat, u :: j < i ==> !MatchesAt(s, key, j, u);
    var k: nat :| MatchesAt(s, key, k, w) && forall j: nat, u :: j < k ==> !MatchesAt(s, key, j, u);
    assert i == k;
    assert MatchAt(s, key, i) == Some(v) == Some(w);
  }

  /** The opening `key="` of the regular expression occurs in s at position j. */
  predicate OpensAt(s: string, key: string, j: nat)
  {
    j + |key| + 2 <= |s| && s[j..j + |key|] == key && s[j + |key|] == '=' && s[j + |key| + 1] == '"'
  }

  /** A match whose opening `key="` occurs nowhere earlier is the one the search returns. */
  lemma FirstOpening(s: string, key: string, i: nat, v: string)
    requires MatchesAt(s, key, i, v)
    requires forall j: nat :: j < i ==> !OpensAt(s, key, j)
    ensures MatchQuoted(s, key) == Some(v)
  {
    assert forall j: nat, w :: MatchesAt(s, key, j, w) ==> OpensAt(s, key, j);
    assert MatchesAt(s, key, i, v) && forall j: nat, w :: j < i ==> !MatchesAt(s, key, j, w);
  }

  /** The text holds no opening `key="` anywhere. */
  predicate NoOpening(p: string, key: string)
  {
    forall j: nat :: j < |p| ==> !OpensAt(p, key, j)
  }

  predicate QuoteFree(s: string)
  {
    forall k :: 0 <= k < |s| ==> s[k] != '"'
  }

  predicate EndsWith(s: string, suffix: string)
  {
    |suffix| <= |s| && s[|s| - |suffix|..] == suffix
  }

  /**
   * Whatever precedes and follows a `key="v"` pair, its value is what the search captures,
   * provided the text before it holds no opening `key="` of its own.
   */
  lemma {:induction false} PairAfterPrefix(p: string, key: string, v: string, q: string)
    requires QuoteFree(key) && QuoteFree(v) && |v| > 0
    requires NoOpening(p, key)
    ensures MatchQuoted(p + key + "=\"" + v + "\"" + q, key) == Some(v)
  {
    var s := p + key + "=\"" + v + "\"" + q;
    var i := |p|;
    assert s[i..i + |key|] == key;
    assert s[i + |key| + 2..i + |key| + 2 + |v|] == v;
    assert MatchesAt(s, key, i, v);
    forall j: nat | j < i
      ensures !OpensAt(s, key, j)
    {
      // The quote of an earlier opening would have to lie in p, for key and '=' hold none.
      if j + |key| + 2 <= i {
        assert s[j..j + |key|] == p[j..j + |key|];
        assert !OpensAt(p, key, j);
      }
    }
    FirstOpening(s, key, i, v);
  }

  /** The capture of a leftmost match is a non-empty text free of quotes. */
  lemma LeftmostCaptureIsQuoteFree(s: string, key: string, v: string)
    requires Leftmost(s, key, v)
    ensures |v| > 0 && '"' !in v
  {
  }

  /**
   * Parse a 402 response's `WWW-Authenticate` header into a payment-required record: None
   * unless both a macaroon and an invoice are present; the hash and amount are placeholders
   * that the caller fills in from the response body.
   */
  function Parse402(wwwAuth: string, valhallaUrl: string): (r: Option<PaymentRequired>)
    ensures r.None? <==>
      (forall i: nat, v :: !MatchesAt(wwwAuth, "macaroon", i, v)) ||
      (forall i: nat, v :: !MatchesAt(wwwAuth, "invoice", i, v))
    ensures r.Some? ==>
      && r.value.status == PaymentRequiredStatus
      && r.value.message == FreeTierMessage
      && r.value.macaroon.JString? && Leftmost(wwwAuth, "macaroon", r.value.macaroon.s)
      && r.value.invoice.JString? && Leftmost(wwwAuth, "invoice", r.value.invoice.s)
      && r.value.paymentHash == JString("")
      && r.value.paymentUrl == valhallaUrl + InvoiceStatusPath
      && r.value.amountSats == JNumber(DefaultAmountSats)
  {
    var macMatch := MatchQuoted(wwwAuth, "macaroon");
    var invMatch := MatchQuoted(wwwAuth, "invoice");
    if macMatch.None? || invMatch.None? then None
    else Some(HeaderChallenge(macMatch.value, invMatch.value, valhallaUrl))
  }

  /**
   * The record built from a header challenge: the two captures as text, no payment hash yet
   * and the default amount, polled at the bare status path.
   */
  function HeaderChallenge(macaroon: string, invoice: string, valhallaUrl: string): (r: PaymentRequired)
    ensures r.status == PaymentRequiredStatus && r.message == FreeTierMessage
    ensures r.macaroon == JString(macaroon) && r.invoice == JString(invoice)
    ensures r.paymentHash == JString("") && r.amountSats == JNumber(DefaultAmountSats)
    ensures r.paymentUrl == valhallaUrl + InvoiceStatusPath
  {
    PaymentRequired(
      status := PaymentRequiredStatus,
      message := FreeTierMessage,
      invoice := JString(invoice),
      macaroon := JString(macaroon),
      paymentHash := JString(""),
      paymentUrl := valhallaUrl + InvoiceStatusPath,
      amountSats := JNumber(DefaultAmountSats))
  }

  /** A key as the challenge uses it: no quote, no space, no '='. */
  predicate PlainKey(key: string)
  {
    |key| > 0 && forall k :: 0 <= k < |key| ==> key[k] != '"' && key[k] != ' ' && key[k] != '='
  }

  /** The leading pair `L402 k="v", ` holds exactly two quotes: around v. */
  lemma PairQuotes(k: string, v: string)
    requires PlainKey(k) && QuoteFree(v)
    ensures forall t :: 0 <= t < |"L402 " + k + "=\"" + v + "\", "| && t != 6 + |k| && t != 7 + |k| + |v| ==>
      ("L402 " + k + "=\"" + v + "\", ")[t] != '"'
  {
    var p := "L402 " + k + "=\"" + v + "\", ";
    forall t | 0 <= t < |p| && t != 6 + |k| && t != 7 + |k| + |v|
      ensures p[t] != '"'
    {
      if t < 5 {
        assert p[t] == "L402 "[t];
      } else if t < 5 + |k| {
        assert p[t] == k[t - 5];
      } else if t < 6 + |k| {
        assert p[t] == '=';
      } else if t < 7 + |k| + |v| {
        assert p[t] == v[t - 7 - |k|];
      } else {
        assert p[t] == ", "[t - 8 - |k| - |v|];
      }
    }
  }

  /** No opening of key starts at position j of the leading pair `L402 k="v", `. */
  lemma NoOpeningAt(k: string, v: string, key: string, j: nat)
    requires PlainKey(k) && PlainKey(key) && QuoteFree(v)
    requires !EndsWith(k, key) && !EndsWith(v, key + "=")
    ensures !OpensAt("L402 " + k + "=\"" + v + "\", ", key, j)
  {
    var p := "L402 " + k + "=\"" + v + "\", ";
    PairQuotes(k, v);
    // An opening needs a quote right after `key=`, so only the two quotes around v matter.
    var t := j + |key| + 1;
    if t == 6 + |k| {
      // The key would have to end just before the '=' that follows k.
      if |key| <= |k| {
        assert p[5..5 + |k|] == k;
        assert p[j..j + |key|] == p[5..5 + |k|][|k| - |key|..];
      } else {
        assert p[4] == ' ';
      }
    } else if t == 7 + |k| + |v| {
      // key + "=" would have to end just before the closing quote of v.
      if |key| + 1 <= |v| {
        assert p[7 + |k|..7 + |k| + |v|] == v;
        assert p[j..j + |key| + 1] == p[7 + |k|..7 + |k| + |v|][|v| - |key| - 1..];
        assert p[j..j + |key| + 1] == p[j..j + |key|] + [p[j + |key|]];
      } else {
        assert p[6 + |k|] == '"';
      }
    }
  }

  /**
   * After the scheme name and one complete pair `k="v", `, no opening of another key has
   * started, unless k ends with that key or the value ends with `key=`.
   */
  lemma NoOpeningAfterPair(k: string, v: string, key: string)
    requires PlainKey(k) && PlainKey(key) && QuoteFree(v)
    requires !EndsWith(k, key) && !EndsWith(v, key + "=")
    ensures NoOpening("L402 " + k + "=\"" + v + "\", ", key)
  {
    forall j: nat | j < |"L402 " + k + "=\"" + v + "\", "|
      ensures !OpensAt("L402 " + k + "=\"" + v + "\", ", key, j)
    {
      NoOpeningAt(k, v, key, j);
    }
  }

  /**
   * Any header that holds a `macaroon="m"` pair and an `invoice="i"` pair, each preceded
   * only by text without an opening of its own key, parses to exactly m and i: the other
   * pairs around them and their order do not matter.
   */
  lemma HeaderPairsAnywhere(s: string, url: string, m: string, inv: string,
                            p1: string, q1: string, p2: string, q2: string)
    requires QuoteFree(m) && |m| > 0 && QuoteFree(inv) && |inv| > 0
    requires s == p1 + "macaroon" + "=\"" + m + "\"" + q1 && NoOpening(p1, "macaroon")
    requires s == p2 + "invoice" + "=\"" + inv + "\"" + q2 && NoOpening(p2, "invoice")
    ensures Parse402(s, url) == Some(HeaderChallenge(m, inv, url))
  {
    PairAfterPrefix(p1, "macaroon", m, q1);
    PairAfterPrefix(p2, "invoice", inv, q2);
  }

  /** The two keys of the challenge are plain and neither ends with the other. */
  lemma ChallengeKeys()
    ensures PlainKey("macaroon") && PlainKey("invoice")
    ensures !EndsWith("macaroon", "invoice") && !EndsWith("invoice", "macaroon")
  {
  }

  /** The rendering of a two-pair header, `L402 k1="v1", k2="v2"`. */
  function TwoPairHeader(k1: string, v1: string, k2: string, v2: string): string
  {
    "L402 " + k1 + "=\"" + v1 + "\", " + k2 + "=\"" + v2 + "\""
  }

  /**
   * In a two-pair header each value is found under its own key, unless the first value
   * ends with the second key and '=' (then the regular expression matches inside it).
   */
  lemma {:induction false} TwoPairValues(k1: string, v1: string, k2: string, v2: string)
    requires PlainKey(k1) && PlainKey(k2) && !EndsWith(k1, k2)
    requires QuoteFree(v1) && |v1| > 0 && QuoteFree(v2) && |v2| > 0
    requires !EndsWith(v1, k2 + "=")
    ensures MatchQuoted(TwoPairHeader(k1, v1, k2, v2), k1) == Some(v1)
    ensures MatchQuoted(TwoPairHeader(k1, v1, k2, v2), k2) == Some(v2)
  {
    var s := TwoPairHeader(k1, v1, k2, v2);
    assert NoOpening("L402 ", k1);
    assert s == "L402 " + k1 + "=\"" + v1 + "\"" + (", " + k2 + "=\"" + v2 + "\"");
    PairAfterPrefix("L402 ", k1, v1, ", " + k2 + "=\"" + v2 + "\"");
    NoOpeningAfterPair(k1, v1, k2);
    assert s == ("L402 " + k1 + "=\"" + v1 + "\", ") + k2 + "=\"" + v2 + "\"" + "";
    PairAfterPrefix("L402 " + k1 + "=\"" + v1 + "\", ", k2, v2, "");
  }

  /**
   * `L402 macaroon="m", invoice="i"` and `L402 invoice="i", macaroon="m"` parse to the same
   * record, unless a value ends with the other key and '='.
   */
  lemma HeaderKeyOrder(m: string, inv: string, url: string)
    requires QuoteFree(m) && |m| > 0 && QuoteFree(inv) && |inv| > 0
    requires !EndsWith(m, "invoice=") && !EndsWith(inv, "macaroon=")
    ensures Parse402(TwoPairHeader("macaroon", m, "invoice", inv), url) == Some(HeaderChallenge(m, inv, url))
    ensures Parse402(TwoPairHeader("invoice", inv, "macaroon", m), url) == Some(HeaderChallenge(m, inv, url))
  {
    ChallengeKeys();
    TwoPairValues("macaroon", m, "invoice", inv);
    TwoPairValues("invoice", inv, "macaroon", m);
  }

  /** A header in the documented format `L402 macaroon="…", invoice="…"`. */
  lemma HeaderExample(header: string, url: string)
    requires header == "L402 macaroon=\"mac123\", invoice=\"inv456\""
    ensures Parse402(header, url) == Some(HeaderChallenge("mac123", "inv456", url))
  {
    assert QuoteFree("mac123") && QuoteFree("inv456");
    assert header == TwoPairHeader("macaroon", "mac123", "invoice", "inv456");
    HeaderKeyOrder("mac123", "inv456", url);
  }

  /** Without an invoice there is no challenge. */
  lemma HeaderWithoutInvoice(header: string, url: string)
    requires header == "L402 macaroon=\"mac123\""
    ensures Parse402(header, url) == None
  {
    // The only quotes are at 14 and 21, and neither follows "invoice=".
    assert forall k :: 0 <= k < |header| && header[k] == '"' ==> k == 14 || k == 21;
    assert header[6] == 'a' && header[13] == '=';
    forall i: nat, v
      ensures !MatchesAt(header, "invoice", i, v)
    {
      if i == 6 || i == 13 {
        assert header[i..i + 7][0] != "invoice"[0];
      }
    }
  }
}
