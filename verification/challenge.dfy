/** The challenge text shared by the three authentication services: how a timestamp is
    rendered into it and how `message.match(/Timestamp: (\d+)/)` recovers it again. */
module Challenge {
  import opened Common

  const Tag := "Timestamp: "

  /** The window in which a signed challenge is accepted: 5 minutes, in milliseconds. */
  const MaxMessageAgeMs: int := 5 * 60 * 1000

  /** "Sign this message to authenticate with MyCircles.\n\nNonce: ", in short pieces so
      that the verifier can inspect it character by character. */
  const Header := "Sign this" + " message " + "to authen" + "ticate wi" + "th MyCirc"
    + "les.\n\nNo" + "nce: "

  /** The regular expression matches at position p: the tag followed by at least one digit. */
  predicate MatchAt(s: string, p: int) {
    0 <= p && p + |Tag| < |s| && s[p..p + |Tag|] == Tag && IsDigit(s[p + |Tag|])
  }

  /** The number carried by a match at p: the greedy digit run after the tag. */
  function MatchValue(s: string, p: int): nat
    requires MatchAt(s, p)
  {
    var rest := s[p + |Tag|..];
    DigitsToNat(rest[..DigitRunLength(rest)])
  }

  /** Leftmost-match search from position p, as the regular-expression engine scans. */
  function FindFrom(s: string, p: nat): (r: Option<nat>)
    ensures r.None? <==> forall q :: p <= q && MatchAt(s, q) ==> false
    ensures r.Some? ==> exists q :: (p <= q && MatchAt(s, q) && r.value == MatchValue(s, q)
      && forall q' :: p <= q' < q ==> !MatchAt(s, q'))
    decreases |s| - p
  {
    if p + |Tag| >= |s| then None
    else if MatchAt(s, p) then Some(MatchValue(s, p))
    else FindFrom(s, p + 1)
  }

  /** The timestamp the first `Timestamp: <digits>` of a message carries, if any. */
  function ExtractTimestamp(message: string): (r: Option<nat>)
    ensures r.None? <==> forall q :: MatchAt(message, q) ==> false
    ensures r.Some? ==> exists q :: (MatchAt(message, q) && r.value == MatchValue(message, q)
      && forall q' :: 0 <= q' < q ==> !MatchAt(message, q'))
  {
    FindFrom(message, 0)
  }

  /** `validateMessageTimestamp`: false without a timestamp; otherwise accepted iff the
      message is at most five minutes old (a timestamp in the future is accepted). */
  function ValidateMessageTimestamp(message: string, now: int): (ok: bool)
    ensures (forall q :: MatchAt(message, q) ==> false) ==> !ok
    ensures ok ==> (ExtractTimestamp(message).Some?
      && now - ExtractTimestamp(message).value <= MaxMessageAgeMs)
    ensures ExtractTimestamp(message).Some? ==>
      (ok <==> now - ExtractTimestamp(message).value <= MaxMessageAgeMs)
  {
    match ExtractTimestamp(message)
    case None => false
    case Some(t) => now - t <= MaxMessageAgeMs
  }

  /** The message text of a challenge: header, nonce, the timestamp line and a tail. */
  function Render(nonce: string, timestamp: nat, tail: string): string {
    Header + nonce + "\n" + Tag + NatToDigits(timestamp) + tail
  }

  /** The tag does not occur anywhere in the text (a UUID nonce never contains it). */
  ghost predicate TagFree(s: string) {
    forall i :: !ContainsAt(s, Tag, i)
  }

  ghost predicate NoCapitalT(s: string) {
    forall i :: 0 <= i < |s| ==> s[i] != 'T'
  }

  lemma HeaderHasNoCapitalT()
    ensures NoCapitalT(Header)
  {
    assert NoCapitalT("Sign this");
    assert NoCapitalT(" message ");
    assert NoCapitalT("to authen");
    assert NoCapitalT("ticate wi");
    assert NoCapitalT("th MyCirc");
    assert NoCapitalT("les.\n\nNo");
    assert NoCapitalT("nce: ");
  }

  lemma FindSkips(s: string, p: nat, k: nat)
    requires p <= k && MatchAt(s, k)
    requires forall q :: p <= q < k ==> !MatchAt(s, q)
    ensures FindFrom(s, p) == Some(MatchValue(s, k))
  {
  }

  /** A match needs every character of the tag in place, so a position holding a character
      the tag lacks rules out every match that would cover it. */
  lemma NoMatchOver(s: string, q: int, c: int)
    requires 0 <= q <= c < q + |Tag| && c < |s|
    requires s[c] == '\n' || (c == q && s[c] != 'T')
    ensures !MatchAt(s, q)
  {
    if q + |Tag| < |s| {
      assert s[q..q + |Tag|][c - q] == s[c];
      assert Tag[c - q] != s[c];
    }
  }

  /** A match lying wholly inside a tag-free slice of the text is impossible. */
  lemma NoMatchInside(s: string, a: int, t: string, q: int)
    requires 0 <= a && a + |t| <= |s| && s[a..a + |t|] == t
    requires TagFree(t)
    requires a <= q && q + |Tag| <= a + |t|
    ensures !MatchAt(s, q)
  {
    var w := s[q..q + |Tag|];
    var v := t[q - a..q - a + |Tag|];
    forall k | 0 <= k < |Tag| ensures w[k] == v[k] {
      assert s[a..a + |t|][q - a + k] == s[q + k];
    }
    assert w == v;
    assert !ContainsAt(t, Tag, q - a);
  }

  /** No match starts before the timestamp line of a rendered challenge. */
  lemma NoEarlyMatch(nonce: string, timestamp: nat, tail: string, q: int)
    requires TagFree(nonce)
    requires 0 <= q < |Header| + |nonce| + 1
    ensures !MatchAt(Render(nonce, timestamp, tail), q)
  {
    var m := Render(nonce, timestamp, tail);
    var nl := |Header| + |nonce|;
    assert m == Header + nonce + ("\n" + Tag + NatToDigits(timestamp) + tail);
    if q < |Header| {
      HeaderHasNoCapitalT();
      assert m[q] == Header[q];
      NoMatchOver(m, q, q);
    } else if q + |Tag| <= nl {
      assert m[|Header|..nl] == nonce;
      NoMatchInside(m, |Header|, nonce, q);
    } else {
      assert m[nl] == '\n';
      NoMatchOver(m, q, nl);
    }
  }

  /** Rendering a timestamp into a challenge and extracting it again gives it back,
      whatever follows the digits as long as it does not start with a digit. */
  lemma RenderExtractRoundTrip(nonce: string, timestamp: nat, tail: string)
    requires TagFree(nonce)
    requires tail == [] || !IsDigit(tail[0])
    ensures ExtractTimestamp(Render(nonce, timestamp, tail)) == Some(timestamp)
  {
    var m := Render(nonce, timestamp, tail);
    var k := |Header| + |nonce| + 1;
    var d := NatToDigits(timestamp);
    assert m == (Header + nonce + "\n") + Tag + d + tail;
    assert m[k..k + |Tag|] == Tag;
    assert m[k + |Tag|..] == d + tail;
    assert m[k + |Tag|] == d[0];
    forall q | 0 <= q < k ensures !MatchAt(m, q) {
      NoEarlyMatch(nonce, timestamp, tail, q);
    }
    FindSkips(m, 0, k);
    DigitRunOfRendered(d, tail);
    assert (d + tail)[..|d|] == d;
    DigitsRoundTrip(timestamp);
  }

  /** Hence a freshly rendered challenge validates exactly while it is at most five
      minutes old. */
  lemma RenderedChallengeFreshness(nonce: string, timestamp: nat, tail: string, now: int)
    requires TagFree(nonce)
    requires tail == [] || !IsDigit(tail[0])
    ensures ValidateMessageTimestamp(Render(nonce, timestamp, tail), now)
        <==> now - timestamp <= MaxMessageAgeMs
  {
    RenderExtractRoundTrip(nonce, timestamp, tail);
  }
}
