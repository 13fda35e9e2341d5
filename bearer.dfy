/** The `verifyToken` helper that the AI proxy and the payment-init handler each carry:
    the `Authorization` header must start with `Bearer `, the token is the second piece of
    `split('Bearer ')`, and the identity provider (a parameter) decides the rest. */
module BearerToken {

  import opened Wrappers
  import opened JsString

  const Prefix: string := "Bearer "

  /** The principal an ID token resolves to. */
  datatype Principal = Principal(uid: string, email: Option<string>)

  /** `header.split('Bearer ')[1]` when the header starts with the prefix: the text after
      the prefix up to the next occurrence of `Bearer `, or to the end. */
  function ExtractToken(header: Option<string>): (r: Option<string>)
    ensures r.Some? <==> header.Some? && StartsWith(header.value, Prefix)
  {
    match header
    case None => None
    case Some(h) =>
      if h == "" || !StartsWith(h, Prefix) then None
      else
        match IndexOfFrom(h, Prefix, |Prefix|)
        case None => Some(h[|Prefix|..])
        case Some(k) => Some(h[|Prefix|..k])
  }

  /** The token is the text right after the prefix and never itself contains `Bearer `;
      when nothing after the prefix reads `Bearer `, it is all of that text. */
  lemma ExtractTokenShape(h: string)
    requires StartsWith(h, Prefix)
    ensures ExtractToken(Some(h)).Some?
    ensures StartsWith(h[|Prefix|..], ExtractToken(Some(h)).value)
    ensures !Includes(ExtractToken(Some(h)).value, Prefix)
    ensures !Includes(h[|Prefix|..], Prefix) ==> ExtractToken(Some(h)).value == h[|Prefix|..]
  {
    var tok := ExtractToken(Some(h)).value;
    var m := IndexOfFrom(h, Prefix, |Prefix|);
    var end := if m.Some? then m.value else |h|;
    assert tok == h[|Prefix|..end];
    if Includes(tok, Prefix) {
      var i :| 0 <= i <= |tok| && OccursAt(tok, Prefix, i);
      SliceOfSlice(h, |Prefix|, end, i, i + |Prefix|);
      assert OccursAt(h, Prefix, i + |Prefix|);
      assert false;
    }
    if m.Some? {
      var k := m.value - |Prefix|;
      SliceOfSlice(h, |Prefix|, |h|, k, k + |Prefix|);
      assert OccursAt(h[|Prefix|..], Prefix, k);
    }
  }

  /** A slice of a slice is a slice of the whole. */
  lemma SliceOfSlice(s: string, a: int, b: int, i: int, j: int)
    requires 0 <= a <= b <= |s| && 0 <= i <= j <= b - a
    ensures s[a..b][i..j] == s[a + i..a + j]
  {
    forall k | 0 <= k < j - i
      ensures s[a..b][i..j][k] == s[a + i..a + j][k]
    {
      assert s[a..b][i..j][k] == s[a + i + k];
    }
  }

  /** `verifyToken`: `None` for a missing or malformed header; for a `Bearer ` header,
      the identity provider's answer for its token. */
  function VerifyToken(header: Option<string>, verifyIdToken: string -> Option<Principal>): (r: Option<Principal>)
    ensures !(header.Some? && StartsWith(header.value, Prefix)) ==> r.None?
    ensures header.Some? && StartsWith(header.value, Prefix) ==> r == verifyIdToken(ExtractToken(header).value)
  {
    match ExtractToken(header)
    case None => None
    case Some(token) => verifyIdToken(token)
  }
}
