/** ASCII text helpers of the store: case folding, media types and byte order of strings. */
module Text {

  function ToLowerChar(c: char): char {
    if 'A' <= c <= 'Z' then (c as int + 32) as char else c
  }

  function ToLower(s: string): string {
    if s == "" then "" else [ToLowerChar(s[0])] + ToLower(s[1..])
  }

  /** Equality up to ASCII case. */
  predicate EqualFold(a: string, b: string) {
    ToLower(a) == ToLower(b)
  }

  /** The part of a content type before the first semicolon. */
  function ExtractMediaType(ct: string): string {
    if ct == "" || ct[0] == ';' then "" else [ct[0]] + ExtractMediaType(ct[1..])
  }

  function OrDefault(ct: string): string {
    if ct == "" then "application/octet-stream" else ct
  }

  /** Two content types name the same media type, ignoring case and parameters. */
  predicate ContentTypeMatches(a: string, b: string) {
    EqualFold(ExtractMediaType(OrDefault(a)), ExtractMediaType(OrDefault(b)))
  }

  predicate IsJson(ct: string) {
    ToLower(ExtractMediaType(ct)) == "application/json"
  }

  /** The order of Go's `<` on strings. */
  predicate Less(a: string, b: string) {
    if b == "" then false
    else if a == "" then true
    else a[0] < b[0] || (a[0] == b[0] && Less(a[1..], b[1..]))
  }

  predicate LessOrEqual(a: string, b: string) {
    a == b || Less(a, b)
  }

  lemma {:induction false} LessTotal(a: string, b: string)
    ensures a == b || Less(a, b) || Less(b, a)
    decreases |a|
  {
    if a != "" && b != "" && a[0] == b[0] {
      LessTotal(a[1..], b[1..]);
      if a[1..] == b[1..] { assert a == [a[0]] + a[1..] && b == [b[0]] + b[1..]; }
    }
  }

  lemma {:induction false} LessIrreflexive(a: string)
    ensures !Less(a, a)
    decreases |a|
  {
    if a != "" { LessIrreflexive(a[1..]); }
  }

  lemma {:induction false} LessTransitive(a: string, b: string, c: string)
    requires Less(a, b) && Less(b, c)
    ensures Less(a, c)
    decreases |a|
  {
    if a != "" && a[0] == b[0] == c[0] { LessTransitive(a[1..], b[1..], c[1..]); }
  }

  /** Byte order is decided at the first difference, or by length when one text is a prefix of the other. */
  lemma {:induction false} LessAt(a: string, b: string, k: nat)
    requires k <= |a| && k <= |b| && a[..k] == b[..k] && (k < |a| && k < |b| ==> a[k] != b[k])
    requires k == |a| || k == |b| || (k < |a| && k < |b|)
    ensures k < |a| && k < |b| ==> (Less(a, b) <==> a[k] < b[k])
    ensures k == |a| || k == |b| ==> (Less(a, b) <==> |a| < |b|)
    decreases k
  {
    if k > 0 {
      assert a[0] == a[..k][0] && b[0] == b[..k][0];
      assert a[1..][..k - 1] == a[..k][1..] && b[1..][..k - 1] == b[..k][1..];
      LessAt(a[1..], b[1..], k - 1);
    }
  }

  // ---- What the media types are ----

  /** The same character up to ASCII case. */
  predicate SameLetter(a: char, b: char) {
    a == b || ('A' <= a <= 'Z' && b as int == a as int + 32) || ('A' <= b <= 'Z' && a as int == b as int + 32)
  }

  predicate SameLetters(a: string, b: string) {
    |a| == |b| && forall i :: 0 <= i < |a| ==> SameLetter(a[i], b[i])
  }

  lemma {:induction false} FoldsExactly(a: string, b: string)
    ensures EqualFold(a, b) <==> SameLetters(a, b)
    decreases |a|
  {
    if a != "" && b != "" {
      FoldsExactly(a[1..], b[1..]);
      assert EqualFold(a, b) <==> ToLowerChar(a[0]) == ToLowerChar(b[0]) && EqualFold(a[1..], b[1..]) by {
        assert ToLower(a)[0] == ToLowerChar(a[0]) && ToLower(a)[1..] == ToLower(a[1..]);
        assert ToLower(b)[0] == ToLowerChar(b[0]) && ToLower(b)[1..] == ToLower(b[1..]);
      }
      assert SameLetters(a, b) <==> SameLetter(a[0], b[0]) && SameLetters(a[1..], b[1..]) by {
        if SameLetter(a[0], b[0]) && SameLetters(a[1..], b[1..]) {
          assert forall i :: 0 < i < |a| ==> a[i] == a[1..][i - 1] && b[i] == b[1..][i - 1];
        }
      }
    }
  }

  /** The media type is what comes before the first semicolon, or all there is. */
  predicate IsMediaType(media: string, ct: string) {
    media <= ct && ';' !in media && (|media| < |ct| ==> ct[|media|] == ';')
  }

  lemma {:induction false} MediaTypeExactly(ct: string, media: string)
    ensures IsMediaType(media, ct) <==> media == ExtractMediaType(ct)
    decreases |ct|
  {
    if ct != "" && ct[0] != ';' {
      var rest := ExtractMediaType(ct[1..]);
      MediaTypeExactly(ct[1..], rest);
      assert IsMediaType([ct[0]] + rest, ct) by { assert ct == [ct[0]] + ct[1..]; }
      if IsMediaType(media, ct) {
        assert media != "";
        assert media == [media[0]] + media[1..];
        MediaTypeExactly(ct[1..], media[1..]);
      }
    }
  }

  /** Two content types match when their media types, or the default, are the same up to case, whatever follows them. */
  lemma {:induction false} MatchesExactly(a: string, b: string, x: string, y: string)
    requires IsMediaType(x, OrDefault(a)) && IsMediaType(y, OrDefault(b))
    ensures ContentTypeMatches(a, b) <==> SameLetters(x, y)
  {
    MediaTypeExactly(OrDefault(a), x);
    MediaTypeExactly(OrDefault(b), y);
    FoldsExactly(x, y);
  }

  /** A stream is JSON when its media type is, up to case. */
  lemma {:induction false} JsonExactly(ct: string, media: string, json: string)
    requires IsMediaType(media, ct) && json == "application/json"
    ensures IsJson(ct) <==> SameLetters(media, json)
  {
    MediaTypeExactly(ct, media);
    JsonIsLower(json);
    LowersTo(media, json);
  }

  lemma {:induction false} LowersTo(a: string, b: string)
    requires ToLower(b) == b
    ensures ToLower(a) == b <==> SameLetters(a, b)
  {
    FoldsExactly(a, b);
  }

  lemma {:induction false} JsonIsLower(json: string)
    requires json == "application/json"
    ensures ToLower(json) == json
  {
    forall c | c in json ensures !('A' <= c <= 'Z') {
    }
    LowerStays(json);
  }

  lemma {:induction false} LowerStays(s: string)
    requires forall c :: c in s ==> !('A' <= c <= 'Z')
    ensures ToLower(s) == s
    decreases |s|
  {
    if s != "" {
      assert s[0] in s && (forall c :: c in s[1..] ==> c in s);
      LowerStays(s[1..]);
    }
  }

  predicate StartsWith(s: string, prefix: string) {
    |prefix| <= |s| && s[..|prefix|] == prefix
  }
}
