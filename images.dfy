/**
 * The image check shared by the barber and gallery services: an image is a
 * `data:` URL (RFC 2397 section 3) of a PNG, JPEG or WebP picture whose
 * payload, the text after the first comma up to any second comma, is
 * non-empty and decodes to at most 2 MB. The barber service additionally
 * requires the payload to be in the base64 alphabet of RFC 4648 section 4.
 */
module Images {
  import opened Common

  const MaxBytes := 2 * 1024 * 1024

  /** The media subtypes the prefix admits: `png`, `jpg`, `jpeg`, `webp`. */
  const Subtypes := ["png", "jpg", "jpeg", "webp"]

  function Head(subtype: string): string {
    "data:image/" + subtype + ";base64,"
  }

  /** `/^data:image\/(png|jpe?g|webp);base64,/`: only the start is anchored. */
  predicate HasImageHead(s: string) {
    exists k :: 0 <= k < |Subtypes| && StartsWith(s, Head(Subtypes[k]))
  }

  /** The longest prefix of `s` without `c`. */
  function Before(s: string, c: char): (r: string)
    ensures c !in r && |r| <= |s| && s[..|r|] == r
    ensures |r| == |s| || s[|r|] == c
  {
    if |s| == 0 || s[0] == c then [] else [s[0]] + Before(s[1..], c)
  }

  lemma {:induction false} BeforeAppend(a: string, b: string, c: char)
    requires c !in a
    ensures Before(a + b, c) == a + Before(b, c)
  {
    if |a| > 0 {
      assert (a + b)[1..] == a[1..] + b;
      BeforeAppend(a[1..], b, c);
    } else {
      assert a + b == b;
    }
  }

  /** `s.split(',')[1]`: the text between the first comma and the next, or nothing without a comma. */
  function SecondField(s: string): (r: Option<string>)
    ensures r.None? <==> ',' !in s
    ensures r.Some? ==> ',' !in r.value
  {
    var first := Before(s, ',');
    if |first| == |s| then
      assert s[..|first|] == s;
      None
    else Some(Before(s[|first| + 1..], ','))
  }

  /** After an admitted prefix the payload is the body up to its first comma. */
  lemma PayloadAfterHead(k: nat, body: string)
    requires k < |Subtypes|
    ensures SecondField(Head(Subtypes[k]) + body) == Some(Before(body, ','))
  {
    var lead := "data:image/" + Subtypes[k] + ";base64";
    assert Head(Subtypes[k]) == lead + ",";
    assert ',' !in lead by {
      assert ',' !in "data:image/";
      assert ',' !in Subtypes[k];
      assert ',' !in ";base64";
    }
    var s := Head(Subtypes[k]) + body;
    assert s == lead + ("," + body);
    BeforeAppend(lead, "," + body, ',');
    assert Before("," + body, ',') == [];
    assert s[|lead| + 1..] == body;
  }

  /** An admitted prefix ends in a comma, so the payload field exists. */
  lemma HeadCarriesComma(s: string)
    requires HasImageHead(s)
    ensures ',' in s
  {
    var k :| 0 <= k < |Subtypes| && StartsWith(s, Head(Subtypes[k]));
    var h := Head(Subtypes[k]);
    assert h[|h| - 1] == ',';
    assert s[|h| - 1] == s[..|h|][|h| - 1];
  }

  predicate InAlphabet(c: char) {
    'A' <= c <= 'Z' || 'a' <= c <= 'z' || '0' <= c <= '9' || c == '+' || c == '/'
  }

  /** The number of `=` that end `p`. */
  function Padding(p: string): (n: nat)
    ensures n <= |p| && forall i :: |p| - n <= i < |p| ==> p[i] == '='
    ensures n < |p| ==> p[|p| - n - 1] != '='
  {
    if |p| == 0 || p[|p| - 1] != '=' then 0 else Padding(p[..|p| - 1]) + 1
  }

  /** `/^[A-Za-z0-9+/]*={0,2}$/`. */
  predicate Base64Text(p: string) {
    Padding(p) <= 2 && forall i :: 0 <= i < |p| - Padding(p) ==> InAlphabet(p[i])
  }

  /** `(length * 3) / 4 > 2 MB`, computed exactly. */
  predicate DecodesTooLarge(length: nat) {
    length * 3 > 4 * MaxBytes
  }

  /** The longest payload admitted is 2796202 characters. */
  lemma LongestPayload(length: nat)
    ensures DecodesTooLarge(length) <==> length > 2796202
  {
  }

  datatype Rejection = BadFormat | NoPayload | BadEncoding | TooLarge

  /** `validateBase64Image`; `alphabet` says whether the payload's alphabet is checked. */
  function CheckImage(s: string, alphabet: bool): (r: Option<Rejection>)
    ensures r == Some(BadFormat) <==> !HasImageHead(s)
    ensures HasImageHead(s) ==> SecondField(s).Some?
    ensures r == Some(NoPayload) <==> HasImageHead(s) && SecondField(s).value == ""
    ensures r == Some(BadEncoding) <==>
      alphabet && HasImageHead(s) && SecondField(s).value != "" && !Base64Text(SecondField(s).value)
    ensures r == Some(TooLarge) <==>
      HasImageHead(s) && SecondField(s).value != ""
      && (alphabet ==> Base64Text(SecondField(s).value)) && DecodesTooLarge(|SecondField(s).value|)
    ensures r.None? <==>
      HasImageHead(s) && SecondField(s).value != ""
      && (alphabet ==> Base64Text(SecondField(s).value)) && !DecodesTooLarge(|SecondField(s).value|)
  {
    if !HasImageHead(s) then Some(BadFormat)
    else
      HeadCarriesComma(s);
      var payload := SecondField(s).value;
      if payload == "" then Some(NoPayload)
      else if alphabet && !Base64Text(payload) then Some(BadEncoding)
      else if DecodesTooLarge(|payload|) then Some(TooLarge)
      else None
  }

  /** Every well-formed picture of an admitted subtype is accepted, by either service. */
  lemma WellFormedAccepted(k: nat, payload: string, alphabet: bool)
    requires k < |Subtypes| && payload != "" && Base64Text(payload) && !DecodesTooLarge(|payload|)
    ensures CheckImage(Head(Subtypes[k]) + payload, alphabet).None?
  {
    PayloadAfterHead(k, payload);
    assert ',' !in payload by {
      forall i | 0 <= i < |payload| ensures payload[i] != ',' {
        if i >= |payload| - Padding(payload) {
          assert payload[i] == '=';
        } else {
          assert InAlphabet(payload[i]);
        }
      }
    }
    BeforeNone(payload, ',');
    assert HasImageHead(Head(Subtypes[k]) + payload) by {
      var s := Head(Subtypes[k]) + payload;
      assert s[..|Head(Subtypes[k])|] == Head(Subtypes[k]);
    }
  }

  lemma {:induction false} BeforeNone(s: string, c: char)
    requires c !in s
    ensures Before(s, c) == s
  {
    if |s| > 0 {
      assert s[1..] == s[1..] && c !in s[1..];
      BeforeNone(s[1..], c);
      assert s == [s[0]] + s[1..];
    }
  }

  /** Whatever follows a second comma is never looked at. */
  lemma TrailingFieldsIgnored(k: nat, payload: string, rest: string, alphabet: bool)
    requires k < |Subtypes| && ',' !in payload
    ensures CheckImage(Head(Subtypes[k]) + (payload + "," + rest), alphabet)
         == CheckImage(Head(Subtypes[k]) + payload, alphabet)
  {
    HeadedHasHead(k, payload + "," + rest);
    HeadedHasHead(k, payload);
    PayloadAfterHead(k, payload + "," + rest);
    PayloadAfterHead(k, payload);
    CommaEndsField(payload, rest);
    SamePayloadSameVerdict(Head(Subtypes[k]) + (payload + "," + rest), Head(Subtypes[k]) + payload, alphabet);
  }

  lemma HeadedHasHead(k: nat, body: string)
    requires k < |Subtypes|
    ensures HasImageHead(Head(Subtypes[k]) + body)
  {
    var h := Head(Subtypes[k]);
    assert (h + body)[..|h|] == h;
  }

  lemma CommaEndsField(payload: string, rest: string)
    requires ',' !in payload
    ensures Before(payload + "," + rest, ',') == Before(payload, ',') == payload
  {
    assert payload + "," + rest == payload + ("," + rest);
    BeforeAppend(payload, "," + rest, ',');
    assert Before("," + rest, ',') == [];
    assert payload + [] == payload;
    BeforeNone(payload, ',');
  }

  lemma SamePayloadSameVerdict(s: string, t: string, alphabet: bool)
    requires HasImageHead(s) && HasImageHead(t) && SecondField(s) == SecondField(t)
    ensures CheckImage(s, alphabet) == CheckImage(t, alphabet)
  {
  }

  /** The check with the alphabet admits nothing the one without it refuses. */
  lemma AlphabetOnlyNarrows(s: string)
    ensures CheckImage(s, true).None? ==> CheckImage(s, false).None?
  {
  }

  /** A payload outside the alphabet separates the two checks. */
  lemma AlphabetMatters()
    ensures CheckImage(Head("png") + "!!!!", false).None?
    ensures CheckImage(Head("png") + "!!!!", true) == Some(BadEncoding)
  {
    var s := Head("png") + "!!!!";
    assert Subtypes[0] == "png";
    PayloadAfterHead(0, "!!!!");
    BeforeNone("!!!!", ',');
    assert s[..|Head("png")|] == Head("png");
    assert HasImageHead(s);
    assert Padding("!!!!") == 0;
    assert !InAlphabet("!!!!"[0]);
  }
}
