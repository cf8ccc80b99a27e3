/**
 * The lowercase transform service: `GET /health` and `POST /process`,
 * which validates `{"text": ...}` in two stages and replies with the
 * text in lower case.
 */
module LowercaseService {
  import opened Wrappers
  import opened Messages
  import Text

  /** `GET /health`: a fixed reply naming the service; it has no failure path. */
  function Health(): (r: Reply)
    ensures r.status == 200
    ensures r.body == map["status" := Str("healthy"), "service" := Str("lowercase")]
  {
    Reply(200, map["status" := Str("healthy"), "service" := Str("lowercase")])
  }

  /** An ASCII capital letter. */
  predicate IsAsciiUpper(c: char) {
    'A' <= c <= 'Z'
  }

  /** Lower-cases one code point over the ASCII case table. */
  function LowerChar(c: char): (d: char)
    ensures IsAsciiUpper(c) ==> 'a' <= d <= 'z' && d as int == c as int + ('a' as int - 'A' as int)
    ensures !IsAsciiUpper(c) ==> d == c
    ensures !IsAsciiUpper(d)
  {
    if IsAsciiUpper(c) then (c as int + ('a' as int - 'A' as int)) as char else c
  }

  /** `text.lower()`: every code point lower-cased, in place. */
  function Lower(text: string): (r: string)
    ensures |r| == |text|
  {
    if text == [] then [] else [LowerChar(text[0])] + Lower(text[1..])
  }

  /** Lower-casing works code point by code point: position k of the result is `text[k]` lower-cased. */
  lemma {:induction false} LowerAt(text: string, k: nat)
    requires k < |text|
    ensures Lower(text)[k] == LowerChar(text[k])
  {
    if k > 0 {
      LowerAt(text[1..], k - 1);
    }
  }

  /** The result holds no ASCII capital, and every other code point is left as it was. */
  lemma {:induction false} LowerMapsOnlyCapitals(text: string)
    ensures forall k :: 0 <= k < |text| ==> !IsAsciiUpper(Lower(text)[k])
    ensures forall k :: 0 <= k < |text| && !IsAsciiUpper(text[k]) ==> Lower(text)[k] == text[k]
  {
    forall k | 0 <= k < |text| ensures Lower(text)[k] == LowerChar(text[k]) {
      LowerAt(text, k);
    }
  }

  /** Lower-casing twice is lower-casing once. */
  lemma {:induction false} LowerIdempotent(text: string)
    ensures Lower(Lower(text)) == Lower(text)
  {
    var once := Lower(text);
    forall k | 0 <= k < |once| ensures Lower(once)[k] == once[k] {
      LowerAt(once, k);
      LowerAt(text, k);
    }
  }

  /** Whitespace is not a capital, so lower-casing keeps a text blank or non-blank. */
  lemma {:induction false} LowerKeepsBlankness(text: string)
    ensures Text.AllSpace(Lower(text)) <==> Text.AllSpace(text)
  {
    forall k | 0 <= k < |text| ensures Lower(text)[k] == LowerChar(text[k]) {
      LowerAt(text, k);
    }
  }

  /**
   * `POST /process`: a missing body, an empty object or one without a `text`
   * key gives 400 "No text provided"; a `text` that is null, empty or
   * whitespace gives 400 "Input text cannot be empty"; otherwise 200 with
   * exactly `{"result": text.lower()}`.
   */
  function Process(body: Option<RequestBody>): (r: Reply)
    ensures body.None? || body.value == map[] || "text" !in body.value ==>
      r == ErrorReply(400, "No text provided")
    ensures body.Some? && "text" in body.value && Text.Blank(body.value["text"]) ==>
      r == ErrorReply(400, "Input text cannot be empty")
    ensures r.status == 200 <==>
      body.Some? && "text" in body.value && body.value["text"].Some? && !Text.AllSpace(body.value["text"].value)
    ensures r.status == 200 ==> r.body == map["result" := Str(Lower(body.value["text"].value))]
    ensures r.status in {200, 400}
  {
    if body.None? || body.value == map[] || "text" !in body.value then
      ErrorReply(400, "No text provided")
    else
      var text := body.value["text"];
      if Text.Blank(text) then
        ErrorReply(400, "Input text cannot be empty")
      else
        Reply(200, map["result" := Str(Lower(text.value))])
  }

  /** A body `{"text": text}` with a non-blank text is always answered 200 with the text lower-cased. */
  lemma AcceptsNonBlank(text: string)
    requires !Text.AllSpace(text)
    ensures Process(Some(map["text" := Some(text)])) == Reply(200, map["result" := Str(Lower(text))])
  {
  }
}
