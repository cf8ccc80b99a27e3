/**
 * The reverse transform service: `GET /health` and `POST /process`,
 * which validates `{"text": ...}` in two stages and replies with the
 * text's code points in reverse order (`text[::-1]`).
 */
module ReverseService {
  import opened Wrappers
  import opened Messages
  import Text

  /** `GET /health`: a fixed reply naming the service; it has no failure path. */
  function Health(): (r: Reply)
    ensures r.status == 200
    ensures r.body == map["status" := Str("healthy"), "service" := Str("reverse")]
  {
    Reply(200, map["status" := Str("healthy"), "service" := Str("reverse")])
  }

  /** `text[::-1]`: the code points of `text`, last first. */
  function Reverse(text: string): (r: string)
    ensures |r| == |text|
  {
    if text == [] then [] else [text[|text| - 1]] + Reverse(text[..|text| - 1])
  }

  /** Position k of the reversed text is position |text|-1-k of the text. */
  lemma {:induction false} ReverseAt(text: string, k: nat)
    requires k < |text|
    ensures Reverse(text)[k] == text[|text| - 1 - k]
  {
    if k > 0 {
      ReverseAt(text[..|text| - 1], k - 1);
    }
  }

  /** Reversing twice gives the text back. */
  lemma {:induction false} ReverseInvolution(text: string)
    ensures Reverse(Reverse(text)) == text
  {
    var once := Reverse(text);
    forall k | 0 <= k < |text| ensures Reverse(once)[k] == text[k] {
      ReverseAt(once, k);
      ReverseAt(text, |text| - 1 - k);
    }
  }

  /** Reversal only reorders: the multiset of code points is unchanged. */
  lemma {:induction false} ReversePermutes(text: string)
    ensures multiset(Reverse(text)) == multiset(text)
  {
    if text != [] {
      var init := text[..|text| - 1];
      ReversePermutes(init);
      assert text == init + [text[|text| - 1]];
    }
  }

  /** Reversal keeps a text blank or non-blank. */
  lemma {:induction false} ReverseKeepsBlankness(text: string)
    ensures Text.AllSpace(Reverse(text)) <==> Text.AllSpace(text)
  {
    if Text.AllSpace(Reverse(text)) {
      forall k | 0 <= k < |text| ensures Text.IsSpace(text[k]) {
        ReverseAt(text, |text| - 1 - k);
      }
    }
    if Text.AllSpace(text) {
      forall k | 0 <= k < |text| ensures Text.IsSpace(Reverse(text)[k]) {
        ReverseAt(text, k);
      }
    }
  }

  /**
   * `POST /process`: a missing body, an empty object or one without a `text`
   * key gives 400 "No text provided"; a `text` that is null, empty or
   * whitespace gives 400 "Input text cannot be empty"; otherwise 200 with
   * exactly `{"result": text[::-1]}`.
   */
  function Process(body: Option<RequestBody>): (r: Reply)
    ensures body.None? || body.value == map[] || "text" !in body.value ==>
      r == ErrorReply(400, "No text provided")
    ensures body.Some? && "text" in body.value && Text.Blank(body.value["text"]) ==>
      r == ErrorReply(400, "Input text cannot be empty")
    ensures r.status == 200 <==>
      body.Some? && "text" in body.value && body.value["text"].Some? && !Text.AllSpace(body.value["text"].value)
    ensures r.status == 200 ==> r.body == map["result" := Str(Reverse(body.value["text"].value))]
    ensures r.status in {200, 400}
  {
    if body.None? || body.value == map[] || "text" !in body.value then
      ErrorReply(400, "No text provided")
    else
      var text := body.value["text"];
      if Text.Blank(text) then
        ErrorReply(400, "Input text cannot be empty")
      else
        Reply(200, map["result" := Str(Reverse(text.value))])
  }

  /** A body `{"text": text}` with a non-blank text is always answered 200 with the text reversed. */
  lemma AcceptsNonBlank(text: string)
    requires !Text.AllSpace(text)
    ensures Process(Some(map["text" := Some(text)])) == Reply(200, map["result" := Str(Reverse(text))])
  {
  }
}
