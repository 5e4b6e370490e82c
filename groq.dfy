/**
  The complaint-extraction client (agent/lib/groq.ts): it renders a batch of
  reviews as one prompt, sends one request to the language model, strips
  markdown code fences from the reply, decodes the JSON (a bare array or a
  `{complaints}` / `{results}` envelope) and keeps only the items of the
  right shape. The model itself and `JSON.parse` are passed in as functions.
 */
module Groq {
  import opened Wrappers
  import opened Json
  import opened Text

  // ---------------------------------------------------------------------
  // The language model, as an oracle
  // ---------------------------------------------------------------------

  /** The fixed system instructions of the three kinds of request the agent
      sends (complaint extraction, opportunity clustering, outcome
      clustering). */
  datatype Instruction = ComplaintExtraction | OpportunityClustering | OutcomeClustering

  /** One request: the system instruction, the token cap and the single user
      message. */
  datatype Request = Request(system: Instruction, maxTokens: nat, user: string)

  /** A block of the model's reply: text, or anything else (tool use, ...). */
  datatype ContentBlock = TextBlock(text: string) | OtherBlock

  /** A reply, or the message of the error the client library threw. */
  datatype LlmReply = Replied(content: seq<ContentBlock>) | Failed(message: string)

  /** The `n`-th call of a run (counting from 0) with request `req` gets
      `llm(req, n)`: the model is an arbitrary, non-deterministic service. */
  type Llm = (Request, nat) -> LlmReply

  /** `JSON.parse`: a value, or `None` when it throws. */
  type Parser = string -> Option<Json>

  // The system instruction asks for one of eight complaint categories
  // (Bugs/Crashes, Performance, UI/UX, Pricing/Subscriptions, Missing
  // Features, Customer Support, Privacy/Security, Content Quality); the
  // decoder does not check them, so the model does not list them.

  const ExtractionMaxTokens: nat := 4096

  /** `response.content[0]?.type === 'text' ? response.content[0].text : '[]'`. */
  function RawText(content: seq<ContentBlock>): (r: string)
    ensures |content| > 0 && content[0].TextBlock? ==> r == content[0].text
    ensures !(|content| > 0 && content[0].TextBlock?) ==> r == "[]"
  {
    if |content| > 0 && content[0].TextBlock? then content[0].text else "[]"
  }

  // ---------------------------------------------------------------------
  // Fence stripping
  // ---------------------------------------------------------------------

  const Fence: string := "```"

  /** Removes an opening fence at the very start, an optional `json` right
      after it in any letter case, and the white space that follows (a
      case-insensitive regular-expression replace anchored at the start). */
  function StripOpeningFence(s: string): string {
    if StartsWith(s, Fence) then
      var t := s[3..];
      var u := if |t| >= 4 && Lower(t[..4]) == "json" then t[4..] else t;
      TrimStart(u)
    else s
  }

  /** Removes a closing fence at the very end (white space after it
      allowed) together with the white space before it. */
  function StripClosingFence(s: string): string {
    var t := TrimEnd(s);
    if |t| >= 3 && t[|t| - 3..] == Fence then TrimEnd(t[..|t| - 3]) else s
  }

  /** The text handed to `JSON.parse`: one opening and one closing fence
      removed, then trimmed. */
  function StripFences(raw: string): (r: string)
    ensures Trimmed(r)
  {
    Trim(StripClosingFence(StripOpeningFence(raw)))
  }

  /** A fenced reply gives back exactly the text between the fences:
      "```json\n" + body + "\n```" (any letter case of `json`, any white
      space around the body and after the closing fence), or a bare
      "```" followed by white space. */
  lemma FencedReplyGivesBody(lang: string, ws1: string, body: string, ws2: string, ws3: string)
    requires Lower(lang) == "json" || (lang == [] && ws1 != [])
    requires AllSpace(ws1) && AllSpace(ws2) && AllSpace(ws3)
    requires body != [] && Trimmed(body)
    ensures StripFences(Fence + lang + ws1 + body + ws2 + Fence + ws3) == body
  {
    var l := Fence + lang + ws1;
    var v := body + ws2 + Fence + ws3;
    assert l + body + ws2 == l + (body + ws2);
    assert l + (body + ws2) + Fence == l + (body + ws2 + Fence);
    assert l + (body + ws2 + Fence) + ws3 == l + v;
    OpeningFenceStripped(lang, ws1, v);
    ClosingFenceStripped(body, ws2, ws3);
    TrimOfTrimmed(body);
  }

  lemma OpeningFenceStripped(lang: string, ws1: string, v: string)
    requires Lower(lang) == "json" || (lang == [] && ws1 != [])
    requires AllSpace(ws1)
    requires v != [] && !IsSpace(v[0])
    ensures StripOpeningFence(Fence + lang + ws1 + v) == v
  {
    OpeningFenceLeavesSpace(lang, ws1, v);
    TrimStartSpacePrefix(ws1, v);
  }

  /** The fence and the language tag go; what follows them is left to be
      trimmed. */
  lemma OpeningFenceLeavesSpace(lang: string, ws1: string, v: string)
    requires Lower(lang) == "json" || (lang == [] && ws1 != [])
    requires AllSpace(ws1)
    ensures StripOpeningFence(Fence + lang + ws1 + v) == TrimStart(ws1 + v)
  {
    var w := ws1 + v;
    assert Fence + lang + ws1 + v == Fence + (lang + w);
    if lang == [] {
      assert lang + w == w;
      BareFenceLeavesSpace(w);
    } else {
      JsonFenceLeavesSpace(lang, w);
    }
  }

  lemma BareFenceLeavesSpace(w: string)
    requires w != [] && IsSpace(w[0])
    ensures StripOpeningFence(Fence + w) == TrimStart(w)
  {
    var s := Fence + w;
    assert s[..3] == Fence;
    var t := s[3..];
    assert t == w;
    assert !(|t| >= 4 && Lower(t[..4]) == "json") by {
      if |t| >= 4 {
        assert Lower(t[..4])[0] == LowerChar(t[0]);
      }
    }
  }

  lemma JsonFenceLeavesSpace(lang: string, w: string)
    requires Lower(lang) == "json"
    ensures StripOpeningFence(Fence + (lang + w)) == TrimStart(w)
  {
    var s := Fence + (lang + w);
    assert s[..3] == Fence;
    var t := s[3..];
    assert t == lang + w;
    assert t[..4] == lang;
    assert t[4..] == w;
  }

  lemma ClosingFenceStripped(body: string, ws2: string, ws3: string)
    requires AllSpace(ws2) && AllSpace(ws3)
    requires body != [] && Trimmed(body)
    ensures StripClosingFence(body + ws2 + Fence + ws3) == body
  {
    var w := body + ws2 + Fence;
    assert body + ws2 + Fence + ws3 == w + ws3;
    TrimEndSpaceSuffix(w, ws3);
    assert !IsSpace(w[|w| - 1]);
    assert TrimEnd(w) == w;
    assert w[|w| - 3..] == Fence;
    assert w[..|w| - 3] == body + ws2;
    TrimEndSpaceSuffix(body, ws2);
  }

  /** Text with no fence at either end is only trimmed. */
  lemma UnfencedReplyIsTrimmed(s: string)
    requires !StartsWith(s, Fence)
    requires var t := TrimEnd(s); !(|t| >= 3 && t[|t| - 3..] == Fence)
    ensures StripFences(s) == Trim(s)
  {
  }

  // ---------------------------------------------------------------------
  // The prompt
  // ---------------------------------------------------------------------

  /** One review as the prompt shows it: its batch-local index, rating,
      title and body. */
  datatype ReviewInput = ReviewInput(index: nat, rating: int, title: string, body: string)

  /** `r.title || '(no title)'`. */
  function ShownTitle(title: string): (r: string)
    ensures title == [] ==> r == "(no title)"
    ensures title != [] ==> r == title
  {
    if title == [] then "(no title)" else title
  }

  /** `[index] ` opens every entry of the prompt. */
  function IndexTag(index: nat): string {
    "[" + NatToString(index) + "] "
  }

  /** What follows the tag: rating, shown title and body. */
  function ReviewDetails(r: ReviewInput): string {
    "Rating: " + IntToString(r.rating) + "/5\nTitle: " + ShownTitle(r.title) + "\nBody: " + r.body
  }

  function RenderReview(r: ReviewInput): (t: string)
    ensures StartsWith(t, IndexTag(r.index))
  {
    var t := IndexTag(r.index) + ReviewDetails(r);
    assert t[..|IndexTag(r.index)|] == IndexTag(r.index);
    t
  }

  const ReviewSeparator: string := "\n\n---\n\n"

  function RenderReviews(reviews: seq<ReviewInput>): (r: seq<string>)
    ensures |r| == |reviews|
    ensures forall k :: 0 <= k < |reviews| ==> r[k] == RenderReview(reviews[k])
  {
    if reviews == [] then [] else [RenderReview(reviews[0])] + RenderReviews(reviews[1..])
  }

  function ReviewsText(reviews: seq<ReviewInput>): string {
    Join(RenderReviews(reviews), ReviewSeparator)
  }

  function UserPrompt(reviews: seq<ReviewInput>): string {
    "Extract complaints from these " + NatToString(|reviews|) + " app reviews:\n\n"
      + ReviewsText(reviews)
      + "\n\nReturn JSON array: [{review_index, complaint_text, complaint_category, severity}]"
  }

  function ExtractionRequest(reviews: seq<ReviewInput>): Request {
    Request(ComplaintExtraction, ExtractionMaxTokens, UserPrompt(reviews))
  }

  /** Every review appears in the prompt, in order, opened by its index tag:
      the text splits as the reviews before `k`, a `---` separator, and
      review `k`'s entry followed by the rest. */
  lemma PromptListsReview(reviews: seq<ReviewInput>, k: nat)
    requires k < |reviews|
    ensures k == 0 ==> StartsWith(ReviewsText(reviews), RenderReview(reviews[0]))
    ensures 0 < k ==> ReviewsText(reviews) == ReviewsText(reviews[..k]) + ReviewSeparator + ReviewsText(reviews[k..])
    ensures StartsWith(ReviewsText(reviews[k..]), RenderReview(reviews[k]))
  {
    var parts := RenderReviews(reviews);
    assert RenderReviews(reviews[k..]) == parts[k..];
    assert RenderReviews(reviews[..k]) == parts[..k];
    if 0 < k {
      JoinSplit(parts, ReviewSeparator, k);
    }
    JoinAt(parts, ReviewSeparator, 0);
    JoinAt(parts[k..], ReviewSeparator, 0);
  }

  /** Reviews with different indices are told apart by their tags. */
  lemma IndexTagsDiffer(i: nat, j: nat)
    requires i != j
    ensures IndexTag(i) != IndexTag(j)
  {
    if IndexTag(i) == IndexTag(j) {
      var a, b := NatToString(i), NatToString(j);
      assert IndexTag(i) == "[" + a + "] " && IndexTag(j) == "[" + b + "] ";
      assert |a| == |b|;
      assert a == IndexTag(i)[1..|a| + 1];
      assert b == IndexTag(j)[1..|b| + 1];
      NatToStringInjective(i, j);
    }
  }

  // ---------------------------------------------------------------------
  // Decoding
  // ---------------------------------------------------------------------

  /** A complaint as the model reports it. `reviewIndex` and `severity` are
      whatever numbers the model wrote. */
  datatype ExtractedComplaint = ExtractedComplaint(
    reviewIndex: real, complaintText: string, complaintCategory: string, severity: real)

  /** The shape test of one item: numeric `review_index`, string
      `complaint_text`, string `complaint_category`, numeric `severity`. */
  function AsComplaint(v: Json): (r: Option<ExtractedComplaint>)
    ensures r.Some? <==>
      AsNumber(Member(v, "review_index")).Some? && AsString(Member(v, "complaint_text")).Some?
      && AsString(Member(v, "complaint_category")).Some? && AsNumber(Member(v, "severity")).Some?
    ensures r.Some? ==>
      Member(v, "review_index") == Some(JNumber(r.value.reviewIndex))
      && Member(v, "complaint_text") == Some(JString(r.value.complaintText))
      && Member(v, "complaint_category") == Some(JString(r.value.complaintCategory))
      && Member(v, "severity") == Some(JNumber(r.value.severity))
  {
    var ri := AsNumber(Member(v, "review_index"));
    var ct := AsString(Member(v, "complaint_text"));
    var cc := AsString(Member(v, "complaint_category"));
    var sv := AsNumber(Member(v, "severity"));
    if ri.Some? && ct.Some? && cc.Some? && sv.Some? then
      Some(ExtractedComplaint(ri.value, ct.value, cc.value, sv.value))
    else None
  }

  /** The array the decoder filters: a bare array as is; otherwise
      `parsed.complaints ?? parsed.results ?? []`. `None` stands for the
      `TypeError` of reading a member of `null` or of calling `filter` on
      something that is not an array. */
  function EnvelopeItems(parsed: Json): Option<seq<Json>> {
    ItemsOf(parsed, Coalesce(Member(parsed, "complaints"), Member(parsed, "results")))
  }

  /** The complaints `extractComplaints` returns for a parse result: a failed
      parse, or any error the decoding throws, yields none. */
  function DecodeComplaints(parsed: Option<Json>): seq<ExtractedComplaint> {
    if parsed.None? then []
    else
      var items := EnvelopeItems(parsed.value);
      if items.None? then []
      else
        var kept := KeepShaped(items.value, AsComplaint);
        if kept.None? then [] else kept.value
  }

  /** The complaints a non-failing reply yields. */
  function ReplyComplaints(content: seq<ContentBlock>, parse: Parser): seq<ExtractedComplaint> {
    DecodeComplaints(parse(StripFences(RawText(content))))
  }

  /** `extractComplaints(reviews)` as the `call`-th model call of a run: the
      error the client throws, or the decoded complaints. */
  function ExtractComplaints(reviews: seq<ReviewInput>, llm: Llm, parse: Parser, call: nat)
    : Result<seq<ExtractedComplaint>>
  {
    match llm(ExtractionRequest(reviews), call)
    case Failed(msg) => Err(msg)
    case Replied(content) => Ok(ReplyComplaints(content, parse))
  }

  /** Unparseable text yields no complaints rather than an error. */
  lemma ParseFailureYieldsNothing(content: seq<ContentBlock>, parse: Parser)
    requires parse(StripFences(RawText(content))).None?
    ensures ReplyComplaints(content, parse) == []
  {
  }

  /** A reply whose first block is not text is read as `[]`, which yields no
      complaints (given that `JSON.parse("[]")` is the empty array). */
  lemma NonTextReplyYieldsNothing(content: seq<ContentBlock>, parse: Parser)
    requires !(|content| > 0 && content[0].TextBlock?)
    requires parse("[]") == Some(JArray([]))
    ensures ReplyComplaints(content, parse) == []
  {
    assert StripFences("[]") == "[]" by {
      assert Trimmed("[]");
      TrimOfTrimmed("[]");
      assert !StartsWith("[]", Fence);
      assert TrimEnd("[]") == "[]";
    }
  }

  /** A bare array is filtered as it is. */
  lemma BareArrayIsFiltered(items: seq<Json>)
    requires JNull !in items
    ensures DecodeComplaints(Some(JArray(items))) == KeepShaped(items, AsComplaint).value
  {
  }

  /** An envelope's `complaints` array wins over its `results` array, which
      is used only when `complaints` is absent or null; with neither, or
      with a non-array member chosen, there are no complaints. */
  lemma EnvelopePriority(fields: map<string, Json>)
    ensures var parsed := JObject(fields);
      && ("complaints" in fields && fields["complaints"].JArray?
          ==> EnvelopeItems(parsed) == Some(fields["complaints"].items))
      && (("complaints" !in fields || fields["complaints"].JNull?) && "results" in fields && fields["results"].JArray?
          ==> EnvelopeItems(parsed) == Some(fields["results"].items))
      && (("complaints" !in fields || fields["complaints"].JNull?) && ("results" !in fields || fields["results"].JNull?)
          ==> EnvelopeItems(parsed) == Some([]))
      && ("complaints" in fields && !fields["complaints"].JNull? && !fields["complaints"].JArray?
          ==> DecodeComplaints(Some(parsed)) == [])
  {
  }

  /** One `null` item makes the whole filter throw, so the batch yields no
      complaints at all. */
  lemma NullItemYieldsNothing(items: seq<Json>)
    requires JNull in items
    ensures DecodeComplaints(Some(JArray(items))) == []
  {
  }
}
