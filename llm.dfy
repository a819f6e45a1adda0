/** What `classify_ticket` in backend/tickets/llm.py does around the model
    call: the missing-key guard, stripping of markdown fences from the
    reply, normalisation of the parsed category and priority, and the
    fallback to `_default_response()` whenever anything raises. The client
    call is an input (`ClientReply`) and so is `json.loads` (`decode`). */
module Llm {
  import opened Common
  import opened Text
  import opened Models

  const FENCE := "```"

  /** `valid_categories` and `valid_priorities`. */
  const VALID_CATEGORIES: set<string> := {"billing", "technical", "account", "general"}
  const VALID_PRIORITIES: set<string> := {"low", "medium", "high", "critical"}

  /** A value produced by `json.loads`. */
  datatype Json =
    | JNull
    | JBool(b: bool)
    | JNumber(n: int)
    | JString(s: string)
    | JArray(items: seq<Json>)
    | JObject(fields: map<string, Json>)

  /** The client call: it raised, or it returned `content[0].text`. */
  datatype ClientReply = ClientError | Reply(text: string)

  /** `{'suggested_category': ..., 'suggested_priority': ...}`: a record with
      exactly these two keys. */
  datatype Suggestion = Suggestion(category: string, priority: string)

  /** The two sets hold exactly the model's declared choices. */
  lemma ValidSetsAreModelChoices(v: string)
    ensures v in VALID_CATEGORIES <==> ParseCategory(v).Some?
    ensures v in VALID_PRIORITIES <==> ParsePriority(v).Some?
  {
  }

  /** `_default_response()`: the model's default category and priority. */
  function DefaultResponse(): (r: Suggestion)
    ensures ParseCategory(r.category) == Some(DEFAULT_CATEGORY)
    ensures ParsePriority(r.priority) == Some(DEFAULT_PRIORITY)
  {
    Suggestion("general", "medium")
  }

  predicate FenceAt(s: string, i: int) {
    0 <= i && i + |FENCE| <= |s| && s[i..i + |FENCE|] == FENCE
  }

  /** The text up to the first fence, or all of it when there is none:
      `split("```")[1]` applied to what follows the opening fence. */
  function UpToFence(s: string): (r: string)
    ensures |r| <= |s| && r == s[..|r|]
    ensures forall i :: 0 <= i < |r| ==> !FenceAt(s, i)
    ensures |r| == |s| || FenceAt(s, |r|)
  {
    if s == [] || FenceAt(s, 0) then []
    else
      var rest := UpToFence(s[1..]);
      forall i | 0 <= i < |rest| + 1 ensures !FenceAt(s, i) {
        if i > 0 { FenceShift(s, i - 1); }
      }
      FenceShift(s, |rest|);
      [s[0]] + rest
  }

  /** A fence at position `i` of the tail is a fence at `i + 1` of the whole. */
  lemma FenceShift(s: string, i: nat)
    requires s != []
    ensures FenceAt(s[1..], i) <==> FenceAt(s, i + 1)
  {
    if i + |FENCE| <= |s| - 1 {
      assert s[1..][i..i + |FENCE|] == s[i + 1..i + 1 + |FENCE|];
    }
  }

  /** `raw[4:]` when the fenced text begins with a `json` language tag. */
  function DropJsonTag(s: string): (r: string)
    ensures StartsWith(s, "json") ==> s == "json" + r
    ensures !StartsWith(s, "json") ==> r == s
  {
    if StartsWith(s, "json") then s[4..] else s
  }

  /** Lines 60-67: strip the reply; if it opens with a fence keep only the
      text up to the next fence, drop a leading `json` tag and strip again. */
  function StripFences(text: string): (r: string)
    ensures NoEdgeSpace(Python, r)
    ensures !StartsWith(Trim(Python, text), FENCE) ==> r == Trim(Python, text)
    ensures StartsWith(Trim(Python, text), FENCE) ==>
      r == Trim(Python, DropJsonTag(UpToFence(Trim(Python, text)[|FENCE|..])))
  {
    var raw := Trim(Python, text);
    if StartsWith(raw, FENCE) then Trim(Python, DropJsonTag(UpToFence(raw[|FENCE|..]))) else raw
  }

  /** The fence search stops at the first fence: a prefix with no fence
      starting inside it is exactly what is kept. */
  lemma UpToFenceStops(p: string, rest: string)
    requires forall i :: 0 <= i < |p| ==> !FenceAt(p + FENCE + rest, i)
    ensures UpToFence(p + FENCE + rest) == p
  {
    var s := p + FENCE + rest;
    var r := UpToFence(s);
    assert FenceAt(s, |p|) by { assert s[|p|..|p| + |FENCE|] == FENCE; }
    assert |r| == |p|;
    assert s[..|p|] == p;
  }

  /** A fence is three backticks in a row. */
  lemma FenceChars(s: string, i: int)
    ensures FenceAt(s, i) ==> s[i] == '`' && s[i + 1] == '`' && s[i + 2] == '`'
  {
    if FenceAt(s, i) {
      assert s[i..i + 3] == FENCE;
      assert s[i..i + 3][0] == s[i] && s[i..i + 3][1] == s[i + 1] && s[i..i + 3][2] == s[i + 2];
    }
  }

  /** No fence starts inside `"json\n" + x + "\n"` when `x` holds none. */
  lemma NoFenceInTagged(x: string, rest: string)
    requires forall i :: !FenceAt(x, i)
    ensures var p := "json\n" + x + "\n";
      forall i :: 0 <= i < |p| ==> !FenceAt(p + FENCE + rest, i)
  {
    var p := "json\n" + x + "\n";
    var s := p + FENCE + rest;
    forall i | 0 <= i < |p| ensures !FenceAt(s, i) {
      FenceChars(s, i);
      if i < 5 {
        assert s[i] == p[i];
      } else if i + 2 >= 5 + |x| {
        var k := 5 + |x|;
        assert s[k] == '\n';
      } else {
        assert s[i..i + 3] == x[i - 5..i - 2];
        assert !FenceAt(x, i - 5);
      }
    }
  }

  /** Surrounding whitespace is stripped before the opening fence is looked for. */
  lemma StripFencesOfFenced(a: string, inner: string, b: string)
    requires AllSpace(Python, a) && AllSpace(Python, b)
    ensures StripFences(a + (FENCE + inner + FENCE) + b) == Trim(Python, DropJsonTag(UpToFence(inner + FENCE)))
  {
    var fenced := FENCE + inner + FENCE;
    assert NoEdgeSpace(Python, fenced) by {
      assert fenced[0] == '`' && fenced[|fenced| - 1] == '`';
    }
    TrimPadded(Python, a, fenced, b);
    var raw := Trim(Python, a + fenced + b);
    assert raw == fenced;
    assert StartsWith(raw, FENCE) by { assert fenced[..|FENCE|] == FENCE; }
    assert raw[|FENCE|..] == inner + FENCE;
  }

  /** A reply that opens with a fence and ends in a character that is not
      whitespace is cleaned from just after the opening fence. */
  lemma StripFencesOfOpened(s: string)
    requires StartsWith(s, FENCE) && !IsSpace(Python, s[|s| - 1])
    ensures StripFences(s) == Trim(Python, DropJsonTag(UpToFence(s[|FENCE|..])))
  {
    assert NoEdgeSpace(Python, s) by {
      assert s[0] == s[..|FENCE|][0] == '`';
    }
    TrimPadded(Python, [], s, []);
    assert [] + s + [] == s;
  }

  /** An opening fence that is never closed keeps everything after it. */
  lemma StripFencesUnclosed(body: string)
    requires (body == [] || !IsSpace(Python, body[|body| - 1])) && (forall i :: !FenceAt(body, i))
    ensures StripFences(FENCE + body) == Trim(Python, DropJsonTag(body))
  {
    var s := FENCE + body;
    assert StartsWith(s, FENCE) by { assert s[..|FENCE|] == FENCE; }
    assert s[|s| - 1] == if body == [] then '`' else body[|body| - 1];
    StripFencesOfOpened(s);
    assert s[|FENCE|..] == body;
    var kept := UpToFence(body);
    assert !FenceAt(body, |kept|);
    assert kept == body[..|body|] == body;
  }

  /** Text after the closing fence is dropped: only what lies between the
      first two fences is kept. */
  lemma StripFencesDropsTail(inner: string, rest: string)
    requires forall i :: 0 <= i < |inner| ==> !FenceAt(inner + FENCE + rest, i)
    requires rest == [] || !IsSpace(Python, rest[|rest| - 1])
    ensures StripFences(FENCE + inner + FENCE + rest) == Trim(Python, DropJsonTag(inner))
  {
    var t := inner + FENCE + rest;
    UpToFenceStops(inner, rest);
    assert !IsSpace(Python, t[|t| - 1]) by {
      if rest == [] {
        assert t[|t| - 1] == FENCE[2] == '`';
      } else {
        assert t[|t| - 1] == rest[|rest| - 1];
      }
    }
    var s := FENCE + t;
    assert s == FENCE + inner + FENCE + rest;
    assert StartsWith(s, FENCE) by { assert s[..|FENCE|] == FENCE; }
    assert s[|s| - 1] == t[|t| - 1];
    assert s[|FENCE|..] == t;
    StripFencesOfOpened(s);
  }

  /** The tagged body between the fences comes out stripped and untagged. */
  lemma TaggedBodyRecovered(x: string)
    requires NoEdgeSpace(Python, x) && (forall i :: !FenceAt(x, i))
    ensures Trim(Python, DropJsonTag(UpToFence("json\n" + x + "\n" + FENCE))) == x
  {
    var p := "json\n" + x + "\n";
    NoFenceInTagged(x, []);
    UpToFenceStops(p, []);
    assert p + FENCE + [] == p + FENCE;
    var body := "\n" + x + "\n";
    assert DropJsonTag(p) == body by {
      assert p[..4] == "json";
      assert p[4..] == body;
    }
    TrimPadded(Python, "\n", x, "\n");
  }

  /** A reply that wraps a stripped, fence-free body in a ```json fence,
      with any surrounding whitespace, comes out as that body. */
  lemma FencedReplyRoundTrip(x: string, a: string, b: string)
    requires NoEdgeSpace(Python, x) && (forall i :: !FenceAt(x, i))
    requires AllSpace(Python, a) && AllSpace(Python, b)
    ensures StripFences(a + FENCE + "json\n" + x + "\n" + FENCE + b) == x
  {
    var inner := "json\n" + x + "\n";
    assert a + FENCE + "json\n" + x + "\n" + FENCE + b == a + (FENCE + inner + FENCE) + b;
    StripFencesOfFenced(a, inner, b);
    TaggedBodyRecovered(x);
  }

  predicate Hashable(j: Json) {
    !j.JArray? && !j.JObject?
  }

  /** Lines 74-86 on the decoded reply. `None` stands for the exception
      raised when the reply is not an object (`.get` is missing) or when a
      looked-up value is a list or object (unhashable in a set test). */
  function Normalise(data: Json): (r: Option<Suggestion>)
    ensures r.Some? ==> r.value.category in VALID_CATEGORIES && r.value.priority in VALID_PRIORITIES
    ensures r.None? <==>
      || !data.JObject?
      || ("category" in data.fields && !Hashable(data.fields["category"]))
      || ("priority" in data.fields && !Hashable(data.fields["priority"]))
  {
    if !data.JObject? then None
    else
      var category := if "category" in data.fields then data.fields["category"] else JString("general");
      var priority := if "priority" in data.fields then data.fields["priority"] else JString("medium");
      if !Hashable(category) || !Hashable(priority) then None
      else
        Some(Suggestion(
          if category.JString? && category.s in VALID_CATEGORIES then category.s else "general",
          if priority.JString? && priority.s in VALID_PRIORITIES then priority.s else "medium"))
  }

  /** A valid value passes through; a missing or invalid one falls back to
      the default, independently for the two keys. */
  lemma NormalisePerKey(fields: map<string, Json>)
    requires "category" in fields ==> Hashable(fields["category"])
    requires "priority" in fields ==> Hashable(fields["priority"])
    ensures var r := Normalise(JObject(fields));
      && r.Some?
      && r.value.category ==
           (if "category" in fields && fields["category"].JString? && fields["category"].s in VALID_CATEGORIES
            then fields["category"].s else "general")
      && r.value.priority ==
           (if "priority" in fields && fields["priority"].JString? && fields["priority"].s in VALID_PRIORITIES
            then fields["priority"].s else "medium")
  {
  }

  /** `classify_ticket(description)` with the configured key, the client's
      reply and the JSON decoder as inputs. */
  function ClassifyTicket(apiKey: string, reply: ClientReply, decode: string -> Option<Json>): (r: Suggestion)
    ensures r.category in VALID_CATEGORIES && r.priority in VALID_PRIORITIES
    ensures apiKey == [] ==> r == DefaultResponse()
    ensures reply.ClientError? ==> r == DefaultResponse()
    ensures reply.Reply? && decode(StripFences(reply.text)).None? ==> r == DefaultResponse()
    ensures reply.Reply? && decode(StripFences(reply.text)).Some? ==>
      (Normalise(decode(StripFences(reply.text)).value).None? ==> r == DefaultResponse())
    ensures apiKey != [] && reply.Reply? && decode(StripFences(reply.text)).Some? ==>
      (Normalise(decode(StripFences(reply.text)).value).Some? ==>
         r == Normalise(decode(StripFences(reply.text)).value).value)
  {
    if apiKey == [] then DefaultResponse()
    else
      match reply
      case ClientError => DefaultResponse()
      case Reply(text) =>
        match decode(StripFences(text))
        case None => DefaultResponse()
        case Some(data) =>
          match Normalise(data)
          case None => DefaultResponse()
          case Some(s) => s
  }

  /** A bare reply, as the prompt asks for, naming a valid category and
      priority is returned as it is, whatever whitespace surrounds it. */
  lemma UnfencedPassesThrough(apiKey: string, x: string, a: string, b: string,
                              decode: string -> Option<Json>, category: string, priority: string)
    requires apiKey != []
    requires NoEdgeSpace(Python, x) && !StartsWith(x, FENCE) && AllSpace(Python, a) && AllSpace(Python, b)
    requires decode(x) == Some(JObject(map["category" := JString(category), "priority" := JString(priority)]))
    requires category in VALID_CATEGORIES && priority in VALID_PRIORITIES
    ensures ClassifyTicket(apiKey, Reply(a + x + b), decode) == Suggestion(category, priority)
  {
    TrimPadded(Python, a, x, b);
  }

  /** A well-formed reply naming a valid category and priority inside a
      json-tagged fence is returned as it is, whatever whitespace surrounds
      the fence. */
  lemma ValidReplyPassesThrough(apiKey: string, x: string, a: string, b: string,
                                decode: string -> Option<Json>, category: string, priority: string)
    requires apiKey != []
    requires NoEdgeSpace(Python, x) && (forall i :: !FenceAt(x, i)) && AllSpace(Python, a) && AllSpace(Python, b)
    requires decode(x) == Some(JObject(map["category" := JString(category), "priority" := JString(priority)]))
    requires category in VALID_CATEGORIES && priority in VALID_PRIORITIES
    ensures ClassifyTicket(apiKey, Reply(a + FENCE + "json\n" + x + "\n" + FENCE + b), decode) == Suggestion(category, priority)
  {
    FencedReplyRoundTrip(x, a, b);
  }
}
