/** The message classifier of app/llm_parser.py: strip the text, answer
    `unknown` for an empty message, take the language model's reply when it
    decodes into a well-formed result, and otherwise fall back to keyword
    matching on the lower-cased text.

    The language model is a parameter: `reply` is the decoded JSON value of
    its answer, or `None` when there is no client or the request or the
    decoding raised. */
module IntentParser {
  import opened Common
  import opened Models

  // ---------------------------------------------------------------------
  // The string operations the parser relies on.

  /** Characters `str.strip()` removes (the ASCII ones). */
  predicate IsSpace(c: char)
  {
    c == ' ' || c == '\t' || c == '\n' || c == '\r' || c == '\U{B}' || c == '\U{C}'
    || ('\U{1C}' <= c <= '\U{1F}')
  }

  /** The number of leading whitespace characters. */
  function Leading(s: string): (n: nat)
    ensures n <= |s|
    ensures forall k :: 0 <= k < n ==> IsSpace(s[k])
    ensures n < |s| ==> !IsSpace(s[n])
  {
    if s == [] || !IsSpace(s[0]) then 0 else 1 + Leading(s[1..])
  }

  /** The number of trailing whitespace characters. */
  function Trailing(s: string): (n: nat)
    ensures n <= |s|
    ensures forall k :: |s| - n <= k < |s| ==> IsSpace(s[k])
    ensures n < |s| ==> !IsSpace(s[|s| - 1 - n])
  {
    if s == [] || !IsSpace(s[|s| - 1]) then 0 else 1 + Trailing(s[..|s| - 1])
  }

  /** `r` is `s` less `i` leading and some trailing whitespace characters. */
  predicate TrimmedAt(s: string, r: string, i: int)
  {
    && 0 <= i <= |s| - |r|
    && r == s[i..i + |r|]
    && (forall k :: 0 <= k < i ==> IsSpace(s[k]))
    && (forall k :: i + |r| <= k < |s| ==> IsSpace(s[k]))
  }

  /** `str.strip()`: the text without its leading and trailing whitespace.
      The result is empty exactly when the text is all whitespace. */
  function Strip(s: string): (r: string)
    ensures r == [] || (!IsSpace(r[0]) && !IsSpace(r[|r| - 1]))
    ensures r == [] <==> forall k :: 0 <= k < |s| ==> IsSpace(s[k])
    ensures exists i :: TrimmedAt(s, r, i)
  {
    var i := Leading(s);
    var rest := s[i..];
    var j := Trailing(rest);
    if j == |rest| then
      assert i == |s|;
      assert TrimmedAt(s, [], i);
      []
    else
      var r := s[i..|s| - j];
      assert !IsSpace(s[i]);
      assert !IsSpace(r[0]) && !IsSpace(r[|r| - 1]) by {
        assert r[0] == rest[0] && r[|r| - 1] == rest[|rest| - 1 - j];
      }
      assert TrimmedAt(s, r, i) by {
        assert forall k :: |s| - j <= k < |s| ==> s[k] == rest[k - i];
      }
      r
  }

  lemma StripIdempotent(s: string)
    ensures Strip(Strip(s)) == Strip(s)
  {
    var r := Strip(s);
    if r != [] {
      assert Leading(r) == 0 && Trailing(r) == 0;
      assert r[0..][..|r|] == r;
    }
  }

  function LowerChar(c: char): char
  {
    if 'A' <= c <= 'Z' then (c as int + 32) as char else c
  }

  /** `str.lower()` on ASCII letters. */
  function Lower(s: string): (r: string)
    ensures |r| == |s|
    ensures forall k :: 0 <= k < |s| ==> r[k] == LowerChar(s[k]) && !('A' <= r[k] <= 'Z')
  {
    seq(|s|, k requires 0 <= k < |s| => LowerChar(s[k]))
  }

  lemma LowerIdempotent(s: string)
    ensures Lower(Lower(s)) == Lower(s)
  {
  }

  /** `w` occurs in `t` starting at index `i`. */
  predicate OccursAt(t: string, w: string, i: int)
  {
    0 <= i <= |t| - |w| && t[i..i + |w|] == w
  }

  /** Python's `w in t` on strings: `w` occurs in `t` as a substring. */
  predicate Contains(t: string, w: string)
  {
    exists i | 0 <= i <= |t| - |w| :: OccursAt(t, w, i)
  }

  /** Containment is transitive: whatever holds a word holds its parts. */
  lemma ContainsTransitive(t: string, w: string, v: string)
    requires Contains(t, w) && Contains(w, v)
    ensures Contains(t, v)
  {
    var i :| 0 <= i <= |t| - |w| && OccursAt(t, w, i);
    var j :| 0 <= j <= |w| - |v| && OccursAt(w, v, j);
    forall k | 0 <= k < |v| ensures t[i + j + k] == v[k] {
      assert t[i..i + |w|][j + k] == w[j + k];
      assert w[j..j + |v|][k] == v[k];
    }
    assert t[i + j..i + j + |v|] == v;
    assert OccursAt(t, v, i + j);
  }

  // ---------------------------------------------------------------------
  // The keyword heuristics.

  const CreateKeywords: seq<string> := ["add", "create", "schedule"]
  const RescheduleKeywords: seq<string> := ["move", "reschedule", "delay", "shift"]
  const CancelKeywords: seq<string> := ["cancel", "delete", "remove"]

  /** Every keyword that can decide the heuristic intent. */
  const AllKeywords: seq<string> := CreateKeywords + RescheduleKeywords + CancelKeywords + ["list"]

  /** `any(keyword in lowered for keyword in words)`. */
  predicate AnyIn(words: seq<string>, lowered: string)
  {
    exists w | w in words :: Contains(lowered, w)
  }

  /** The intent the fallback picks for an already lower-cased text: the
      first keyword group that occurs, in the order create, reschedule,
      cancel, list. */
  function Classify(lowered: string): Intent
  {
    if AnyIn(CreateKeywords, lowered) then CreateEvent
    else if AnyIn(RescheduleKeywords, lowered) then RescheduleEvent
    else if AnyIn(CancelKeywords, lowered) then CancelEvent
    else if (Contains(lowered, "what") && Contains(lowered, "schedule")) || Contains(lowered, "list") then ListEvents
    else Unknown
  }

  /** `_fallback_intent`, as written: the intent comes from substring
      matching; the payload carries the text; the confidence is 0.1 for
      `unknown` and 0.5 otherwise. */
  function FallbackIntent(text: string): (r: IntentResult)
    ensures r.payload == map["text" := JStr(text)] && r.originalText == text && r.rawResponse == None
    ensures r.confidence == if r.intent == Unknown then 0.1 else 0.5
    ensures r.intent == Unknown <==> forall w :: w in AllKeywords ==> !Contains(Lower(text), w)
  {
    var intent := Classify(Lower(text));
    IntentResult(intent, map["text" := JStr(text)], text, if intent == Unknown then 0.1 else 0.5, None)
  }

  /** The "what ... schedule" alternative never decides anything: a text
      holding "schedule" is already `create_event`. The list intent comes
      from "list" alone, when no earlier group matched. */
  lemma ListOnlyFromList(lowered: string)
    ensures Classify(lowered) == ListEvents <==>
              && Contains(lowered, "list")
              && !AnyIn(CreateKeywords, lowered)
              && !AnyIn(RescheduleKeywords, lowered)
              && !AnyIn(CancelKeywords, lowered)
  {
    if Contains(lowered, "schedule") {
      assert "schedule" in CreateKeywords;
    }
  }

  /** The heuristic ignores case: the intent and the confidence depend only
      on the lower-cased text. */
  lemma FallbackIgnoresCase(text: string)
    ensures FallbackIntent(Lower(text)).intent == FallbackIntent(text).intent
    ensures FallbackIntent(Lower(text)).confidence == FallbackIntent(text).confidence
  {
    LowerIdempotent(text);
  }

  /** As written, the keyword "reschedule" is never the one that decides:
      every text holding it also holds "schedule" and is `create_event`. */
  lemma RescheduleReadAsCreate(text: string)
    requires Contains(Lower(text), "reschedule")
    ensures FallbackIntent(text).intent == CreateEvent
  {
    assert OccursAt("reschedule", "schedule", 2);
    ContainsTransitive(Lower(text), "reschedule", "schedule");
    assert "schedule" in CreateKeywords;
  }

  /** As written, a text holding "remove" is never `cancel_event`: it also
      holds "move", a reschedule keyword that is tried first. */
  lemma RemoveNeverCancels(text: string)
    requires Contains(Lower(text), "remove")
    ensures FallbackIntent(text).intent != CancelEvent
  {
    assert OccursAt("remove", "move", 2);
    ContainsTransitive(Lower(text), "remove", "move");
    assert "move" in RescheduleKeywords;
  }

  /** "Reschedule lunch" is classed `create_event`. */
  lemma RescheduleLunchIsCreate()
    ensures FallbackIntent("Reschedule lunch").intent == CreateEvent
  {
    var l := Lower("Reschedule lunch");
    assert l[0..10] == "reschedule";
    assert OccursAt(l, "reschedule", 0);
    RescheduleReadAsCreate("Reschedule lunch");
  }

  // ---------------------------------------------------------------------
  // Whole-word matching: the keyword test the heuristic evidently intends.

  predicate IsLetter(c: char)
  {
    'a' <= c <= 'z' || 'A' <= c <= 'Z'
  }

  /** `w` occurs in `t` at index `i` with no letter directly before or
      after it. */
  predicate WordAt(t: string, w: string, i: int)
  {
    && OccursAt(t, w, i)
    && (i == 0 || !IsLetter(t[i - 1]))
    && (i + |w| == |t| || !IsLetter(t[i + |w|]))
  }

  /** `w` occurs in `t` as a whole word. */
  predicate HasWord(t: string, w: string)
  {
    exists i | 0 <= i <= |t| - |w| :: WordAt(t, w, i)
  }

  predicate AnyWord(words: seq<string>, lowered: string)
  {
    exists w | w in words :: HasWord(lowered, w)
  }

  /** `Classify` with every keyword test made a whole-word test. */
  function ClassifyByWord(lowered: string): Intent
  {
    if AnyWord(CreateKeywords, lowered) then CreateEvent
    else if AnyWord(RescheduleKeywords, lowered) then RescheduleEvent
    else if AnyWord(CancelKeywords, lowered) then CancelEvent
    else if (HasWord(lowered, "what") && HasWord(lowered, "schedule")) || HasWord(lowered, "list") then ListEvents
    else Unknown
  }

  /** `_fallback_intent` with whole-word keyword matching. */
  function FallbackIntentByWord(text: string): (r: IntentResult)
    ensures r.payload == map["text" := JStr(text)] && r.originalText == text && r.rawResponse == None
    ensures r.confidence == if r.intent == Unknown then 0.1 else 0.5
    ensures r.intent == Unknown <==> forall w :: w in AllKeywords ==> !HasWord(Lower(text), w)
  {
    var intent := ClassifyByWord(Lower(text));
    IntentResult(intent, map["text" := JStr(text)], text, if intent == Unknown then 0.1 else 0.5, None)
  }

  /** A whole word is a substring. */
  lemma WordIsSubstring(t: string, w: string)
    requires HasWord(t, w)
    ensures Contains(t, w)
  {
  }

  /** With whole-word matching, the word "reschedule" makes a reschedule
      request unless a create word is present, and the word "remove" makes a
      cancel request unless an earlier group's word is present. */
  lemma ByWordKeywordsReachable(text: string)
    ensures (HasWord(Lower(text), "reschedule") && !AnyWord(CreateKeywords, Lower(text)))
            ==> FallbackIntentByWord(text).intent == RescheduleEvent
    ensures (HasWord(Lower(text), "remove") && !AnyWord(CreateKeywords, Lower(text))
             && !AnyWord(RescheduleKeywords, Lower(text)))
            ==> FallbackIntentByWord(text).intent == CancelEvent
  {
    assert "reschedule" in RescheduleKeywords;
    assert "remove" in CancelKeywords;
  }

  /** With whole-word matching, "Reschedule lunch" is a reschedule request. */
  lemma RescheduleLunchByWord()
    ensures FallbackIntentByWord("Reschedule lunch").intent == RescheduleEvent
  {
    var l := Lower("Reschedule lunch");
    assert l == "reschedule lunch";
    assert WordAt(l, "reschedule", 0);
    NotWordInRescheduleLunch("add");
    NotWordInRescheduleLunch("create");
    NotWordInRescheduleLunch("schedule");
    assert !AnyWord(CreateKeywords, l);
    ByWordKeywordsReachable("Reschedule lunch");
  }

  /** No create keyword is a word of "reschedule lunch": "schedule" occurs,
      but only inside "reschedule". */
  lemma NotWordInRescheduleLunch(w: string)
    requires w == "add" || w == "create" || w == "schedule"
    ensures !HasWord("reschedule lunch", w)
  {
    var l := "reschedule lunch";
    forall i | 0 <= i <= |l| - |w| ensures !WordAt(l, w, i) {
      if i == 2 && w == "schedule" {
        assert IsLetter(l[1]);
      } else {
        assert l[i..i + |w|][0] == l[i];
      }
    }
  }

  /** The two heuristics agree on every text in which each keyword (and
      "what") that occurs at all occurs as a whole word. */
  lemma ByWordAgreesOnWholeWords(lowered: string)
    requires forall w :: w in AllKeywords + ["what"] && Contains(lowered, w) ==> HasWord(lowered, w)
    ensures ClassifyByWord(lowered) == Classify(lowered)
  {
    forall w | w in AllKeywords + ["what"]
      ensures Contains(lowered, w) <==> HasWord(lowered, w)
    {
      if HasWord(lowered, w) { WordIsSubstring(lowered, w); }
    }
    assert forall w :: w in CreateKeywords ==> w in AllKeywords + ["what"];
    assert forall w :: w in RescheduleKeywords ==> w in AllKeywords + ["what"];
    assert forall w :: w in CancelKeywords ==> w in AllKeywords + ["what"];
    assert "list" in AllKeywords + ["what"] && "what" in AllKeywords + ["what"];
    assert "schedule" in AllKeywords + ["what"];
  }

  // ---------------------------------------------------------------------
  // The language model's reply.

  /** The intent literal whose text `v` is, `Unknown` for anything else. */
  function WhitelistIntent(v: Json): (r: Intent)
    ensures r != Unknown ==> v == JStr(IntentName(r))
  {
    if v == JStr("create_event") then CreateEvent
    else if v == JStr("reschedule_event") then RescheduleEvent
    else if v == JStr("cancel_event") then CancelEvent
    else if v == JStr("list_events") then ListEvents
    else Unknown
  }

  /** Every literal's own text passes the whitelist unchanged. */
  lemma WhitelistRoundTrip(i: Intent)
    ensures WhitelistIntent(JStr(IntentName(i))) == i
  {
  }

  /** `float(v)`: numbers and booleans convert; anything else raises. */
  function ToFloat(v: Json): (r: Option<real>)
    ensures r.Some? <==> v.JNum? || v.JBool?
    ensures v.JNum? ==> r == Some(v.n)
  {
    match v
    case JNum(n) => Some(n)
    case JBool(b) => Some(if b then 1.0 else 0.0)
    case _ => None
  }

  /** `fields.get(key, default)`. */
  function Get(fields: map<string, Json>, key: string, default: Json): Json
  {
    if key in fields then fields[key] else default
  }

  /** The body of the `try` after the reply has been decoded: `None` when
      it raises (a reply that is not an object, a confidence `float` cannot
      convert, a payload that is not an object). */
  function FromReply(text: string, parsed: Json): (r: Option<IntentResult>)
    ensures !parsed.JObj? ==> r.None?
    ensures parsed.JObj? ==>
              (r.Some? <==> ToFloat(Get(parsed.fields, "confidence", JNum(0.5))).Some?
                            && Get(parsed.fields, "payload", JObj(map[])).JObj?)
    ensures r.Some? ==> && r.value.originalText == text
                        && r.value.rawResponse == Some(parsed.fields)
                        && r.value.intent == WhitelistIntent(Get(parsed.fields, "intent", JStr("unknown")))
                        && JObj(r.value.payload) == Get(parsed.fields, "payload", JObj(map[]))
                        && Some(r.value.confidence) == ToFloat(Get(parsed.fields, "confidence", JNum(0.5)))
    ensures r.Some? && r.value.intent != Unknown ==>
              "intent" in parsed.fields && parsed.fields["intent"] == JStr(IntentName(r.value.intent))
  {
    match parsed
    case JObj(fields) =>
      var confidence := ToFloat(Get(fields, "confidence", JNum(0.5)));
      var payload := Get(fields, "payload", JObj(map[]));
      if confidence.None? || !payload.JObj? then None
      else Some(IntentResult(WhitelistIntent(Get(fields, "intent", JStr("unknown"))), payload.fields, text, confidence.value, Some(fields)))
    case _ => None
  }

  /** A reply holding none of the three keys gives `unknown`, an empty
      payload and the default confidence 0.5. */
  lemma FromReplyDefaults(text: string, fields: map<string, Json>)
    requires "intent" !in fields && "payload" !in fields && "confidence" !in fields
    ensures FromReply(text, JObj(fields)) == Some(IntentResult(Unknown, map[], text, 0.5, Some(fields)))
  {
  }

  /** `parse_intent`: the text is stripped; a blank text is `unknown` with
      confidence 0.0; a usable reply decides; otherwise `_fallback_intent`. */
  function ParseIntent(text: string, reply: Option<Json>): (r: IntentResult)
    ensures r.originalText == Strip(text)
    ensures Strip(text) == [] ==> r == IntentResult(Unknown, map[], [], 0.0, None)
    ensures Strip(text) != [] && reply.Some? && FromReply(Strip(text), reply.value).Some? ==>
              r == FromReply(Strip(text), reply.value).value
    ensures Strip(text) != [] && (reply.None? || FromReply(Strip(text), reply.value).None?) ==>
              r == FallbackIntent(Strip(text))
    ensures r.rawResponse.Some? && r.intent != Unknown ==>
              "intent" in r.rawResponse.value && r.rawResponse.value["intent"] == JStr(IntentName(r.intent))
  {
    var t := Strip(text);
    if t == [] then IntentResult(Unknown, map[], t, 0.0, None)
    else if reply.Some? && FromReply(t, reply.value).Some? then FromReply(t, reply.value).value
    else FallbackIntent(t)
  }

  /** `parse_intent` with the whole-word fallback in place of the substring
      one. */
  function ParseIntentByWord(text: string, reply: Option<Json>): (r: IntentResult)
    ensures r.originalText == Strip(text)
    ensures Strip(text) == [] ==> r == IntentResult(Unknown, map[], [], 0.0, None)
    ensures Strip(text) != [] && reply.Some? && FromReply(Strip(text), reply.value).Some? ==>
              r == FromReply(Strip(text), reply.value).value
    ensures Strip(text) != [] && (reply.None? || FromReply(Strip(text), reply.value).None?) ==>
              r == FallbackIntentByWord(Strip(text))
  {
    var t := Strip(text);
    if t == [] then IntentResult(Unknown, map[], t, 0.0, None)
    else if reply.Some? && FromReply(t, reply.value).Some? then FromReply(t, reply.value).value
    else FallbackIntentByWord(t)
  }

  /** The two pipelines agree on every message whose keywords (and "what")
      occur only as whole words; they differ only in the fallback. */
  lemma ParseIntentByWordAgrees(text: string, reply: Option<Json>)
    requires forall w :: w in AllKeywords + ["what"] && Contains(Lower(Strip(text)), w) ==> HasWord(Lower(Strip(text)), w)
    ensures ParseIntentByWord(text, reply) == ParseIntent(text, reply)
  {
    ByWordAgreesOnWholeWords(Lower(Strip(text)));
  }

  /** Without a usable reply, "Reschedule lunch" is `create_event` through
      `parse_intent` as written and `reschedule_event` through the
      whole-word pipeline. */
  lemma RescheduleLunchPipelines()
    ensures ParseIntent("Reschedule lunch", None).intent == CreateEvent
    ensures ParseIntentByWord("Reschedule lunch", None).intent == RescheduleEvent
  {
    var t := "Reschedule lunch";
    assert Strip(t) == t by {
      assert !IsSpace(t[0]) && !IsSpace(t[|t| - 1]);
      assert Leading(t) == 0 && Trailing(t) == 0;
      assert t[0..][..|t|] == t;
    }
    RescheduleLunchIsCreate();
    RescheduleLunchByWord();
  }
}
