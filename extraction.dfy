/** Finding a tool call in the model's reply (agent/main.py, lines 83-92).

    The two regular expressions of the source are modelled as hand-written
    searches.  Each is specified against a predicate that says when a span of
    the text is matched by the pattern, together with the choice Python's
    backtracking `re.search` makes among the matches: the leftmost start, and
    at that start the shortest lazy body (fenced form) or the longest greedy
    tail (raw form). */
module Extraction {
  import opened Base

  const Fence := "```json"
  const CloseFence := "```"
  const ToolKey := "\"tool\":"

  /** The characters `\s` matches in a `str` pattern: those whose
      `str.isspace()` is true. */
  predicate IsSpace(c: char)
  {
    c in {' ', '\t', '\n', '\r', '\U{0B}', '\U{0C}', '\U{1C}', '\U{1D}', '\U{1E}', '\U{1F}',
          '\U{85}', '\U{A0}', '\U{1680}', '\U{2028}', '\U{2029}', '\U{202F}', '\U{205F}', '\U{3000}'}
    || ('\U{2000}' <= c <= '\U{200A}')
  }

  predicate AllSpace(s: string)
  {
    forall i :: 0 <= i < |s| ==> IsSpace(s[i])
  }

  /** The end of the run of `\s` characters that starts at `k`: what a greedy
      `\s*` consumes there. */
  function SkipSpace(text: string, k: nat): (r: nat)
    requires k <= |text|
    ensures k <= r <= |text|
    ensures AllSpace(text[k..r])
    ensures r < |text| ==> !IsSpace(text[r])
    decreases |text| - k
  {
    if k < |text| && IsSpace(text[k]) then
      var r := SkipSpace(text, k + 1);
      assert text[k..r] == [text[k]] + text[k + 1..r];
      r
    else k
  }

  /** A run of spaces followed by a non-space ends exactly where SkipSpace stops. */
  lemma SpaceRunEnd(text: string, a: nat, b: nat)
    requires a <= b < |text|
    requires AllSpace(text[a..b]) && !IsSpace(text[b])
    ensures SkipSpace(text, a) == b
  {
    var r := SkipSpace(text, a);
    forall i | a <= i < b ensures IsSpace(text[i]) {
      assert text[a..b][i - a] == text[i];
    }
    forall i | a <= i < r ensures IsSpace(text[i]) {
      assert text[a..r][i - a] == text[i];
    }
  }

  // ---------------------------------------------------------------------
  // The fenced form:  ```json\s*(\{.*?\})\s*```   (re.DOTALL)

  /** ```json\s*\{ matches from `i`, with the `{` of the capture at `lo`. */
  ghost predicate OpensAt(text: string, i: nat, lo: nat)
  {
    OccursAt(text, i, Fence) && i + |Fence| <= lo < |text|
    && AllSpace(text[i + |Fence|..lo]) && text[lo] == '{'
  }

  /** \s*``` matches from `hi` and ends at `j`. */
  ghost predicate ClosesAt(text: string, hi: nat, j: nat)
  {
    hi + |CloseFence| <= j <= |text|
    && AllSpace(text[hi..j - |CloseFence|]) && text[j - |CloseFence|..j] == CloseFence
  }

  /** \{.*?\}\s*``` matches from `lo` to `j`, the capture ending at `hi`. */
  ghost predicate BodyCloses(text: string, lo: nat, hi: nat, j: nat)
  {
    lo + 2 <= hi <= |text| && text[hi - 1] == '}' && ClosesAt(text, hi, j)
  }

  /** The whole fenced pattern matches text[i..j] with group 1 = text[lo..hi]. */
  ghost predicate FencedMatch(text: string, i: nat, lo: nat, hi: nat, j: nat)
  {
    OpensAt(text, i, lo) && BodyCloses(text, lo, hi, j)
  }

  /** A regular-expression match: where it starts and ends, and its group 1. */
  datatype Span = Span(start: nat, lo: nat, hi: nat, end: nat)

  /** Where the capture's `{` is when the fence opens at `i`, if it opens. */
  function OpenBody(text: string, i: nat): (r: Option<nat>)
    ensures forall lo: nat :: OpensAt(text, i, lo) <==> r == Some(lo)
  {
    if OccursAt(text, i, Fence) then
      var lo := SkipSpace(text, i + |Fence|);
      if lo < |text| && text[lo] == '{' then Some(lo)
      else
        assert forall lo': nat :: OpensAt(text, i, lo') ==> lo' == lo by {
          forall lo': nat | OpensAt(text, i, lo') ensures lo' == lo { SpaceRunEnd(text, i + |Fence|, lo'); }
        }
        None
    else None
  }

  /** Where the fence closes when the capture ends at `hi`, if it closes there. */
  function CloseEnd(text: string, hi: nat): (r: Option<nat>)
    requires hi <= |text|
    ensures forall j: nat :: ClosesAt(text, hi, j) <==> r == Some(j)
  {
    var k := SkipSpace(text, hi);
    assert forall j: nat :: ClosesAt(text, hi, j) ==> j - |CloseFence| == k by {
      forall j: nat | ClosesAt(text, hi, j) ensures j - |CloseFence| == k {
        assert text[j - |CloseFence|] == text[j - |CloseFence|..j][0];
        SpaceRunEnd(text, hi, j - |CloseFence|);
      }
    }
    if k + |CloseFence| <= |text| && text[k..k + |CloseFence|] == CloseFence then Some(k + |CloseFence|)
    else None
  }

  /** The lazy `.*?`: the first capture end at or after `h` after which the
      fence closes, together with the end of the match. */
  function ShortestBody(text: string, lo: nat, h: nat): (r: Option<(nat, nat)>)
    requires lo + 2 <= h
    ensures r.Some? ==> h <= r.value.0 && BodyCloses(text, lo, r.value.0, r.value.1)
    ensures forall hi, j | h <= hi && (r.None? || hi < r.value.0) :: !BodyCloses(text, lo, hi, j)
    decreases |text| + 1 - h
  {
    if h > |text| then None
    else if text[h - 1] == '}' && CloseEnd(text, h).Some? then Some((h, CloseEnd(text, h).value))
    else
      assert forall j: nat :: !BodyCloses(text, lo, h, j);
      ShortestBody(text, lo, h + 1)
  }

  /** `re.search` of the fenced pattern, trying the starts from `i` onwards. */
  function FencedFrom(text: string, i: nat): (r: Option<Span>)
    ensures r.Some? ==> i <= r.value.start && FencedMatch(text, r.value.start, r.value.lo, r.value.hi, r.value.end)
    ensures r.Some? ==> forall lo, hi, j :: FencedMatch(text, r.value.start, lo, hi, j) ==> r.value.hi <= hi
    ensures forall i', lo, hi, j | i <= i' && (r.None? || i' < r.value.start) :: !FencedMatch(text, i', lo, hi, j)
    decreases |text| + 1 - i
  {
    if i + |Fence| > |text| then None
    else match OpenBody(text, i)
      case None => FencedFrom(text, i + 1)
      case Some(lo) =>
        match ShortestBody(text, lo, lo + 2)
        case Some((hi, j)) => Some(Span(i, lo, hi, j))
        case None => FencedFrom(text, i + 1)
  }

  function FencedSearch(text: string): Option<Span>
  {
    FencedFrom(text, 0)
  }

  // ---------------------------------------------------------------------
  // The raw form:  (\{.*"tool":.*\})   (re.DOTALL)

  /** The raw pattern matches text[i..j] (all of it is group 1), its
      `"tool":` standing at `p`. */
  ghost predicate RawMatch(text: string, i: nat, p: nat, j: nat)
  {
    i < p && p + |ToolKey| < j <= |text|
    && text[i] == '{' && OccursAt(text, p, ToolKey) && text[j - 1] == '}'
  }

  /** A raw match: its start, where its `"tool":` is, and its end. */
  datatype RawHit = RawHit(start: nat, tool: nat, end: nat)

  /** The last `}` before index `k`. */
  function LastBrace(text: string, k: nat): (r: Option<nat>)
    requires k <= |text|
    ensures r.Some? ==> r.value < k && text[r.value] == '}'
    ensures forall q: nat | (r.None? || r.value < q) && q < k :: text[q] != '}'
  {
    if k == 0 then None
    else if text[k - 1] == '}' then Some(k - 1)
    else LastBrace(text, k - 1)
  }

  /** The last `"tool":` that starts before index `n`. */
  function LastToolBelow(text: string, n: nat): (r: Option<nat>)
    ensures r.Some? ==> r.value < n && OccursAt(text, r.value, ToolKey)
    ensures forall p: nat | (r.None? || r.value < p) && p < n :: !OccursAt(text, p, ToolKey)
  {
    if n == 0 then None
    else if OccursAt(text, n - 1, ToolKey) then Some(n - 1)
    else LastToolBelow(text, n - 1)
  }

  /** The first `{` in text[i..n]. */
  function FirstOpenBelow(text: string, i: nat, n: nat): (r: Option<nat>)
    requires n <= |text|
    ensures r.Some? ==> i <= r.value < n && text[r.value] == '{'
    ensures forall k | i <= k && (r.None? || k < r.value) && k < n :: text[k] != '{'
    decreases n - i
  {
    if i >= n then None
    else if text[i] == '{' then Some(i)
    else FirstOpenBelow(text, i + 1, n)
  }

  /** `re.search` of the raw pattern.  The leftmost start wins; at that start
      the greedy `.*` before `"tool":` takes the last usable `"tool":` and the
      greedy `.*` after it runs to the last `}` of the text, so the match is
      the longest one from its start. */
  function RawSearch(text: string): (r: Option<RawHit>)
    ensures r.Some? ==> RawMatch(text, r.value.start, r.value.tool, r.value.end)
    ensures r.Some? ==> forall p: nat, j: nat :: RawMatch(text, r.value.start, p, j) ==> p <= r.value.tool && j <= r.value.end
    ensures forall i: nat, p: nat, j: nat | r.None? || i < r.value.start :: !RawMatch(text, i, p, j)
  {
    match LastBrace(text, |text|)
    case None => None
    case Some(q) =>
      if q < |ToolKey| then None
      else match LastToolBelow(text, q - |ToolKey| + 1)
        case None => None
        case Some(p) =>
          assert p < |text|;
          assert forall i': nat, p': nat, j: nat | RawMatch(text, i', p', j) :: p' <= p;
          match FirstOpenBelow(text, 0, p)
          case None => None
          case Some(i) => Some(RawHit(i, p, q + 1))
  }

  // ---------------------------------------------------------------------
  // The capture handed to json.loads

  /** The fenced capture if there is one; only otherwise the raw capture. */
  function Extract(text: string): Option<string>
  {
    match FencedSearch(text)
    case Some(m) => Some(text[m.lo..m.hi])
    case None =>
      match RawSearch(text)
      case Some(h) => Some(text[h.start..h.end])
      case None => None
  }

  /** Whenever the fenced pattern matches anywhere, the capture of its leftmost
      match is used, whatever the raw pattern would find. */
  lemma FenceTakesPrecedence(text: string, i: nat, lo: nat, hi: nat, j: nat)
    requires FencedMatch(text, i, lo, hi, j)
    ensures FencedSearch(text).Some? && FencedSearch(text).value.start <= i
    ensures Extract(text) == Some(text[FencedSearch(text).value.lo..FencedSearch(text).value.hi])
  {
  }

  /** The fenced capture runs from the `{` after the leftmost fence to the
      first `}` after which only spaces stand before the closing fence. */
  lemma FencedCaptureShape(text: string)
    requires FencedSearch(text).Some?
    ensures var m := FencedSearch(text).value; var c := Extract(text).value;
      && c == text[m.lo..m.hi] && 2 <= |c| && c[0] == '{' && c[|c| - 1] == '}'
      && AllSpace(text[m.start + |Fence|..m.lo]) && ClosesAt(text, m.hi, m.end)
      && forall hi: nat, j: nat | hi < m.hi :: !BodyCloses(text, m.lo, hi, j)
  {
    var m := FencedSearch(text).value;
    assert Extract(text) == Some(text[m.lo..m.hi]);
    forall hi: nat, j: nat | BodyCloses(text, m.lo, hi, j) ensures m.hi <= hi {
      assert FencedMatch(text, m.start, m.lo, hi, j);
    }
  }

  /** Without a fenced block, the capture starts with `{`, ends with `}` and
      holds `"tool":` strictly between them. */
  lemma RawCaptureShape(text: string)
    requires FencedSearch(text).None? && Extract(text).Some?
    ensures var c := Extract(text).value;
      && 2 <= |c| && c[0] == '{' && c[|c| - 1] == '}'
      && exists k: nat :: 1 <= k && k + |ToolKey| < |c| && OccursAt(c, k, ToolKey)
  {
    var h := RawSearch(text).value;
    var c := text[h.start..h.end];
    var k := h.tool - h.start;
    SliceOfSlice(text, h.start, h.end, k, k + |ToolKey|);
    assert OccursAt(c, k, ToolKey);
  }

  /** Text with no fenced block and no `"tool":` yields no tool call. */
  lemma NoToolKeyNoCall(text: string)
    requires forall i, lo, hi, j :: !FencedMatch(text, i, lo, hi, j)
    requires forall p :: !OccursAt(text, p, ToolKey)
    ensures Extract(text) == None
  {
  }

  /** No capture exactly when neither pattern matches anywhere. */
  lemma NoCaptureIff(text: string)
    ensures Extract(text).None? <==>
      (forall i, lo, hi, j :: !FencedMatch(text, i, lo, hi, j))
      && (forall i, p, j :: !RawMatch(text, i, p, j))
  {
    if FencedSearch(text).Some? {
      var m := FencedSearch(text).value;
      assert FencedMatch(text, m.start, m.lo, m.hi, m.end);
    } else if RawSearch(text).Some? {
      var h := RawSearch(text).value;
      assert RawMatch(text, h.start, h.tool, h.end);
    }
  }

  // ---------------------------------------------------------------------
  // From the decoded capture to a tool request

  /** A value json.loads can produce.  A float carries the text Python's
      str() gives it. */
  datatype Json =
    | JNull
    | JBool(b: bool)
    | JInt(i: int)
    | JFloat(repr: string)
    | JStr(s: string)
    | JList(items: seq<Json>)
    | JObj(fields: map<string, Json>)

  /** The tool name and the arguments handed to `session.call_tool`. */
  datatype Request = Request(name: Json, args: Json)

  /** The Python type name of a decoded value. */
  function TypeName(v: Json): string
  {
    match v
    case JNull => "NoneType"
    case JBool(_) => "bool"
    case JInt(_) => "int"
    case JFloat(_) => "float"
    case JStr(_) => "str"
    case JList(_) => "list"
    case JObj(_) => "dict"
  }

  /** `d.get(key, default)`. */
  function Get(fields: map<string, Json>, key: string, default: Json): Json
  {
    if key in fields then fields[key] else default
  }

  /** Decoding the capture (json.loads is the oracle `decode`) and reading
      `tool` and `arguments` from it.  A decoding error keeps its text; a
      decoded value that is not an object has no `get`, which Python reports
      as an AttributeError. */
  function ParseRequest(capture: string, decode: string -> Result<Json>): (r: Result<Request>)
    ensures r.Ok? <==> decode(capture).Ok? && decode(capture).value.JObj?
    ensures decode(capture).Err? ==> r == Err(decode(capture).msg)
    ensures decode(capture).Ok? && !decode(capture).value.JObj? ==>
      r == Err("'" + TypeName(decode(capture).value) + "' object has no attribute 'get'")
  {
    match decode(capture)
    case Err(e) => Err(e)
    case Ok(JObj(fields)) => Ok(Request(Get(fields, "tool", JNull), Get(fields, "arguments", JObj(map[]))))
    case Ok(v) => Err("'" + TypeName(v) + "' object has no attribute 'get'")
  }

  /** The request carries the object's `tool` (None when absent) and its
      `arguments`, an empty object when absent; present keys are used as
      they are, even when their value is null. */
  lemma RequestFields(capture: string, decode: string -> Result<Json>, fields: map<string, Json>)
    requires decode(capture) == Ok(JObj(fields))
    ensures ParseRequest(capture, decode).Ok?
    ensures "tool" in fields ==> ParseRequest(capture, decode).value.name == fields["tool"]
    ensures "tool" !in fields ==> ParseRequest(capture, decode).value.name == JNull
    ensures "arguments" in fields ==> ParseRequest(capture, decode).value.args == fields["arguments"]
    ensures "arguments" !in fields ==> ParseRequest(capture, decode).value.args == JObj(map[])
  {
  }
}
