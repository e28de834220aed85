/** `extract_json_from_response`: pulls the JSON document out of an LLM answer. Markdown code
    fences are deleted, the text is trimmed and decoded; if that fails, the first brace- or
    bracket-delimited span is decoded instead. The JSON decoder itself (`json.loads`) is a
    parameter: it either yields a value or fails. */
module JsonParser {
  import opened Wrappers
  import opened JsonValues
  import opened Text

  /** The opening fence of a JSON code block. */
  const JsonFence: string := "```json"

  /** Any code fence. */
  const Fence: string := "```"

  /** `re.sub(marker + r'\s*', '', s)`: scanning left to right, every occurrence of `marker`
      is deleted together with the whitespace run that follows it. */
  function RemoveMarker(s: string, marker: string): (r: string)
    requires |marker| > 0
    ensures |r| <= |s|
    decreases |s|
  {
    if |s| == 0 then []
    else if StartsWith(s, marker) then
      var rest := s[|marker|..];
      RemoveMarker(rest[LeadingSpaces(rest)..], marker)
    else [s[0]] + RemoveMarker(s[1..], marker)
  }

  /** No three consecutive backticks anywhere in `s`. */
  ghost predicate FenceFree(s: string) {
    forall i :: 0 <= i < |s| - 2 ==> !(s[i] == '`' && s[i + 1] == '`' && s[i + 2] == '`')
  }

  /** The cleaned text: both fence removals, then `strip()`. */
  function Clean(text: string): (r: string)
    ensures FenceFree(r)
    ensures |r| == 0 || (!IsSpace(r[0]) && !IsSpace(r[|r| - 1]))
    ensures exists i :: 0 <= i <= |text| - |r| && IsStripOf(RemoveMarker(RemoveMarker(text, JsonFence), Fence), i, r)
  {
    var unfenced := RemoveMarker(RemoveMarker(text, JsonFence), Fence);
    FenceFreeAfterRemoval(RemoveMarker(text, JsonFence));
    StripFenceFree(unfenced);
    Strip(unfenced)
  }

  lemma StripFenceFree(s: string)
    requires FenceFree(s)
    ensures FenceFree(Strip(s))
  {
    var r := Strip(s);
    var i :| 0 <= i <= |s| - |r| && IsStripOf(s, i, r);
    FenceFreeSlice(s, i, r);
  }

  lemma FenceFreeSlice(s: string, i: nat, r: string)
    requires FenceFree(s)
    requires i + |r| <= |s| && s[i..i + |r|] == r
    ensures FenceFree(r)
  {
    forall k | 0 <= k < |r| - 2
      ensures !(r[k] == '`' && r[k + 1] == '`' && r[k + 2] == '`')
    {
      assert r[k] == s[i + k] && r[k + 1] == s[i + k + 1] && r[k + 2] == s[i + k + 2];
    }
  }

  /** `marker` occurs in `s` at index `i`. */
  ghost predicate MarkerAt(s: string, i: nat, marker: string) {
    i + |marker| <= |s| && s[i..i + |marker|] == marker
  }

  /** A fence at the front of `s` is three backticks. */
  lemma FenceAtFront(s: string)
    ensures StartsWith(s, Fence) <==> |s| >= 3 && s[0] == '`' && s[1] == '`' && s[2] == '`'
  {
    if |s| >= 3 && s[0] == '`' && s[1] == '`' && s[2] == '`' {
      assert s[..3] == Fence;
    }
  }

  /** Removing every fence leaves no fence behind, not even one formed where two kept pieces
      meet: a kept backtick is never followed by two more in the output. */
  lemma {:induction false} FenceFreeAfterRemoval(t: string)
    ensures FenceFree(RemoveMarker(t, Fence))
    decreases |t|
  {
    if |t| == 0 {
    } else if StartsWith(t, Fence) {
      var rest := t[|Fence|..];
      FenceFreeAfterRemoval(rest[LeadingSpaces(rest)..]);
    } else {
      var u := t[1..];
      var tail := RemoveMarker(u, Fence);
      var r := [t[0]] + tail;
      assert RemoveMarker(t, Fence) == r;
      FenceFreeAfterRemoval(u);
      FenceAtFront(t);
      if |u| > 0 {
        FenceAtFront(u);
        assert u[0] == t[1];
      }
      if |u| > 1 {
        FenceAtFront(u[1..]);
        assert u[1] == t[2];
      }
      if |u| > 0 && !StartsWith(u, Fence) {
        assert tail == [u[0]] + RemoveMarker(u[1..], Fence);
        if |u| > 1 && !StartsWith(u[1..], Fence) {
          assert RemoveMarker(u[1..], Fence) == [u[1]] + RemoveMarker(u[1..][1..], Fence);
        }
      }
      assert !(t[0] == '`' && |tail| >= 2 && tail[0] == '`' && tail[1] == '`');
      forall i | 0 <= i < |r| - 2
        ensures !(r[i] == '`' && r[i + 1] == '`' && r[i + 2] == '`')
      {
        if i > 0 {
          assert r[i] == tail[i - 1] && r[i + 1] == tail[i] && r[i + 2] == tail[i + 1];
        }
      }
    }
  }

  /** Text in which the marker never occurs comes through the removal unchanged. */
  lemma {:induction false} RemoveMarkerAbsent(s: string, marker: string)
    requires |marker| > 0
    requires forall i: nat :: !MarkerAt(s, i, marker)
    ensures RemoveMarker(s, marker) == s
    decreases |s|
  {
    if |s| > 0 {
      assert !MarkerAt(s, 0, marker);
      if |marker| <= |s| {
        assert s[0..|marker|] == s[..|marker|];
      }
      forall i: nat
        ensures !MarkerAt(s[1..], i, marker)
      {
        assert !MarkerAt(s, i + 1, marker);
        if i + |marker| <= |s[1..]| {
          assert s[1..][i..i + |marker|] == s[i + 1..i + 1 + |marker|];
        }
      }
      RemoveMarkerAbsent(s[1..], marker);
      assert s == [s[0]] + s[1..];
    }
  }

  // ---------------------------------------------------------------------------------------
  // The fallback span: `re.search(r'\{.*\}|\[.*\]', cleaned, re.DOTALL)`
  // ---------------------------------------------------------------------------------------

  predicate Opener(c: char) {
    c == '{' || c == '['
  }

  function CloserOf(c: char): char
    requires Opener(c)
  {
    if c == '{' then '}' else ']'
  }

  /** Index of the last `c` in `s`, or -1. */
  function LastIndex(s: string, c: char): (k: int)
    ensures -1 <= k < |s|
    ensures k >= 0 ==> s[k] == c
    ensures forall j :: k < j < |s| ==> s[j] != c
  {
    if |s| == 0 then -1
    else if s[|s| - 1] == c then |s| - 1
    else LastIndex(s[..|s| - 1], c)
  }

  /** Where a match starting at `p` ends (exclusive): the greedy `.*` runs to the last closer
      of the opener at `p`; with no closer after `p` there is no match at `p`. */
  function MatchAt(s: string, p: nat): (r: Option<nat>)
    requires p < |s|
    ensures r.Some? <==> Opener(s[p]) && exists j :: p < j < |s| && s[j] == CloserOf(s[p])
    ensures r.Some? ==>
      && p < r.value - 1 < |s|
      && s[r.value - 1] == CloserOf(s[p])
      && forall j :: r.value <= j < |s| ==> s[j] != CloserOf(s[p])
  {
    if s[p] == '{' && LastIndex(s, '}') > p then Some(LastIndex(s, '}') + 1)
    else if s[p] == '[' && LastIndex(s, ']') > p then Some(LastIndex(s, ']') + 1)
    else None
  }

  /** The leftmost match at or after `from`, as `(start, end)`. */
  function Search(s: string, from: nat): (r: Option<(nat, nat)>)
    requires from <= |s|
    ensures r.Some? ==> from <= r.value.0 < |s| && MatchAt(s, r.value.0) == Some(r.value.1)
    ensures r.Some? ==> forall q :: from <= q < r.value.0 ==> MatchAt(s, q).None?
    ensures r.None? <==> forall q :: from <= q < |s| ==> MatchAt(s, q).None?
    decreases |s| - from
  {
    if from == |s| then None
    else match MatchAt(s, from)
      case Some(e) => Some((from, e))
      case None => Search(s, from + 1)
  }

  // ---------------------------------------------------------------------------------------
  // extract_json_from_response
  // ---------------------------------------------------------------------------------------

  /** The decoded document, or `None` when the answer is empty or nothing in it decodes. */
  function ExtractJson(text: string, parse: string -> Option<Json>): (r: Option<Json>)
    ensures |text| == 0 ==> r.None?
    ensures |text| > 0 && parse(Clean(text)).Some? ==> r == parse(Clean(text))
    ensures |text| > 0 && parse(Clean(text)).None? && Search(Clean(text), 0).None? ==> r.None?
    ensures |text| > 0 && parse(Clean(text)).None? && Search(Clean(text), 0).Some? ==>
      var span := Search(Clean(text), 0).value;
      r == parse(Clean(text)[span.0..span.1])
    ensures r.Some? ==> exists a, b :: 0 <= a <= b <= |Clean(text)| && r == parse(Clean(text)[a..b])
  {
    if |text| == 0 then None
    else
      var cleaned := Clean(text);
      match parse(cleaned)
      case Some(j) =>
        assert cleaned[0..|cleaned|] == cleaned;
        Some(j)
      case None =>
        match Search(cleaned, 0)
        case None => None
        case Some(span) => parse(cleaned[span.0..span.1])
  }

  /** Text with no character that could begin the marker is copied through. */
  lemma {:induction false} PlainPrefixKept(a: string, b: string, marker: string)
    requires |marker| > 0
    requires forall k :: 0 <= k < |a| ==> a[k] != marker[0]
    ensures RemoveMarker(a + b, marker) == a + RemoveMarker(b, marker)
    decreases |a|
  {
    if |a| > 0 {
      var ab := a + b;
      assert ab[0] == a[0];
      assert !StartsWith(ab, marker) by {
        if |marker| <= |ab| {
          assert ab[..|marker|][0] == a[0];
        }
      }
      assert RemoveMarker(ab, marker) == [a[0]] + RemoveMarker(ab[1..], marker);
      assert ab[1..] == a[1..] + b;
      assert forall k :: 0 <= k < |a[1..]| ==> a[1..][k] == a[k + 1];
      PlainPrefixKept(a[1..], b, marker);
      var rb := RemoveMarker(b, marker);
      assert [a[0]] + (a[1..] + rb) == a + rb;
    } else {
      assert a + b == b;
    }
  }

  /** An occurrence of the marker in plain text is deleted together with the whitespace run
      after it, and the scan goes on with what follows. */
  lemma MarkerDeleted(a: string, w: string, b: string, marker: string)
    requires |marker| > 0
    requires forall k :: 0 <= k < |a| ==> !MarkerAt(a + marker + w + b, k, marker)
    requires AllSpace(w)
    requires |b| == 0 || !IsSpace(b[0])
    ensures RemoveMarker(a + marker + w + b, marker) == a + RemoveMarker(b, marker)
  {
    var t := marker + w + b;
    assert a + marker + w + b == a + t;
    MarkerFreePrefixKept(a, t, marker);
    MarkerAtFront(marker, w, b);
  }

  /** A prefix in which no occurrence of the marker starts is copied through. */
  lemma {:induction false} MarkerFreePrefixKept(a: string, t: string, marker: string)
    requires |marker| > 0
    requires forall k :: 0 <= k < |a| ==> !MarkerAt(a + t, k, marker)
    ensures RemoveMarker(a + t, marker) == a + RemoveMarker(t, marker)
    decreases |a|
  {
    if |a| == 0 {
      assert a + t == t;
    } else {
      var at := a + t;
      assert !MarkerAt(at, 0, marker);
      assert !StartsWith(at, marker) by {
        if |marker| <= |at| {
          assert at[..|marker|] == at[0..0 + |marker|];
        }
      }
      assert at[0] == a[0] && at[1..] == a[1..] + t;
      forall k | 0 <= k < |a[1..]|
        ensures !MarkerAt(a[1..] + t, k, marker)
      {
        assert !MarkerAt(at, k + 1, marker);
        if k + |marker| <= |a[1..] + t| {
          assert (a[1..] + t)[k..k + |marker|] == at[k + 1..k + 1 + |marker|];
        }
      }
      MarkerFreePrefixKept(a[1..], t, marker);
      assert [a[0]] + (a[1..] + RemoveMarker(t, marker)) == a + RemoveMarker(t, marker);
    }
  }

  lemma MarkerAtFront(marker: string, w: string, b: string)
    requires |marker| > 0
    requires AllSpace(w)
    requires |b| == 0 || !IsSpace(b[0])
    ensures RemoveMarker(marker + w + b, marker) == RemoveMarker(b, marker)
  {
    var t := marker + w + b;
    assert t[..|marker|] == marker;
    var rest := t[|marker|..];
    assert rest == w + b;
    LeadingSpacesOf(w, b);
    assert rest[|w|..] == b;
  }

  /** A fenced block comes out as its contents. */
  lemma FencedBlock(parse: string -> Option<Json>)
    ensures Clean("```json\n{}\n```") == "{}"
    ensures ExtractJson("```json\n{}\n```", parse) == parse("{}")
  {
    CleanFencedBlock();
    SearchBraces();
    assert "{}"[0..2] == "{}";
  }

  lemma CleanFencedBlock()
    ensures Clean("```json\n{}\n```") == "{}"
  {
    var text := "```json\n{}\n```";
    calc {
      Clean(text);
      Strip(RemoveMarker(RemoveMarker(text, JsonFence), Fence));
      { OpeningFenceRemoved(); }
      Strip(RemoveMarker("{}\n```", Fence));
      { ClosingFenceRemoved(); }
      Strip("{}\n");
      { StripBraces(); }
      "{}";
    }
  }

  lemma StripBraces()
    ensures Strip("{}\n") == "{}"
  {
    assert LeadingSpaces("{}\n") == 0;
    assert "{}\n"[0..] == "{}\n";
    assert TrailingStart("{}\n") == 2;
    assert "{}\n"[0..0 + 2] == "{}";
  }

  lemma SearchBraces()
    ensures Search("{}", 0) == Some((0, 2))
  {
    assert LastIndex("{}", '}') == 1;
  }

  lemma OpeningFenceRemoved()
    ensures RemoveMarker("```json\n{}\n```", JsonFence) == "{}\n```"
  {
    var text := "```json\n{}\n```";
    assert StartsWith(text, JsonFence);
    var rest := text[|JsonFence|..];
    assert rest == "\n{}\n```";
    assert LeadingSpaces(rest) == 1;
    assert rest[1..] == "{}\n```";
    RemoveMarkerAbsent("{}\n```", JsonFence);
  }

  lemma ClosingFenceRemoved()
    ensures RemoveMarker("{}\n```", Fence) == "{}\n"
  {
    PlainPrefixKept("{}\n", "```", Fence);
    assert "{}\n" + "```" == "{}\n```";
    assert StartsWith("```", Fence);
    assert RemoveMarker("```", Fence) == "";
    assert "{}\n" + "" == "{}\n";
  }
}
