/** Markdown code-fence extraction as the MCP layer does it, with two of the
    source's regular expressions written out as scans:
    - strict: /```(?:javascript|js)?\n([\s\S]*?)```/ (the MCP server's
      code generator and the agents' direct path), which needs a line feed
      after the opening fence;
    - lenient: /```(?:javascript|js)?\n?([\s\S]*?)```/ (the agents' MCP
      path), where the line feed is optional.
    Both take the leftmost opening fence that starts a match and the
    shortest body up to the next fence. */
module Fences {
  import opened Wrappers
  import opened Text

  const CodeFence := "```"

  predicate NoBacktick(s: string) { forall i :: 0 <= i < |s| ==> s[i] != '`' }

  /** The optional language tag at `i`: the alternation tries `javascript`
      before `js`, and the two cannot both apply. */
  function TagLength(s: string, i: nat): (n: nat)
    ensures n == 0 || n == 2 || n == 10
    ensures n > 0 ==> i + n <= |s|
    ensures n == 10 <==> OccursAt(s, "javascript", i)
  {
    if OccursAt(s, "javascript", i) then 10
    else if OccursAt(s, "js", i) then 2
    else 0
  }

  /** Where the body starts for an opening fence at `i`: after the tag and
      the line feed; without a line feed only the lenient form matches. */
  function BodyStart(s: string, i: nat, newlineOptional: bool): (b: Option<nat>)
    requires OccursAt(s, CodeFence, i)
    ensures b.Some? ==> i + 3 <= b.value <= |s|
  {
    var j := i + 3 + TagLength(s, i + 3);
    if j < |s| && s[j] == '\n' then Some(j + 1)
    else if newlineOptional then Some(j)
    else None
  }

  /** The first fence at or after `from`. */
  function NextFence(s: string, from: nat): (r: Option<nat>)
    ensures r.Some? ==> from <= r.value && OccursAt(s, CodeFence, r.value)
    ensures r.Some? ==> forall k :: from <= k < r.value ==> !OccursAt(s, CodeFence, k)
    ensures r.None? ==> forall k :: from <= k ==> !OccursAt(s, CodeFence, k)
    decreases |s| - from
  {
    if from + 3 > |s| then None
    else if OccursAt(s, CodeFence, from) then Some(from)
    else NextFence(s, from + 1)
  }

  /** A fence-free stretch of text from `b` to `k`. */
  predicate FenceFreeSpan(s: string, b: nat, k: nat) {
    b <= k <= |s| && forall m :: b <= m < k ==> !OccursAt(s, CodeFence, m)
  }

  /** A text whose every fence-free position lies in a fence-free span
      contains no fence. */
  lemma {:induction false} FenceFreeBody(s: string, b: nat, k: nat)
    requires FenceFreeSpan(s, b, k)
    ensures !Contains(s[b..k], CodeFence)
  {
    var t := s[b..k];
    forall m | 0 <= m <= |t| - 3 ensures !OccursAt(t, CodeFence, m) {
      assert t[m..m + 3] == [t[m], t[m + 1], t[m + 2]];
      assert s[b + m..b + m + 3] == [s[b + m], s[b + m + 1], s[b + m + 2]];
      assert !OccursAt(s, CodeFence, b + m);
    }
  }

  /** The body of the match that starts at `i`, when the regex matches there. */
  function MatchAt(s: string, i: nat, newlineOptional: bool): (r: Option<string>)
    ensures r.Some? ==> OccursAt(s, CodeFence, i) && !Contains(r.value, CodeFence)
  {
    if !OccursAt(s, CodeFence, i) then None
    else match BodyStart(s, i, newlineOptional)
      case None => None
      case Some(b) =>
        match NextFence(s, b)
        case None => None
        case Some(k) =>
          FenceFreeBody(s, b, k);
          Some(s[b..k])
  }

  /** The leftmost start at or after `from` where the regex matches. */
  function FirstFenced(s: string, from: nat, newlineOptional: bool): (r: Option<string>)
    ensures r.Some? ==> !Contains(r.value, CodeFence)
    ensures r.Some? ==> exists i :: from <= i && MatchAt(s, i, newlineOptional) == r
    decreases |s| - from
  {
    if from >= |s| then None
    else match MatchAt(s, from, newlineOptional)
      case Some(body) => Some(body)
      case None => FirstFenced(s, from + 1, newlineOptional)
  }

  /** Capture group 1 of the first match, or `None` when nothing matches. */
  function Fenced(s: string, newlineOptional: bool): Option<string> {
    FirstFenced(s, 0, newlineOptional)
  }

  /** The strict form: the fenced body, or the whole text when nothing
      matches. */
  function ExtractCode(response: string): string {
    match Fenced(response, false)
    case Some(body) => body
    case None => response
  }

  /** The lenient form: the fenced body trimmed, or the text unchanged. */
  function ExtractCodeTrimmed(code: string): string {
    match Fenced(code, true)
    case Some(body) => Trim(body)
    case None => code
  }

  // ---------------------------------------------------------------------
  // Properties

  /** The scan is determined by the first start where the regex matches. */
  lemma {:induction false} FirstFencedAt(s: string, from: nat, i: nat, newlineOptional: bool)
    requires from <= i < |s| && MatchAt(s, i, newlineOptional).Some?
    requires forall m :: from <= m < i ==> MatchAt(s, m, newlineOptional).None?
    ensures FirstFenced(s, from, newlineOptional) == MatchAt(s, i, newlineOptional)
    decreases i - from
  {
    if from < i {
      assert MatchAt(s, from, newlineOptional).None?;
      assert FirstFenced(s, from, newlineOptional) == FirstFenced(s, from + 1, newlineOptional);
      FirstFencedAt(s, from + 1, i, newlineOptional);
    } else {
      assert FirstFenced(s, from, newlineOptional) == MatchAt(s, from, newlineOptional);
    }
  }

  /** No start matching means no match. */
  lemma {:induction false} FirstFencedNone(s: string, from: nat, newlineOptional: bool)
    requires forall m :: from <= m < |s| ==> MatchAt(s, m, newlineOptional).None?
    ensures FirstFenced(s, from, newlineOptional).None?
    decreases |s| - from
  {
    if from < |s| {
      FirstFencedNone(s, from + 1, newlineOptional);
    }
  }

  /** A text without any fence is returned whole by both forms. */
  lemma {:induction false} NoFenceUnchanged(s: string)
    requires !Contains(s, CodeFence)
    ensures ExtractCode(s) == s && ExtractCodeTrimmed(s) == s
  {
    forall m, nl: bool | 0 <= m < |s| ensures MatchAt(s, m, nl).None? {
      if m <= |s| - |CodeFence| {
        assert !OccursAt(s, CodeFence, m);
      }
    }
    FirstFencedNone(s, 0, false);
    FirstFencedNone(s, 0, true);
  }

  /** The first fence at or after `from` is the one at `k` when the span
      between is fence-free. */
  lemma {:induction false} NextFenceAt(s: string, from: nat, k: nat)
    requires FenceFreeSpan(s, from, k) && OccursAt(s, CodeFence, k)
    ensures NextFence(s, from) == Some(k)
  {
  }

  /** A fenced block with a `javascript`, `js` or no tag and a line feed
      yields its body under both forms. */
  lemma {:induction false} FencedBlock(tag: string, body: string, rest: string, newlineOptional: bool)
    requires tag == "" || tag == "js" || tag == "javascript"
    requires NoBacktick(body)
    ensures Fenced(CodeFence + tag + "\n" + body + CodeFence + rest, newlineOptional) == Some(body)
  {
    var s := CodeFence + tag + "\n" + body + CodeFence + rest;
    var b := 4 + |tag|;
    var k := b + |body|;
    assert s[3..3 + |tag|] == tag;
    assert s[3 + |tag|] == '\n';
    assert s[b..k] == body;
    assert s[k..k + 3] == CodeFence;
    assert OccursAt(s, CodeFence, 0);
    if tag == "" {
      assert !OccursAt(s, "javascript", 3) && !OccursAt(s, "js", 3);
    } else if tag == "js" {
      assert s[4] == 's';
      assert !OccursAt(s, "javascript", 3);
      assert OccursAt(s, "js", 3);
    } else {
      assert OccursAt(s, "javascript", 3);
    }
    assert TagLength(s, 3) == |tag|;
    assert BodyStart(s, 0, newlineOptional) == Some(b);
    forall m | b <= m < k ensures !OccursAt(s, CodeFence, m) {
      assert s[m] == body[m - b];
    }
    NextFenceAt(s, b, k);
    assert MatchAt(s, 0, newlineOptional) == Some(body);
    FirstFencedAt(s, 0, 0, newlineOptional);
  }

  /** The forms differ on a block without a line feed after the fence:
      the lenient form takes its body, the strict form matches nothing. */
  lemma {:induction false} NewlineDecides(body: string, rest: string)
    requires body != [] && body[0] != '\n' && body[0] != 'j'
    requires NoBacktick(body) && NoBacktick(rest)
    ensures Fenced(CodeFence + body + CodeFence + rest, true) == Some(body)
    ensures Fenced(CodeFence + body + CodeFence + rest, false).None?
  {
    var s := CodeFence + body + CodeFence + rest;
    var k := 3 + |body|;
    assert s[3..k] == body;
    assert s[k..k + 3] == CodeFence;
    assert s[3] == body[0];
    assert !OccursAt(s, "javascript", 3) && !OccursAt(s, "js", 3);
    assert BodyStart(s, 0, true) == Some(3);
    forall m | 3 <= m < k ensures !OccursAt(s, CodeFence, m) {
      assert s[m] == body[m - 3];
    }
    NextFenceAt(s, 3, k);
    FirstFencedAt(s, 0, 0, true);
    StrictNone(s, body, rest);
  }

  /** Only the two fences around the body open a fence, and neither starts
      a strict match. */
  lemma {:induction false} StrictNone(s: string, body: string, rest: string)
    requires s == CodeFence + body + CodeFence + rest
    requires body != [] && body[0] != '\n' && body[0] != 'j' && NoBacktick(body) && NoBacktick(rest)
    ensures Fenced(s, false).None?
  {
    var k := 3 + |body|;
    assert s[k + 3..] == rest;
    assert s[3] == body[0];
    assert !OccursAt(s, "javascript", 3) && !OccursAt(s, "js", 3);
    forall m | 0 <= m < |s| ensures MatchAt(s, m, false).None? {
      if m == 0 {
        assert BodyStart(s, 0, false).None?;
      } else if m == k {
        NoCloseAfter(s, k, rest);
      } else {
        NotAnOpening(s, body, rest, m);
      }
    }
    FirstFencedNone(s, 0, false);
  }

  lemma {:induction false} NotAnOpening(s: string, body: string, rest: string, m: nat)
    requires s == CodeFence + body + CodeFence + rest
    requires body != [] && NoBacktick(body) && NoBacktick(rest)
    requires m != 0 && m != 3 + |body|
    ensures !OccursAt(s, CodeFence, m)
  {
    var k := 3 + |body|;
    if m + 3 <= |s| {
      if m < 3 {
        assert s[3] == body[0];
        assert s[m..m + 3][3 - m] == s[3];
      } else if m < k {
        assert s[m] == body[m - 3];
        assert s[m..m + 3][0] == s[m];
      } else {
        assert s[m + 2] == rest[m + 2 - k - 3];
        assert s[m..m + 3][2] == s[m + 2];
      }
    }
  }

  /** No fence opens in a backtick-free tail. */
  lemma {:induction false} NoCloseAfter(s: string, k: nat, rest: string)
    requires k + 3 <= |s| && s[k + 3..] == rest && NoBacktick(rest) && OccursAt(s, CodeFence, k)
    ensures MatchAt(s, k, false).None?
  {
    match BodyStart(s, k, false)
    case None =>
    case Some(b) =>
      forall m | b <= m ensures !OccursAt(s, CodeFence, m) {
        if m + 3 <= |s| {
          assert s[m] == rest[m - k - 3];
          assert s[m..m + 3][0] == s[m];
        }
      }
  }
}
