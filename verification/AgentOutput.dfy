/** `parse_response` of api/index.py: turns the agent's final text and its
    message history into `{match_score, reason, learning_plan}`.

    - the score is the value of the leftmost match of `(\d+)%`, else 0;
    - the reason is the stripped text;
    - the learning plan comes from the first tool message whose content
      evaluates to a list holding at least one dict with a non-empty `link`;
    - failing that, from the `* title: https://www.youtube.com/watch?v=...`
      lines of the text. */
module AgentOutput {
  import opened Wrappers
  import opened Strings
  import opened Analysis

  // ---------------------------------------------------------------------------
  // match_score: re.search(r'(\d+)%', text)
  // ---------------------------------------------------------------------------

  /** `(\d+)%` matches with the digits at s[i..j] and the `%` at s[j]. */
  predicate PercentMatchAt(s: string, i: nat, j: nat) {
    i < j < |s| && AllDigits(s[i..j]) && s[j] == '%'
  }

  /** The match `re.search` reports: no other match starts further left. */
  ghost predicate LeftmostMatch(s: string, i: nat, j: nat) {
    PercentMatchAt(s, i, j) && forall i': nat, j': nat :: PercentMatchAt(s, i', j') ==> i <= i'
  }

  /** End of the maximal run of digits starting at i (greedy `\d+`). */
  function DigitRunEnd(s: string, i: nat): (j: nat)
    requires i <= |s|
    ensures i <= j <= |s| && AllDigits(s[i..j])
    ensures j == |s| || !IsDigit(s[j])
    decreases |s| - i
  {
    if i < |s| && IsDigit(s[i]) then
      var j := DigitRunEnd(s, i + 1);
      assert s[i..j] == [s[i]] + s[i + 1..j];
      j
    else i
  }

  /** A match starting at i ends where the digit run from i ends, so at most
      one match starts at any position. */
  lemma MatchEndIsRunEnd(s: string, i: nat, j: nat)
    requires PercentMatchAt(s, i, j)
    ensures j == DigitRunEnd(s, i)
  {
    var e := DigitRunEnd(s, i);
    assert forall k :: i <= k < j ==> s[i..j][k - i] == s[k];
    assert forall k :: i <= k < e ==> s[i..e][k - i] == s[k];
  }

  /** A half-open range of positions in a text. */
  datatype Span = Span(start: nat, end: nat)

  /** Tries the pattern at from, from + 1, ... as the regex engine does. */
  function SearchPercent(s: string, from: nat): (m: Option<Span>)
    requires from <= |s|
    ensures m.Some? ==> from <= m.value.start && PercentMatchAt(s, m.value.start, m.value.end)
    ensures m.Some? ==> forall i: nat, j: nat :: from <= i && PercentMatchAt(s, i, j) ==> m.value.start <= i
    ensures m.None? ==> forall i: nat, j: nat :: from <= i ==> !PercentMatchAt(s, i, j)
    decreases |s| - from
  {
    if from == |s| then None
    else
      var j := DigitRunEnd(s, from);
      if from < j < |s| && s[j] == '%' then Some(Span(from, j))
      else
        NoMatchAt(s, from);
        SearchPercent(s, from + 1)
  }

  lemma NoMatchAt(s: string, i: nat)
    requires i < |s|
    requires var j := DigitRunEnd(s, i); !(i < j < |s| && s[j] == '%')
    ensures forall j: nat :: !PercentMatchAt(s, i, j)
  {
    forall j: nat | PercentMatchAt(s, i, j)
      ensures false
    {
      MatchEndIsRunEnd(s, i, j);
    }
  }

  /** `int(m.group(1)) if m else 0` for `m = re.search(r'(\d+)%', text)`. */
  function MatchScore(text: string): (score: nat)
    ensures (forall i: nat, j: nat :: !PercentMatchAt(text, i, j)) ==> score == 0
    ensures forall i: nat, j: nat :: LeftmostMatch(text, i, j) ==> score == DigitsValue(text[i..j])
  {
    match SearchPercent(text, 0)
    case None => 0
    case Some(sp) =>
      LeftmostIsFound(text, sp);
      DigitsValue(text[sp.start..sp.end])
  }

  lemma LeftmostIsFound(text: string, sp: Span)
    requires SearchPercent(text, 0) == Some(sp)
    ensures forall i: nat, j: nat :: LeftmostMatch(text, i, j) ==> i == sp.start && j == sp.end
  {
    forall i: nat, j: nat | LeftmostMatch(text, i, j)
      ensures i == sp.start && j == sp.end
    {
      MatchEndIsRunEnd(text, i, j);
      MatchEndIsRunEnd(text, sp.start, sp.end);
    }
  }

  /** The digits of the reported match form a maximal digit run: the
      character before them, if any, is not a digit. */
  lemma LeftmostMatchIsMaximalRun(s: string, i: nat, j: nat)
    requires LeftmostMatch(s, i, j)
    ensures i == 0 || !IsDigit(s[i - 1])
  {
    if i > 0 && IsDigit(s[i - 1]) {
      assert s[i - 1..j] == [s[i - 1]] + s[i..j];
      assert PercentMatchAt(s, i - 1, j);
    }
  }

  // ---------------------------------------------------------------------------
  // learning_plan from tool messages
  // ---------------------------------------------------------------------------

  /** The kinds of message in the agent's history. */
  datatype Role = Human | Ai | Tool

  datatype Message = Message(role: Role, content: string)

  /** An element of an evaluated list: a dict (its string-valued entries) or
      any other Python value. */
  datatype Element = DictElement(fields: map<string, string>) | OtherElement

  /** A value `ast.literal_eval` produced: a list, or anything else. */
  datatype Literal = ListLiteral(items: seq<Element>) | OtherLiteral

  /** `ast.literal_eval` on a message content: None when it raises
      `ValueError` or `SyntaxError`. */
  type LiteralEval = string -> Option<Literal>

  /** `v.get(key, "")`. */
  function Field(fields: map<string, string>, key: string): (v: string)
    ensures key in fields ==> v == fields[key]
    ensures key !in fields ==> v == ""
  {
    if key in fields then fields[key] else ""
  }

  /** `isinstance(v, dict) and v.get("link")`. */
  predicate HasLink(e: Element) {
    e.DictElement? && Field(e.fields, "link") != ""
  }

  /** The `{title, video, thumbnail}` projection of one dict. */
  function ToVideo(fields: map<string, string>): (v: Video)
    ensures v.title == Field(fields, "title")
    ensures v.video == Field(fields, "link")
    ensures v.thumbnail == Field(fields, "thumbnail")
  {
    Video(Field(fields, "title"), Field(fields, "link"), Field(fields, "thumbnail"))
  }

  /** The list comprehension of lines 54-61: keeps the linked dicts, in order,
      and projects each one. */
  function LinkedVideos(items: seq<Element>): (vs: seq<Video>)
    ensures |vs| <= |items|
    ensures forall v :: v in vs ==> v.video != ""
    ensures forall v :: v in vs ==>
      exists k :: 0 <= k < |items| && HasLink(items[k]) && v == ToVideo(items[k].fields)
  {
    if items == [] then []
    else
      var rest := LinkedVideos(items[1..]);
      assert forall v :: v in rest ==>
        exists k :: 0 <= k < |items| && HasLink(items[k]) && v == ToVideo(items[k].fields) by {
        forall v | v in rest
          ensures exists k :: 0 <= k < |items| && HasLink(items[k]) && v == ToVideo(items[k].fields)
        {
          var k :| 0 <= k < |items[1..]| && HasLink(items[1..][k]) && v == ToVideo(items[1..][k].fields);
          assert items[1..][k] == items[k + 1];
        }
      }
      (if HasLink(items[0]) then [ToVideo(items[0].fields)] else []) + rest
  }

  /** Every linked dict of the list is kept. */
  lemma {:induction false} LinkedVideosKeepsEvery(items: seq<Element>, k: nat)
    requires k < |items| && HasLink(items[k])
    ensures ToVideo(items[k].fields) in LinkedVideos(items)
  {
    if k > 0 {
      assert items[1..][k - 1] == items[k];
      LinkedVideosKeepsEvery(items[1..], k - 1);
    }
  }

  /** Filtering distributes over concatenation, so the kept entries appear in
      the order of the list they come from. */
  lemma {:induction false} LinkedVideosConcat(a: seq<Element>, b: seq<Element>)
    ensures LinkedVideos(a + b) == LinkedVideos(a) + LinkedVideos(b)
  {
    if a != [] {
      assert (a + b)[0] == a[0];
      assert (a + b)[1..] == a[1..] + b;
      LinkedVideosConcat(a[1..], b);
    } else {
      assert a + b == b;
    }
  }

  /** What one message assigns to `videos` (lines 49-61), or None when it
      leaves `videos` alone: not a tool message, content that does not
      evaluate, or a value that is not a list. */
  function ToolVideos(m: Message, eval: LiteralEval): (r: Option<seq<Video>>)
    ensures r.Some? <==> m.role == Tool && eval(m.content).Some? && eval(m.content).value.ListLiteral?
    ensures r.Some? ==> r.value == LinkedVideos(eval(m.content).value.items)
  {
    if m.role != Tool then None
    else
      match eval(m.content)
      case Some(ListLiteral(items)) => Some(LinkedVideos(items))
      case _ => None
  }

  /** The message fills `videos`, so the loop breaks at it. */
  predicate Wins(m: Message, eval: LiteralEval) {
    var r := ToolVideos(m, eval);
    r.Some? && r.value != []
  }

  /** Message i is the first one that wins. */
  predicate IsFirstWinner(msgs: seq<Message>, i: int, eval: LiteralEval) {
    && 0 <= i < |msgs|
    && Wins(msgs[i], eval)
    && forall k :: 0 <= k < i ==> !Wins(msgs[k], eval)
  }

  /** No message of the history wins. */
  predicate NoWinner(msgs: seq<Message>, eval: LiteralEval) {
    forall i :: 0 <= i < |msgs| ==> !Wins(msgs[i], eval)
  }

  /** The videos of the first winning tool message, or [] if none wins. */
  function FirstToolVideos(msgs: seq<Message>, eval: LiteralEval): (vs: seq<Video>)
    ensures vs != [] ==> exists i :: 0 <= i < |msgs| && Wins(msgs[i], eval) && vs == ToolVideos(msgs[i], eval).value
  {
    if msgs == [] then []
    else if Wins(msgs[0], eval) then ToolVideos(msgs[0], eval).value
    else
      var rest := FirstToolVideos(msgs[1..], eval);
      assert rest != [] ==> exists i :: 0 <= i < |msgs| && Wins(msgs[i], eval) && rest == ToolVideos(msgs[i], eval).value by {
        if rest != [] {
          var i :| 0 <= i < |msgs[1..]| && Wins(msgs[1..][i], eval) && rest == ToolVideos(msgs[1..][i], eval).value;
          assert msgs[1..][i] == msgs[i + 1];
        }
      }
      rest
  }

  /** The scan yields the videos of the first winner, and [] exactly when
      there is no winner. */
  lemma {:induction false} FirstToolVideosSpec(msgs: seq<Message>, eval: LiteralEval)
    ensures NoWinner(msgs, eval) <==> FirstToolVideos(msgs, eval) == []
    ensures forall i :: IsFirstWinner(msgs, i, eval) ==> FirstToolVideos(msgs, eval) == ToolVideos(msgs[i], eval).value
  {
    if msgs != [] {
      var tail := msgs[1..];
      FirstToolVideosSpec(tail, eval);
      if !Wins(msgs[0], eval) {
        assert NoWinner(msgs, eval) <==> NoWinner(tail, eval) by {
          if NoWinner(tail, eval) {
            forall i | 0 <= i < |msgs|
              ensures !Wins(msgs[i], eval)
            {
              if i > 0 {
                assert msgs[i] == tail[i - 1];
              }
            }
          }
          if NoWinner(msgs, eval) {
            forall i | 0 <= i < |tail|
              ensures !Wins(tail[i], eval)
            {
              assert tail[i] == msgs[i + 1];
            }
          }
        }
        forall i | IsFirstWinner(msgs, i, eval)
          ensures FirstToolVideos(msgs, eval) == ToolVideos(msgs[i], eval).value
        {
          assert msgs[i] == tail[i - 1];
          assert IsFirstWinner(tail, i - 1, eval) by {
            forall k | 0 <= k < i - 1
              ensures !Wins(tail[k], eval)
            {
              assert tail[k] == msgs[k + 1];
            }
          }
        }
      } else {
        assert !NoWinner(msgs, eval);
      }
    }
  }

  /** The loop of lines 47-66 as written: each tool message whose content is
      a list reassigns `videos`, and the loop stops once `videos` is non-empty. */
  method CollectToolVideos(msgs: seq<Message>, eval: LiteralEval) returns (videos: seq<Video>)
    ensures videos == FirstToolVideos(msgs, eval)
  {
    videos := [];
    var i := 0;
    while i < |msgs|
      invariant 0 <= i <= |msgs|
      invariant videos == []
      invariant FirstToolVideos(msgs[i..], eval) == FirstToolVideos(msgs, eval)
    {
      assert msgs[i..][0] == msgs[i] && msgs[i..][1..] == msgs[i + 1..];
      match ToolVideos(msgs[i], eval) {
        case Some(vs) =>
          videos := vs;
          if videos != [] {
            break;
          }
        case None =>
      }
      i := i + 1;
    }
  }

  /** Once a prefix of the history holds a winner, nothing after it matters. */
  lemma {:induction false} FirstWinnerIgnoresLater(p: seq<Message>, q: seq<Message>, eval: LiteralEval)
    requires FirstToolVideos(p, eval) != []
    ensures FirstToolVideos(p + q, eval) == FirstToolVideos(p, eval)
  {
    assert (p + q)[0] == p[0];
    if !Wins(p[0], eval) {
      assert (p + q)[1..] == p[1..] + q;
      FirstWinnerIgnoresLater(p[1..], q, eval);
    }
  }

  /** A message that does not win (not a tool message, unparsable content, a
      non-list value, or a list without linked dicts) is passed over. */
  lemma PassedOver(m: Message, rest: seq<Message>, eval: LiteralEval)
    requires !Wins(m, eval)
    ensures FirstToolVideos([m] + rest, eval) == FirstToolVideos(rest, eval)
  {
    assert ([m] + rest)[1..] == rest;
  }

  // ---------------------------------------------------------------------------
  // learning_plan from the text:
  //   re.findall(r'\*\s*([^\n]+?):\s*(https://www\.youtube\.com/watch\?v=[^\s]+)', text)
  // ---------------------------------------------------------------------------

  const WatchPrefix: string := "https://www.youtube.com/watch?v="

  predicate NoSpace(s: string) {
    forall k :: 0 <= k < |s| ==> !IsSpace(s[k])
  }

  predicate NoNewline(s: string) {
    forall k :: 0 <= k < |s| ==> s[k] != '\n'
  }

  lemma WatchPrefixNoSpace()
    ensures NoSpace(WatchPrefix)
  {
  }

  /** Two adjacent pieces without whitespace make one. */
  lemma NoSpaceJoin(s: string, u: nat, v: nat, w: nat)
    requires u <= v <= w <= |s| && NoSpace(s[u..v]) && NoSpace(s[v..w])
    ensures NoSpace(s[u..w])
  {
    forall k | 0 <= k < w - u
      ensures !IsSpace(s[u..w][k])
    {
      if k < v - u {
        assert s[u..w][k] == s[u..v][k];
      } else {
        assert s[u..w][k] == s[v..w][k - (v - u)];
      }
    }
  }

  /** End of the maximal whitespace run starting at i (greedy `\s*`). */
  function SpaceRunEnd(s: string, i: nat): (j: nat)
    requires i <= |s|
    ensures i <= j <= |s| && AllSpace(s[i..j])
    ensures j == |s| || !IsSpace(s[j])
    decreases |s| - i
  {
    if i < |s| && IsSpace(s[i]) then
      var j := SpaceRunEnd(s, i + 1);
      assert s[i..j] == [s[i]] + s[i + 1..j];
      j
    else i
  }

  /** End of the maximal non-whitespace run starting at i (greedy `[^\s]+`). */
  function NonSpaceRunEnd(s: string, i: nat): (j: nat)
    requires i <= |s|
    ensures i <= j <= |s| && NoSpace(s[i..j])
    ensures j == |s| || IsSpace(s[j])
    decreases |s| - i
  {
    if i < |s| && !IsSpace(s[i]) then
      var j := NonSpaceRunEnd(s, i + 1);
      assert s[i..j] == [s[i]] + s[i + 1..j];
      j
    else i
  }

  /** The link group: the watch prefix followed by at least one more
      non-whitespace character, running up to the next whitespace. */
  predicate ValidLink(s: string, link: Span) {
    && link.start + |WatchPrefix| < link.end <= |s|
    && s[link.start..link.start + |WatchPrefix|] == WatchPrefix
    && NoSpace(s[link.start..link.end])
    && (link.end == |s| || IsSpace(s[link.end]))
  }

  /** `:\s*(https://www\.youtube\.com/watch\?v=[^\s]+)` tried at e. */
  function LinkAt(s: string, e: nat): (link: Option<Span>)
    requires e <= |s|
    ensures link.Some? ==> e < |s| && s[e] == ':' && e < link.value.start
    ensures link.Some? ==> ValidLink(s, link.value) && AllSpace(s[e + 1..link.value.start])
  {
    if e < |s| && s[e] == ':' then
      var u := SpaceRunEnd(s, e + 1);
      var v := u + |WatchPrefix|;
      if v < |s| && s[u..v] == WatchPrefix && !IsSpace(s[v]) then
        var w := NonSpaceRunEnd(s, v);
        WatchPrefixNoSpace();
        NoSpaceJoin(s, u, v, w);
        Some(Span(u, w))
      else None
    else None
  }

  /** Where the title group ends and the link group that follows it. */
  datatype Tail = Tail(titleEnd: nat, link: Span)

  /** The lazy `([^\n]+?)` with the title starting at t: tries the ends
      e, e + 1, ... and stops at a newline or the end of the text. */
  function LazyTitle(s: string, t: nat, e: nat): (r: Option<Tail>)
    requires t < e <= |s| && NoNewline(s[t..e])
    ensures r.Some? ==> e <= r.value.titleEnd <= |s| && NoNewline(s[t..r.value.titleEnd])
    ensures r.Some? ==> LinkAt(s, r.value.titleEnd) == Some(r.value.link)
    ensures r.Some? ==> forall e': nat :: e <= e' < r.value.titleEnd ==> LinkAt(s, e').None?
    ensures r.None? ==> forall e': nat :: e <= e' <= |s| && NoNewline(s[t..e']) ==> LinkAt(s, e').None?
    decreases |s| - e
  {
    match LinkAt(s, e)
    case Some(link) => Some(Tail(e, link))
    case None =>
      if e < |s| && s[e] != '\n' then
        assert s[t..e + 1] == s[t..e] + [s[e]];
        LazyTitle(s, t, e + 1)
      else
        NewlineEndsTitle(s, t, e);
        None
  }

  /** A title cannot reach past a newline. */
  lemma NewlineEndsTitle(s: string, t: nat, e: nat)
    requires t <= e <= |s| && (e < |s| ==> s[e] == '\n')
    ensures forall e': nat :: e < e' <= |s| ==> !NoNewline(s[t..e'])
  {
    assert forall e': nat :: e < e' <= |s| ==> s[t..e'][e - t] == '\n';
  }

  /** One `findall` hit: the `*` at `star`, the title group
      s[titleStart..titleEnd] and the link group s[link.start..link.end]. */
  datatype Hit = Hit(star: nat, titleStart: nat, titleEnd: nat, link: Span)

  /** Everything the pattern demands of a hit. */
  predicate ValidHit(s: string, h: Hit) {
    && ValidLink(s, h.link)
    && h.star < h.titleStart < h.titleEnd < h.link.start
    && s[h.star] == '*'
    && AllSpace(s[h.star + 1..h.titleStart])
    && NoNewline(s[h.titleStart..h.titleEnd])
    && s[h.titleEnd] == ':'
    && AllSpace(s[h.titleEnd + 1..h.link.start])
  }

  /** A title found by the lazy scan completes a hit. */
  lemma TailMakesHit(s: string, star: nat, t: nat, tail: Tail)
    requires star < t < |s| && s[star] == '*' && AllSpace(s[star + 1..t])
    requires t < tail.titleEnd <= |s| && NoNewline(s[t..tail.titleEnd])
    requires LinkAt(s, tail.titleEnd) == Some(tail.link)
    ensures ValidHit(s, Hit(star, t, tail.titleEnd, tail.link))
  {
  }

  /** A whitespace run that stops at a non-space character (or the end) is
      the one the greedy `\s*` takes. */
  lemma SpaceRunEndIs(s: string, i: nat, j: nat)
    requires i <= j <= |s| && AllSpace(s[i..j]) && (j == |s| || !IsSpace(s[j]))
    ensures SpaceRunEnd(s, i) == j
  {
    var k := SpaceRunEnd(s, i);
    assert forall x :: i <= x < j ==> s[i..j][x - i] == s[x];
    assert forall x :: i <= x < k ==> s[i..k][x - i] == s[x];
  }

  /** A non-space run that stops at whitespace (or the end) is the one the
      greedy `[^\s]+` takes. */
  lemma NonSpaceRunEndIs(s: string, i: nat, j: nat)
    requires i <= j <= |s| && NoSpace(s[i..j]) && (j == |s| || IsSpace(s[j]))
    ensures NonSpaceRunEnd(s, i) == j
  {
    var k := NonSpaceRunEnd(s, i);
    assert forall x :: i <= x < j ==> s[i..j][x - i] == s[x];
    assert forall x :: i <= x < k ==> s[i..k][x - i] == s[x];
  }

  /** The link group of a hit is exactly what the link part of the pattern
      matches after the title. */
  lemma HitLinkIsMatched(s: string, h: Hit)
    requires ValidHit(s, h)
    ensures LinkAt(s, h.titleEnd) == Some(h.link)
  {
    var e, u, w := h.titleEnd, h.link.start, h.link.end;
    LinkEdges(s, h.link);
    SpaceRunEndIs(s, e + 1, u);
    NonSpaceRunEndIs(s, u + |WatchPrefix|, w);
    LinkAtIs(s, e, u, w);
  }

  /** What `LinkAt` returns once the two greedy runs are known. */
  lemma LinkAtIs(s: string, e: nat, u: nat, w: nat)
    requires e < |s| && s[e] == ':' && SpaceRunEnd(s, e + 1) == u
    requires u + |WatchPrefix| < |s| && s[u..u + |WatchPrefix|] == WatchPrefix
    requires !IsSpace(s[u + |WatchPrefix|]) && NonSpaceRunEnd(s, u + |WatchPrefix|) == w
    ensures LinkAt(s, e) == Some(Span(u, w))
  {
  }

  /** A link group starts with a non-space character, and after the prefix
      it goes on with non-space characters up to its end. */
  lemma LinkEdges(s: string, link: Span)
    requires ValidLink(s, link)
    ensures !IsSpace(s[link.start]) && !IsSpace(s[link.start + |WatchPrefix|])
    ensures NoSpace(s[link.start + |WatchPrefix|..link.end])
  {
    var u, v, w := link.start, link.start + |WatchPrefix|, link.end;
    assert s[u..w][0] == s[u];
    assert s[u..w][v - u] == s[v];
    forall k | 0 <= k < w - v
      ensures !IsSpace(s[v..w][k])
    {
      assert s[v..w][k] == s[u..w][k + (v - u)];
    }
  }

  /** The greedy `\s*` after the `*` gives back one character at a time: the
      title is tried from t, then t - 1, ..., down to lo. */
  function TitleFrom(s: string, star: nat, lo: nat, t: nat): (r: Option<Hit>)
    requires star < |s| && s[star] == '*'
    requires lo == star + 1 <= t <= |s| && AllSpace(s[lo..t])
    ensures r.Some? ==> ValidHit(s, r.value) && r.value.star == star
    decreases t
  {
    var here := if t < |s| && s[t] != '\n' then LazyTitle(s, t, t + 1) else None;
    match here
    case Some(tail) =>
      TailMakesHit(s, star, t, tail);
      Some(Hit(star, t, tail.titleEnd, tail.link))
    case None =>
      if lo < t then
        assert s[lo..t - 1] == s[lo..t][..t - 1 - lo];
        TitleFrom(s, star, lo, t - 1)
      else None
  }

  /** The pattern tried at position p. */
  function MatchAt(s: string, p: nat): (r: Option<Hit>)
    requires p < |s|
    ensures r.Some? ==> ValidHit(s, r.value) && r.value.star == p
  {
    if s[p] != '*' then None
    else TitleFrom(s, p, p + 1, SpaceRunEnd(s, p + 1))
  }

  /** `re.findall` from position p: each scan resumes where the last hit ended. */
  function FindAll(s: string, p: nat): (hits: seq<Hit>)
    requires p <= |s|
    ensures forall k :: 0 <= k < |hits| ==> ValidHit(s, hits[k]) && p <= hits[k].star
    ensures forall k :: 0 <= k < |hits| - 1 ==> hits[k].link.end <= hits[k + 1].star
    decreases |s| - p
  {
    if p == |s| then []
    else
      match MatchAt(s, p)
      case Some(h) => [h] + FindAll(s, h.link.end)
      case None => FindAll(s, p + 1)
  }

  /** A slice of a newline-free text is newline-free. */
  lemma NoNewlineSlice(s: string, a: nat, b: nat)
    requires a <= b <= |s| && NoNewline(s)
    ensures NoNewline(s[a..b])
  {
    forall k | 0 <= k < b - a
      ensures s[a..b][k] != '\n'
    {
      assert s[a..b][k] == s[a + k];
    }
  }

  /** Stripping a single-line text leaves it single-line. */
  lemma StripKeepsNoNewline(raw: string)
    requires NoNewline(raw)
    ensures NoNewline(Strip(raw))
  {
    var a := SkipSpace(raw, 0);
    NoNewlineSlice(raw, a, SkipSpaceBack(raw, a, |raw|));
  }

  /** Lines 73-77 for one hit. */
  function HitVideo(s: string, h: Hit): (v: Video)
    requires ValidHit(s, h)
    ensures v.thumbnail == ""
    ensures StartsWith(v.video, WatchPrefix) && |WatchPrefix| < |v.video| && NoSpace(v.video)
    ensures NoEdgeSpace(v.title) && NoNewline(v.title)
    ensures IsStripOf(s[h.titleStart..h.titleEnd], v.title)
    ensures v.video == s[h.link.start..h.link.end]
  {
    var title := Strip(s[h.titleStart..h.titleEnd]);
    StripKeepsNoNewline(s[h.titleStart..h.titleEnd]);
    var link := s[h.link.start..h.link.end];
    assert link[..|WatchPrefix|] == s[h.link.start..h.link.start + |WatchPrefix|];
    Video(title, link, "")
  }

  function HitVideos(s: string, hits: seq<Hit>): (vs: seq<Video>)
    requires forall k :: 0 <= k < |hits| ==> ValidHit(s, hits[k])
    ensures |vs| == |hits|
    ensures forall k :: 0 <= k < |vs| ==> vs[k] == HitVideo(s, hits[k])
  {
    seq(|hits|, k requires 0 <= k < |hits| => HitVideo(s, hits[k]))
  }

  /** Lines 69-77: the entries the fallback scan builds from the text. Each
      has an empty thumbnail, a watch link without whitespace that goes past
      the prefix, and a stripped single-line title. */
  function TextVideos(text: string): (vs: seq<Video>)
    ensures forall v :: v in vs ==> v.thumbnail == ""
    ensures forall v :: v in vs ==>
      StartsWith(v.video, WatchPrefix) && |WatchPrefix| < |v.video| && NoSpace(v.video)
    ensures forall v :: v in vs ==> NoEdgeSpace(v.title) && NoNewline(v.title)
  {
    HitVideos(text, FindAll(text, 0))
  }

  // ---------------------------------------------------------------------------
  // parse_response
  // ---------------------------------------------------------------------------

  /** `parse_response(final_response, messages)`. */
  function ParseResponse(finalResponse: string, messages: seq<Message>, eval: LiteralEval): (r: AnalysisResponse)
    ensures r.matchScore >= 0
    ensures (forall i: nat, j: nat :: !PercentMatchAt(finalResponse, i, j)) ==> r.matchScore == 0
    ensures forall i: nat, j: nat :: LeftmostMatch(finalResponse, i, j) ==>
      r.matchScore == DigitsValue(finalResponse[i..j])
    ensures IsStripOf(finalResponse, r.reason)
    ensures forall i :: IsFirstWinner(messages, i, eval) ==> r.learningPlan == ToolVideos(messages[i], eval).value
    ensures NoWinner(messages, eval) ==> r.learningPlan == TextVideos(finalResponse)
  {
    FirstToolVideosSpec(messages, eval);
    var tools := FirstToolVideos(messages, eval);
    var videos := if tools != [] then tools else TextVideos(finalResponse);
    AnalysisResponse(MatchScore(finalResponse), Strip(finalResponse), videos)
  }

  /** Messages after the first winning tool message never change the result. */
  lemma LaterMessagesIgnored(text: string, p: seq<Message>, q: seq<Message>, eval: LiteralEval)
    requires !NoWinner(p, eval)
    ensures ParseResponse(text, p + q, eval) == ParseResponse(text, p, eval)
  {
    FirstToolVideosSpec(p, eval);
    FirstWinnerIgnoresLater(p, q, eval);
  }
}
