/**
 * The three regular expressions the generate route applies to the model's
 * reply, written out as the left-to-right scans a JavaScript regular
 * expression engine performs for these particular patterns:
 * a literal pattern removed globally (`s.replace(/lit/g, "")`, optionally
 * with the `i` flag), and the greedy brace match `s.match(/\{[\s\S]*\}/)`.
 */
module JsRegex {
  import opened Wrappers
  import opened JsText

  /** One pattern character against one text character; `ignoreCase` is the `i` flag of a non-Unicode pattern. */
  predicate CharMatches(c: char, p: char, ignoreCase: bool) {
    if ignoreCase then AsciiUpper(c) == AsciiUpper(p) else c == p
  }

  /** The literal pattern `pat` matches at the very start of `s`. */
  predicate MatchesHere(s: string, pat: string, ignoreCase: bool) {
    |pat| <= |s| && forall i :: 0 <= i < |pat| ==> CharMatches(s[i], pat[i], ignoreCase)
  }

  /**
   * `s.replace(/pat/g, "")` for a literal pattern: the scan tries each
   * position from the left, drops a match and resumes right after it, and
   * keeps every character where no match starts.
   */
  function RemoveAll(s: string, pat: string, ignoreCase: bool): (r: string)
    requires pat != []
    ensures |r| <= |s|
    ensures forall c :: c in r ==> c in s
    decreases |s|
  {
    if s == [] then []
    else if MatchesHere(s, pat, ignoreCase) then RemoveAll(s[|pat|..], pat, ignoreCase)
    else [s[0]] + RemoveAll(s[1..], pat, ignoreCase)
  }

  /** A prefix none of whose characters can start a match is kept as it is. */
  lemma {:induction false} RemoveAllKeepsPrefix(x: string, b: string, pat: string, ignoreCase: bool)
    requires pat != []
    requires forall i :: 0 <= i < |x| ==> !CharMatches(x[i], pat[0], ignoreCase)
    ensures RemoveAll(x + b, pat, ignoreCase) == x + RemoveAll(b, pat, ignoreCase)
    decreases |x|
  {
    if x != [] {
      var s := x + b;
      assert s[0] == x[0];
      assert !MatchesHere(s, pat, ignoreCase);
      assert s[1..] == x[1..] + b;
      RemoveAllKeepsPrefix(x[1..], b, pat, ignoreCase);
      calc {
        RemoveAll(s, pat, ignoreCase);
        [s[0]] + RemoveAll(s[1..], pat, ignoreCase);
        [x[0]] + RemoveAll(x[1..] + b, pat, ignoreCase);
        [x[0]] + (x[1..] + RemoveAll(b, pat, ignoreCase));
        { assert [x[0]] + x[1..] == x; }
        x + RemoveAll(b, pat, ignoreCase);
      }
    } else {
      assert x + b == b;
    }
  }

  /** An occurrence of the pattern itself at the front is dropped. */
  lemma RemoveAllDropsLeadingMatch(pat: string, b: string, ignoreCase: bool)
    requires pat != []
    ensures RemoveAll(pat + b, pat, ignoreCase) == RemoveAll(b, pat, ignoreCase)
  {
    var s := pat + b;
    assert forall i :: 0 <= i < |pat| ==> s[i] == pat[i];
    assert MatchesHere(s, pat, ignoreCase);
    assert s[|pat|..] == b;
  }

  /** The code fence the route strips. */
  const Fence: string := "```"

  /** A backtick never matches a letter, even ignoring case, so backtick-free text never starts a fence match. */
  lemma TickMatchesOnlyTick(c: char, ignoreCase: bool)
    ensures CharMatches(c, '`', ignoreCase) <==> c == '`'
  {
  }

  lemma NoTickKept(x: string, b: string, pat: string, ignoreCase: bool)
    requires pat != [] && pat[0] == '`'
    requires '`' !in x
    ensures RemoveAll(x + b, pat, ignoreCase) == x + RemoveAll(b, pat, ignoreCase)
  {
    forall i | 0 <= i < |x| ensures !CharMatches(x[i], pat[0], ignoreCase) {
      TickMatchesOnlyTick(x[i], ignoreCase);
    }
    RemoveAllKeepsPrefix(x, b, pat, ignoreCase);
  }

  /** `s` begins with two backticks. */
  predicate TwoTicks(s: string) {
    |s| >= 2 && s[0] == '`' && s[1] == '`'
  }

  lemma FenceHere(s: string)
    ensures MatchesHere(s, Fence, false) <==> |s| >= 3 && s[..3] == Fence
  {
    if |s| >= 3 && s[..3] == Fence {
      assert forall i :: 0 <= i < 3 ==> s[i] == s[..3][i];
    }
  }

  /**
   * When a backtick at the front is kept (it does not start a fence), what
   * the scan produces for the rest cannot begin with two more backticks.
   */
  lemma KeptTickNotFollowedByTwo(s: string)
    requires s != [] && s[0] == '`' && !MatchesHere(s, Fence, false)
    ensures !TwoTicks(RemoveAll(s[1..], Fence, false))
  {
    var t := s[1..];
    FenceHere(s);
    if |t| >= 2 {
      assert s[..3] == [s[0], t[0], t[1]];
      assert !(t[0] == '`' && t[1] == '`');
      FenceHere(t);
      if t[0] == '`' {
        assert t[1..] != [] && t[1..][0] != '`';
        FenceHere(t[1..]);
      }
    }
  }

  /** After `s.replace(/```/g, "")` no fence is left, even where removals bring backticks together. */
  lemma {:induction false} NoFenceAfterRemoval(s: string)
    ensures !Includes(RemoveAll(s, Fence, false), Fence)
    decreases |s|
  {
    if s != [] {
      if MatchesHere(s, Fence, false) {
        NoFenceAfterRemoval(s[3..]);
      } else {
        var rest := RemoveAll(s[1..], Fence, false);
        var r := [s[0]] + rest;
        NoFenceAfterRemoval(s[1..]);
        assert r[1..] == rest;
        if |r| >= 3 && r[..3] == Fence {
          assert s[0] == '`' && rest[0] == '`' && rest[1] == '`' by {
            assert r[0] == '`' && r[1] == '`' && r[2] == '`';
          }
          KeptTickNotFollowedByTwo(s);
          assert false;
        }
      }
    }
  }

  /** Every part of a substring is in the whole: a substring of fence-free text is fence-free. */
  lemma IncludesWithin(s: string, a: nat, b: nat, sub: string)
    requires a <= b <= |s|
    ensures Includes(s[a..b], sub) ==> Includes(s, sub)
  {
    if Includes(s[a..b], sub) {
      IncludesIffOccurs(s[a..b], sub);
      var k: nat :| OccursAt(s[a..b], sub, k);
      var w := s[a..b];
      assert forall i :: k <= i < k + |sub| ==> w[i] == s[a + i];
      assert w[k..k + |sub|] == s[a + k..a + k + |sub|];
      assert OccursAt(s, sub, a + k);
      IncludesIffOccurs(s, sub);
    }
  }

  /** What a piece of a text includes, the text includes. */
  lemma IncludesViaPiece(s: string, piece: string, a: nat, sub: string)
    requires OccursAt(s, piece, a)
    ensures Includes(piece, sub) ==> Includes(s, sub)
  {
    IncludesWithin(s, a, a + |piece|, sub);
  }

  /** Trimming cannot create an occurrence. */
  lemma TrimExcludes(s: string, sub: string)
    ensures Includes(Trim(s), sub) ==> Includes(s, sub)
  {
    IncludesWithin(s, TrimOffset(s), TrimOffset(s) + |Trim(s)|, sub);
  }

  // ---------------------------------------------------------------------------
  // s.match(/\{[\s\S]*\}/)
  // ---------------------------------------------------------------------------

  /** The index of the first `c` in `s`, as `indexOf` finds it. */
  function FirstIndex(s: string, c: char): (i: Option<nat>)
    ensures i.Some? ==> i.value < |s| && s[i.value] == c && forall k :: 0 <= k < i.value ==> s[k] != c
    ensures i.None? ==> c !in s
    decreases |s|
  {
    if s == [] then None
    else if s[0] == c then Some(0)
    else match FirstIndex(s[1..], c)
      case Some(k) => Some(k + 1)
      case None => None
  }

  /** The index of the last `c` in `s`, as `lastIndexOf` finds it. */
  function LastIndex(s: string, c: char): (j: Option<nat>)
    ensures j.Some? ==> j.value < |s| && s[j.value] == c && forall k :: j.value < k < |s| ==> s[k] != c
    ensures j.None? ==> c !in s
    decreases |s|
  {
    if s == [] then None
    else if s[|s| - 1] == c then Some(|s| - 1)
    else LastIndex(s[..|s| - 1], c)
  }

  /** Where a match of `/\{[\s\S]*\}/` lies: from `start` through `end`, both inclusive. */
  datatype Span = Span(start: nat, end: nat)

  /**
   * The match of `/\{[\s\S]*\}/`. The engine tries the start positions from
   * the left; a start succeeds iff it holds `{` and a `}` follows somewhere,
   * and `[\s\S]*` is greedy, so the match runs from the first `{` to the
   * last `}`. There is no match iff no `}` follows any `{`.
   */
  function BraceSpan(s: string): (m: Option<Span>)
    ensures m.Some? ==>
      m.value.start < m.value.end < |s| && s[m.value.start] == '{' && s[m.value.end] == '}' &&
      (forall k :: 0 <= k < m.value.start ==> s[k] != '{') &&
      (forall k :: m.value.end < k < |s| ==> s[k] != '}')
    ensures m.None? ==> forall i, j :: 0 <= i < j < |s| && s[i] == '{' ==> s[j] != '}'
  {
    match (FirstIndex(s, '{'), LastIndex(s, '}'))
    case (Some(i), Some(j)) => if i < j then Some(Span(i, j)) else None
    case _ => None
  }

  /** The matched text, `jsonMatch[0]`. */
  function BraceMatch(s: string): (m: Option<string>)
    ensures m.Some? <==> BraceSpan(s).Some?
    ensures m.Some? ==> OccursAt(s, m.value, BraceSpan(s).value.start)
    ensures m.Some? ==> |m.value| >= 2 && m.value[0] == '{' && m.value[|m.value| - 1] == '}'
    ensures m.Some? ==> m.value == s[BraceSpan(s).value.start..BraceSpan(s).value.end + 1]
  {
    match BraceSpan(s)
    case Some(sp) => Some(s[sp.start..sp.end + 1])
    case None => None
  }

  predicate BraceFree(s: string) {
    '{' !in s && '}' !in s
  }

  lemma BraceFreeSlice(s: string, a: nat, b: nat)
    requires a <= b <= |s| && BraceFree(s)
    ensures BraceFree(s[a..b])
  {
    assert forall c :: c in s[a..b] ==> c in s;
  }

  /** Text around one brace-delimited block, with no braces of its own, yields exactly that block. */
  lemma BraceMatchInFrame(x: string, j: string, y: string)
    requires BraceFree(x) && BraceFree(y)
    requires |j| >= 2 && j[0] == '{' && j[|j| - 1] == '}'
    ensures BraceMatch(x + j + y) == Some(j)
  {
    var s := x + j + y;
    assert s[|x|] == '{' && s[|x| + |j| - 1] == '}';
    assert forall k :: 0 <= k < |x| ==> s[k] == x[k];
    assert forall k :: |x| + |j| <= k < |s| ==> s[k] == y[k - |x| - |j|];
    var sp := BraceSpan(s).value;
    assert sp.start == |x|;
    assert sp.end == |x| + |j| - 1;
    assert s[sp.start..sp.end + 1] == j;
  }

  /** Text that already starts with `{` and ends with `}` is its own match. */
  lemma BraceDelimitedMatchesItself(s: string)
    requires |s| >= 2 && s[0] == '{' && s[|s| - 1] == '}'
    ensures BraceMatch(s) == Some(s)
  {
    BraceMatchInFrame([], s, []);
    assert [] + s + [] == s;
  }
}
