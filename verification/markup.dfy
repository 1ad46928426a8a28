/** `helpers.stripHtml`: `html.replace(/<[^>]*>/g, '')`.

    A match of `<[^>]*>` starts at a `<` and ends at the first `>` after
    it (the class `[^>]` cannot cross a `>`, but may contain further `<`).
    A global replace takes the leftmost match, keeps the text before it,
    and continues after it.  A `<` with no `>` anywhere after it never
    starts a match, and then neither does any later `<`, so the rest of the
    text is kept as is.  This is a tag pattern strip, not a sanitizer: a
    stray `>` survives, and `a < b > c` loses `< b >`. */
module Markup {
  import opened Outcomes

  /** No `<` in `s` is followed, anywhere later, by a `>`: the pattern has
      no match in `s`. */
  predicate TagFree(s: seq<char>) {
    forall i, j | 0 <= i < j < |s| :: s[i] == '<' ==> s[j] != '>'
  }

  /** The position of the first `c` in `s`. */
  function IndexOf(s: seq<char>, c: char): (k: nat)
    requires c in s
    ensures k < |s| && s[k] == c
    ensures c !in s[..k]
  {
    if s[0] == c then 0
    else
      assert c in s[1..] by { assert s == [s[0]] + s[1..]; }
      var k := 1 + IndexOf(s[1..], c);
      assert s[..k] == [s[0]] + s[1..][..k - 1];
      k
  }

  /** The stripped text, one character at a time: a `<` that has a `>`
      later is dropped together with everything through the first such
      `>`; any other character is kept. */
  function StripHtml(s: seq<char>): (r: seq<char>)
    ensures |r| <= |s|
    ensures multiset(r) <= multiset(s)
    ensures TagFree(r)
    ensures '<' !in s ==> r == s
    decreases |s|
  {
    if |s| == 0 then []
    else if s[0] == '<' && '>' in s[1..] then
      var k := IndexOf(s, '>');
      var rest := StripHtml(s[k + 1..]);
      assert s == s[..k + 1] + s[k + 1..];
      rest
    else
      var rest := StripHtml(s[1..]);
      assert s == [s[0]] + s[1..];
      assert TagFree([s[0]] + rest) by {
        if s[0] == '<' {
          forall j | 0 <= j < |rest|
            ensures rest[j] != '>'
          {
            assert rest[j] in multiset(rest);
          }
        }
      }
      [s[0]] + rest
  }

  // ---------------------------------------------------------------------
  // Reference semantics: the global replace, one leftmost match at a time
  // ---------------------------------------------------------------------

  /** The leftmost match of `<[^>]*>` in `s`, as the positions `(i, j)` of
      its `<` and `>`: no `<` occurs before `i`, and no `>` between `i` and
      `j`.  There is none exactly when `s` is tag free. */
  function LeftmostTag(s: seq<char>): (m: Option<(nat, nat)>)
    ensures m.None? <==> TagFree(s)
    ensures m.Some? ==>
      && m.value.0 < m.value.1 < |s|
      && s[m.value.0] == '<' && s[m.value.1] == '>'
      && '<' !in s[..m.value.0]
      && '>' !in s[m.value.0 + 1..m.value.1]
  {
    if '<' !in s then None
    else
      var i := IndexOf(s, '<');
      if '>' in s[i + 1..] then
        var k := IndexOf(s[i + 1..], '>');
        assert s[i + 1..][..k] == s[i + 1..i + 1 + k];
        Some((i, i + 1 + k))
      else
        assert TagFree(s) by {
          forall a, b | 0 <= a < b < |s| && s[a] == '<'
            ensures s[b] != '>'
          {
            assert s[b] == s[i + 1..][b - i - 1];
          }
        }
        None
  }

  /** `s.replace(/<[^>]*>/g, '')` as the replace algorithm runs it: find the
      leftmost match, keep the text before it, continue after it. */
  function ReplaceAll(s: seq<char>): (r: seq<char>)
    ensures |r| <= |s|
    ensures TagFree(r)
    ensures TagFree(s) ==> r == s
    decreases |s|
  {
    match LeftmostTag(s)
    case None => s
    case Some((i, j)) =>
      var rest := ReplaceAll(s[j + 1..]);
      TagFreeAfterAngleFreeText(s[..i], rest);
      s[..i] + rest
  }

  /** Text without `<` followed by tag-free text is tag free. */
  lemma TagFreeAfterAngleFreeText(a: seq<char>, b: seq<char>)
    requires '<' !in a && TagFree(b)
    ensures TagFree(a + b)
  {
    var s := a + b;
    forall i, j | 0 <= i < j < |s| && s[i] == '<'
      ensures s[j] != '>'
    {
      if |a| <= i {
        assert s[i] == b[i - |a|] && s[j] == b[j - |a|];
      }
    }
  }

  // ---------------------------------------------------------------------
  // Properties
  // ---------------------------------------------------------------------

  /** A tag-free text is returned unchanged. */
  lemma {:induction false} TagFreeUnchanged(s: seq<char>)
    requires TagFree(s)
    ensures StripHtml(s) == s
    decreases |s|
  {
    if |s| > 0 {
      if s[0] == '<' {
        assert '>' !in s[1..] by {
          forall j | 0 <= j < |s[1..]|
            ensures s[1..][j] != '>'
          {
            assert s[1..][j] == s[j + 1];
          }
        }
      }
      assert TagFree(s[1..]) by {
        forall a, b | 0 <= a < b < |s[1..]| && s[1..][a] == '<'
          ensures s[1..][b] != '>'
        {
          assert s[1..][a] == s[a + 1] && s[1..][b] == s[b + 1];
        }
      }
      TagFreeUnchanged(s[1..]);
      assert s == [s[0]] + s[1..];
    }
  }

  /** A text without any `>` has no tag and is returned unchanged, however
      many `<` it holds. */
  lemma {:induction false} NoClosingBracketUnchanged(s: seq<char>)
    requires '>' !in s
    ensures StripHtml(s) == s
  {
    TagFreeUnchanged(s);
  }

  /** Stripping twice removes nothing more than stripping once. */
  lemma {:induction false} StripHtmlIdempotent(s: seq<char>)
    ensures StripHtml(StripHtml(s)) == StripHtml(s)
  {
    TagFreeUnchanged(StripHtml(s));
  }

  /** A first character other than `<` is kept. */
  lemma KeepsHead(s: seq<char>)
    requires |s| > 0 && s[0] != '<'
    ensures StripHtml(s) == [s[0]] + StripHtml(s[1..])
  {
  }

  /** A first `<` with a `>` after it goes, together with everything
      through the first `>`. */
  lemma DropsHeadTag(s: seq<char>)
    requires |s| > 0 && s[0] == '<' && '>' in s[1..]
    ensures StripHtml(s) == StripHtml(s[IndexOf(s, '>') + 1..])
  {
  }

  /** Text before the first `<` is kept verbatim. */
  lemma {:induction false} KeepsTextBeforeFirstAngle(a: seq<char>, b: seq<char>)
    requires '<' !in a
    ensures StripHtml(a + b) == a + StripHtml(b)
    decreases |a|
  {
    if |a| > 0 {
      var s := a + b;
      assert s[0] == a[0] && s[1..] == a[1..] + b;
      assert '<' !in a[1..];
      KeepsHead(s);
      KeepsTextBeforeFirstAngle(a[1..], b);
      calc {
        StripHtml(a + b);
        [a[0]] + StripHtml(a[1..] + b);
        [a[0]] + (a[1..] + StripHtml(b));
        { assert a == [a[0]] + a[1..]; }
        a + StripHtml(b);
      }
    } else {
      assert a + b == b;
    }
  }

  /** A tag at the very start is deleted whole. */
  lemma {:induction false} DropsTagAtHead(t: seq<char>, b: seq<char>)
    requires '>' !in t
    ensures StripHtml(['<'] + t + ['>'] + b) == StripHtml(b)
  {
    var s := ['<'] + t + ['>'] + b;
    assert s[1..] == t + ['>'] + b;
    assert s[1..][|t|] == '>';
    var k := IndexOf(s, '>');
    assert s[..|t| + 1] == ['<'] + t;
    assert k == |t| + 1;
    assert s[k + 1..] == b;
    DropsHeadTag(s);
  }

  /** The leftmost tag `<t>` (no `<` before it, no `>` inside it) is
      deleted, the text before it kept, and the text after it stripped in
      turn. */
  lemma {:induction false} DropsLeftmostTag(a: seq<char>, t: seq<char>, b: seq<char>)
    requires '<' !in a && '>' !in t
    ensures StripHtml(a + ['<'] + t + ['>'] + b) == a + StripHtml(b)
  {
    var tail := ['<'] + t + ['>'] + b;
    assert a + ['<'] + t + ['>'] + b == a + tail;
    KeepsTextBeforeFirstAngle(a, tail);
    DropsTagAtHead(t, b);
  }

  /** The character-by-character definition agrees with the leftmost-match
      replace on every text. */
  lemma {:induction false} StripHtmlIsReplaceAll(s: seq<char>)
    ensures StripHtml(s) == ReplaceAll(s)
    decreases |s|
  {
    match LeftmostTag(s)
    case None =>
      TagFreeUnchanged(s);
    case Some((i, j)) =>
      assert s == s[..i] + ['<'] + s[i + 1..j] + ['>'] + s[j + 1..];
      DropsLeftmostTag(s[..i], s[i + 1..j], s[j + 1..]);
      StripHtmlIsReplaceAll(s[j + 1..]);
  }

  // The worked cases below take their text as a parameter pinned by the
  // requires, built by concatenation, rather than as a literal argument of
  // `StripHtml`: the verifier evaluates a call on a literal eagerly, which
  // for these texts costs more than the step-by-step proof.

  /** A well-formed element `<p>Hi</p>` loses both of its tags. */
  lemma ElementExample(html: seq<char>)
    requires html == "<p>" + "Hi" + "</p>"
    ensures StripHtml(html) == "Hi"
  {
    assert html == ['<'] + "p" + ['>'] + ("Hi" + ['<'] + "/p" + ['>'] + []);
    DropsTagAtHead("p", "Hi" + ['<'] + "/p" + ['>'] + []);
    DropsLeftmostTag("Hi", "/p", []);
  }

  /** Not a sanitizer: in the prose `1 < 2 > 0` the two signs are read as
      a tag. */
  lemma ProseExample(prose: seq<char>)
    requires prose == "1 " + "< 2 >" + " 0"
    ensures StripHtml(prose) == "1 " + " 0"
  {
    assert prose == "1 " + ['<'] + " 2 " + ['>'] + " 0";
    DropsLeftmostTag("1 ", " 2 ", " 0");
  }

  /** In `<<b>>` the inner `<` does not start a tag of its own: the first
      `<` runs to the first `>`, and the last `>` survives. */
  lemma NestedAngleExample(nested: seq<char>)
    requires nested == "<<b>" + ">"
    ensures StripHtml(nested) == ">"
  {
    assert nested == ['<'] + "<b" + ['>'] + ">";
    DropsTagAtHead("<b", ">");
  }
}
