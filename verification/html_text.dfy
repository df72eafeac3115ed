/**
 * The crude HTML-to-text conversion shared by the web-search and HTTP
 * tools (`_strip_html` in ezagent/tools/builtins/web_search/main.py and
 * ezagent/tools/builtins/http/main.py, which are the same code): every
 * match of the regular expression `<[^>]+>` becomes a space, every run of
 * whitespace (`\s+`) becomes one space, and the result is stripped; and
 * the truncation of long text with a marker.
 */
module HtmlText {
  import opened Wrappers
  import opened Strings
  import opened Json

  /**
   * `<[^>]+>` matches at the start of `s`: a '<', at least one character
   * other than '>', then a '>'. Since the run may contain anything but '>',
   * this holds exactly when the second character is not '>' and a '>'
   * follows somewhere after it.
   */
  predicate TagStart(s: string) {
    |s| >= 3 && s[0] == '<' && s[1] != '>' && '>' in s[2..]
  }

  /** Index of the first '>' in `s` at or after `from`. */
  function CloseFrom(s: string, from: nat): (r: nat)
    requires from <= |s| && '>' in s[from..]
    ensures from <= r < |s| && s[r] == '>'
    ensures forall k :: from <= k < r ==> s[k] != '>'
    decreases |s| - from
  {
    if s[from] == '>' then from
    else
      assert s[from..] == [s[from]] + s[from + 1..];
      CloseFrom(s, from + 1)
  }

  /** `_TAG_RE.sub(" ", s)`: leftmost matches, each running to the first '>' after its '<'. */
  function StripTags(s: string): string
    decreases |s|
  {
    if |s| == 0 then ""
    else if TagStart(s) then " " + StripTags(s[CloseFrom(s, 2) + 1..])
    else [s[0]] + StripTags(s[1..])
  }

  /** No match of `<[^>]+>` starts anywhere in `s`. */
  predicate NoTag(s: string) {
    forall i :: 0 <= i < |s| ==> !TagStart(s[i..])
  }

  /** `_WS_RE.sub(" ", s)`: every maximal whitespace run becomes a single space. */
  function Collapse(s: string): string
    decreases |s|
  {
    if |s| == 0 then ""
    else if IsSpace(s[0]) then
      var n := LeadingSpaces(s);
      " " + Collapse(s[n..])
    else [s[0]] + Collapse(s[1..])
  }

  /** The only whitespace is ' ', and no two whitespace characters are adjacent. */
  predicate SingleSpaced(s: string) {
    (forall k :: 0 <= k < |s| && IsSpace(s[k]) ==> s[k] == ' ')
    && (forall k :: 0 <= k < |s| - 1 ==> !(IsSpace(s[k]) && IsSpace(s[k + 1])))
  }

  /** `_strip_html`. */
  function StripHtml(html: string): (r: string)
    ensures IsStripped(r) && SingleSpaced(r) && NoTag(r)
  {
    StripHtmlShape(html);
    Strip(Collapse(StripTags(html)))
  }

  lemma StripHtmlShape(html: string)
    ensures var r := Strip(Collapse(StripTags(html)));
      IsStripped(r) && SingleSpaced(r) && NoTag(r)
  {
    var tagless := StripTags(html);
    StripTagsNoTag(html);
    CollapseSingleSpaced(tagless);
    CollapseKeepsNoTag(tagless);
    StripKeeps(Collapse(tagless));
  }

  /** Stripping keeps both properties, since it returns a slice. */
  lemma StripKeeps(s: string)
    requires SingleSpaced(s) && NoTag(s)
    ensures SingleSpaced(Strip(s)) && NoTag(Strip(s))
  {
    var r := Strip(s);
    var a := LeadingSpaces(s);
    assert r == s[a..a + |r|];
    SliceKeeps(s, a, a + |r|);
  }

  // ----- facts about StripTags -----

  /** `StripTags` writes a '>' only where the input had one. */
  lemma {:induction false} StripTagsCloseFrom(s: string)
    ensures '>' in StripTags(s) ==> '>' in s
    decreases |s|
  {
    if |s| > 0 {
      if TagStart(s) {
        StripTagsCloseFrom(s[CloseFrom(s, 2) + 1..]);
        if '>' in StripTags(s[CloseFrom(s, 2) + 1..]) {
          var k :| 0 <= k < |s[CloseFrom(s, 2) + 1..]| && s[CloseFrom(s, 2) + 1..][k] == '>';
          assert s[CloseFrom(s, 2) + 1 + k] == '>';
        }
      } else {
        StripTagsCloseFrom(s[1..]);
        if '>' in StripTags(s[1..]) {
          var k :| 0 <= k < |s[1..]| && s[1..][k] == '>';
          assert s[1 + k] == '>';
        }
      }
    }
  }

  /** A character other than '<' at the front is copied. */
  lemma StripTagsHead(s: string)
    requires |s| > 0 && s[0] != '<'
    ensures |StripTags(s)| > 0 && StripTags(s)[0] == s[0]
  {
  }

  /** The result never holds a tag: each '<' it keeps had no tag after it in the input. */
  lemma {:induction false} StripTagsNoTag(s: string)
    ensures NoTag(StripTags(s))
    decreases |s|
  {
    if |s| > 0 {
      var rest := if TagStart(s) then s[CloseFrom(s, 2) + 1..] else s[1..];
      var head := if TagStart(s) then " " else [s[0]];
      StripTagsNoTag(rest);
      var r := StripTags(s);
      assert r == head + StripTags(rest);
      forall i | 0 <= i < |r| ensures !TagStart(r[i..]) {
        if i > 0 {
          assert r[i..] == StripTags(rest)[i - 1..];
        } else if !TagStart(s) && s[0] == '<' {
          if |s| >= 2 && s[1] == '>' {
            StripTagsHead(s[1..]);
            assert r[1] == '>';
          } else if |s| >= 2 {
            assert '>' !in s[2..];
            assert '>' !in s[1..] by {
              assert s[1..] == [s[1]] + s[2..];
            }
            StripTagsCloseFrom(s[1..]);
            assert r[1..] == StripTags(s[1..]);
            assert r[2..] == StripTags(s[1..])[1..];
          }
        }
      }
    }
  }

  /** A string without tags passes through unchanged. */
  lemma {:induction false} StripTagsOfNoTag(s: string)
    requires NoTag(s)
    ensures StripTags(s) == s
    decreases |s|
  {
    if |s| > 0 {
      assert !TagStart(s[0..]) && s[0..] == s;
      assert NoTag(s[1..]) by {
        forall i | 0 <= i < |s[1..]| ensures !TagStart(s[1..][i..]) {
          assert s[1..][i..] == s[1 + i..];
        }
      }
      StripTagsOfNoTag(s[1..]);
      assert s == [s[0]] + s[1..];
    }
  }

  // ----- facts about Collapse -----

  lemma SpaceIsSpace()
    ensures IsSpace(' ')
  {
  }

  /** The first character of the collapsed text: ' ' for a leading whitespace run, else the input's first character. */
  lemma CollapseHead(s: string)
    requires |s| > 0
    ensures |Collapse(s)| > 0
    ensures Collapse(s)[0] == if IsSpace(s[0]) then ' ' else s[0]
  {
  }

  /** A collapsed text starts with whitespace only where the input did. */
  lemma {:induction false} CollapseSingleSpaced(s: string)
    ensures SingleSpaced(Collapse(s))
    decreases |s|
  {
    SpaceIsSpace();
    if |s| > 0 {
      var r := Collapse(s);
      if IsSpace(s[0]) {
        var t := s[LeadingSpaces(s)..];
        CollapseSingleSpaced(t);
        assert r == " " + Collapse(t);
        if |t| > 0 {
          CollapseHead(t);
          assert !IsSpace(t[0]);
        }
        assert forall k :: 1 <= k < |r| ==> r[k] == Collapse(t)[k - 1];
      } else {
        CollapseSingleSpaced(s[1..]);
        assert r == [s[0]] + Collapse(s[1..]);
        assert forall k :: 1 <= k < |r| ==> r[k] == Collapse(s[1..])[k - 1];
      }
    }
  }

  /** Collapsing copies every non-whitespace character of its output from the input. */
  lemma {:induction false} CollapseSource(s: string, c: char)
    requires !IsSpace(c)
    ensures c in Collapse(s) ==> c in s
    decreases |s|
  {
    if |s| > 0 {
      var n := if IsSpace(s[0]) then LeadingSpaces(s) else 1;
      var t := s[n..];
      CollapseSource(t, c);
      var r := Collapse(s);
      CollapseHead(s);
      assert r == [r[0]] + Collapse(t);
      if c in r {
        if c == r[0] {
          SpaceIsSpace();
          assert s[0] == c;
        } else {
          assert c in Collapse(t);
          var k :| 0 <= k < |t| && t[k] == c;
          assert s[n + k] == c;
        }
      }
    }
  }

  /** ... and what follows the output's first character comes from what follows the input's. */
  lemma CollapseTailSource(s: string, c: char)
    requires !IsSpace(c) && |s| > 0
    ensures c in Collapse(s)[1..] ==> c in s[1..]
  {
    var n := if IsSpace(s[0]) then LeadingSpaces(s) else 1;
    var t := s[n..];
    assert Collapse(s)[1..] == Collapse(t);
    CollapseSource(t, c);
    if c in t {
      var k :| 0 <= k < |t| && t[k] == c;
      assert s[1..][n - 1 + k] == c;
    }
  }

  /** A tag at the front of the collapsed text was a tag at the front of the input. */
  lemma CollapseTagSource(s: string)
    ensures TagStart(Collapse(s)) ==> TagStart(s)
  {
    var r := Collapse(s);
    if TagStart(r) {
      CollapseHead(s);
      var t := s[1..];
      assert r == [s[0]] + Collapse(t);
      CollapseHead(t);
      assert r[2..] == Collapse(t)[1..];
      CollapseTailSource(t, '>');
      assert t[1..] == s[2..];
    }
  }

  /** Collapsing whitespace creates no tag. */
  lemma {:induction false} CollapseKeepsNoTag(s: string)
    requires NoTag(s)
    ensures NoTag(Collapse(s))
    decreases |s|
  {
    if |s| > 0 {
      var n := if IsSpace(s[0]) then LeadingSpaces(s) else 1;
      var t := s[n..];
      assert NoTag(t) by {
        forall i | 0 <= i < |t| ensures !TagStart(t[i..]) {
          assert t[i..] == s[n + i..];
        }
      }
      CollapseKeepsNoTag(t);
      var r := Collapse(s);
      assert r[1..] == Collapse(t);
      forall i | 0 <= i < |r| ensures !TagStart(r[i..]) {
        if i > 0 {
          assert r[i..] == Collapse(t)[i - 1..];
        } else {
          CollapseTagSource(s);
          assert s[0..] == s;
        }
      }
    }
  }

  /** Text that is already single-spaced passes through unchanged. */
  lemma {:induction false} CollapseOfSingleSpaced(s: string)
    requires SingleSpaced(s)
    ensures Collapse(s) == s
    decreases |s|
  {
    if |s| > 0 {
      assert SingleSpaced(s[1..]);
      CollapseOfSingleSpaced(s[1..]);
      if IsSpace(s[0]) {
        assert |s| > 1 ==> !IsSpace(s[1]);
        assert LeadingSpaces(s) == 1;
      }
      assert s == [s[0]] + s[1..];
    }
  }

  /** A tag at the start of a prefix is a tag at the start of the whole. */
  lemma PrefixTag(u: string, v: string)
    requires u <= v
    ensures TagStart(u) ==> TagStart(v)
  {
    if TagStart(u) {
      var k :| 0 <= k < |u[2..]| && u[2..][k] == '>';
      assert v[2..][k] == '>';
    }
  }

  /** Both properties survive taking a slice, which is what `strip` returns. */
  lemma SliceKeeps(s: string, a: nat, b: nat)
    requires a <= b <= |s|
    ensures SingleSpaced(s) ==> SingleSpaced(s[a..b])
    ensures NoTag(s) ==> NoTag(s[a..b])
  {
    forall i | 0 <= i < b - a ensures TagStart(s[a..b][i..]) ==> TagStart(s[a + i..]) {
      PrefixTag(s[a..b][i..], s[a + i..]);
    }
  }

  /** Converting converted text changes nothing. */
  lemma StripHtmlIdempotent(html: string)
    ensures StripHtml(StripHtml(html)) == StripHtml(html)
  {
    var t := StripHtml(html);
    StripTagsOfNoTag(t);
    CollapseOfSingleSpaced(t);
    StripOfStripped(t);
  }

  /** Plain text with single spaces and no tags is kept as it is. */
  lemma StripHtmlOfText(s: string)
    requires IsStripped(s) && SingleSpaced(s) && NoTag(s)
    ensures StripHtml(s) == s
  {
    StripTagsOfNoTag(s);
    CollapseOfSingleSpaced(s);
    StripOfStripped(s);
  }

  // ----- truncation -----

  const TruncatedNote := "\n\n[Content truncated]"

  /** Text longer than `limit` keeps its first `limit` characters and gains the marker; shorter text is unchanged. */
  function Truncate(text: string, limit: nat): (r: string)
    ensures |text| <= limit ==> r == text
    ensures |text| > limit ==> |r| == limit + |TruncatedNote| && r[..limit] == text[..limit] && r[limit..] == TruncatedNote
  {
    if |text| > limit then text[..limit] + TruncatedNote else text
  }

  /** The result never exceeds the limit by more than the marker, and always begins with the text's own opening. */
  lemma TruncateBounds(text: string, limit: nat)
    ensures |Truncate(text, limit)| <= limit + |TruncatedNote|
    ensures var n := if |text| < limit then |text| else limit; Truncate(text, limit)[..n] == text[..n]
  {
  }

  // ----- reading a page -----

  /** The User-Agent both tools send when reading a page without caller headers. */
  const BrowserAgent := "Mozilla/5.0 (compatible; ezagent/1.0)"

  /**
   * The reply of `web_search_read` and `http_read` once the page was
   * fetched (or failed with the exception's text): the page's text,
   * converted and truncated, or the error, both with the url.
   */
  function ReadReply(url: string, page: Result<string, string>, limit: nat): (r: Json)
    ensures page.Failure? ==> r == JObj([Field("error", JStr(page.error)), Field("url", JStr(url))])
    ensures page.Success? ==> (r.JObj? && |r.fields| == 2 && r.fields[0] == Field("url", JStr(url))
      && r.fields[1].key == "content" && r.fields[1].value.JStr?
      && PageText(r.fields[1].value.s, page.value, limit))
  {
    if page.Failure? then JObj([Field("error", JStr(page.error)), Field("url", JStr(url))])
    else
      var text := StripHtml(page.value);
      JObj([Field("url", JStr(url)), Field("content", JStr(Truncate(text, limit)))])
  }

  /**
   * What the content of a read reply is: the converted page when it fits,
   * else its first `limit` characters and the marker; when it fits it is
   * stripped, single-spaced and free of tags.
   */
  ghost predicate PageText(content: string, html: string, limit: nat) {
    var text := StripHtml(html);
    (|text| <= limit ==> content == text && IsStripped(content) && SingleSpaced(content) && NoTag(content))
    && (|text| > limit ==> content == text[..limit] + TruncatedNote)
  }
}
