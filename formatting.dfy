/**
 * The text-formatting helpers (`src/Helpers/Formatting.php`): mentions and links in the
 * platform's Markdown and HTML. Each is one `sprintf`; nothing is escaped.
 */
module Formatting {
  import opened Wrappers
  import opened PhpStrings

  /** The scheme and host of a user link; the user id follows. */
  const UserLinkPrefix: string := "max://max.ru/"

  /** `markdownMention($userId, $name)`: `[name](max://max.ru/id)`. */
  function MarkdownMention(userId: int, name: string): (r: string)
    ensures var id := IntToDecimal(userId);
      |r| == |name| + |UserLinkPrefix| + |id| + 4 && r[1..1 + |name|] == name &&
      r[3 + |name|..|r| - 1] == UserLinkPrefix + id
    ensures r[..1] == "[" && r[1 + |name|..3 + |name|] == "](" && r[|r| - 1..] == ")"
  {
    var url := UserLinkPrefix + IntToDecimal(userId);
    Concat5("[", name, "](", url, ")");
    "[" + name + "](" + url + ")"
  }

  /** Where each of five concatenated strings lies in the result. */
  lemma Concat5(a: string, b: string, c: string, d: string, e: string)
    ensures var r := a + b + c + d + e;
      |r| == |a| + |b| + |c| + |d| + |e| && r[..|a|] == a && r[|a|..|a| + |b|] == b &&
      r[|a| + |b|..|a| + |b| + |c|] == c && r[|a| + |b| + |c|..|r| - |e|] == d && r[|r| - |e|..] == e
  {
    var r := a + b + c + d + e;
    assert r == (((a + b) + c) + d) + e;
    assert r[..|r| - |e|] == a + b + c + d;
    assert r[..|a| + |b| + |c|] == a + b + c;
    assert r[..|a| + |b|] == a + b;
  }

  /** `htmlMention($userId, $name)`: `<a href="max://max.ru/id">name</a>`. */
  function HtmlMention(userId: int, name: string): (r: string)
    ensures var url := UserLinkPrefix + IntToDecimal(userId);
      |r| == |url| + |name| + 15 && r[9..9 + |url|] == url && r[11 + |url|..|r| - 4] == name
    ensures var url := UserLinkPrefix + IntToDecimal(userId);
      r[..9] == "<a href=\"" && r[9 + |url|..11 + |url|] == "\">" && r[|r| - 4..] == "</a>"
  {
    var url := UserLinkPrefix + IntToDecimal(userId);
    Concat5("<a href=\"", url, "\">", name, "</a>");
    "<a href=\"" + url + "\">" + name + "</a>"
  }

  /** `markdownLink($text, $url)`: `[text](url)`. */
  function MarkdownLink(text: string, url: string): (r: string)
    ensures |r| == |text| + |url| + 4
    ensures r[..1] == "[" && r[1..1 + |text|] == text && r[1 + |text|..3 + |text|] == "]("
    ensures r[3 + |text|..|r| - 1] == url && r[|r| - 1..] == ")"
  {
    "[" + text + "](" + url + ")"
  }

  /** `htmlLink($text, $url)`: `<a href="url">text</a>`. */
  function HtmlLink(text: string, url: string): (r: string)
    ensures |r| == |url| + |text| + 15
    ensures r[..9] == "<a href=\"" && r[9..9 + |url|] == url && r[9 + |url|..11 + |url|] == "\">"
    ensures r[11 + |url|..|r| - 4] == text && r[|r| - 4..] == "</a>"
  {
    "<a href=\"" + url + "\">" + text + "</a>"
  }

  /** The mentions are the links with the user's address as the url. */
  lemma MentionsAreLinks(userId: int, name: string)
    ensures MarkdownMention(userId, name) == MarkdownLink(name, UserLinkPrefix + IntToDecimal(userId))
    ensures HtmlMention(userId, name) == HtmlLink(name, UserLinkPrefix + IntToDecimal(userId))
  {
  }

  /** The position of the first `c` in `s`, if any. */
  function IndexOf(s: string, c: char): (r: Option<nat>)
    ensures r.Some? ==> r.value < |s| && s[r.value] == c && c !in s[..r.value]
    ensures r.None? ==> c !in s
    decreases |s|
  {
    if s == [] then None
    else if s[0] == c then Some(0)
    else
      var rest := IndexOf(s[1..], c);
      if rest.None? then None
      else
        assert s[..rest.value + 1] == [s[0]] + s[1..][..rest.value];
        Some(rest.value + 1)
  }

  /** The first `c` in `a + [c] + b`, when `a` holds none, is right after `a`. */
  lemma {:induction false} IndexOfAfter(a: string, c: char, b: string)
    requires c !in a
    ensures IndexOf(a + [c] + b, c) == Some(|a|)
    decreases |a|
  {
    if a != [] {
      assert (a + [c] + b)[1..] == a[1..] + [c] + b;
      IndexOfAfter(a[1..], c, b);
    }
  }

  /**
   * Reads `[text](url)` back: the text runs to the first `]`, which must be followed by `(`,
   * and the url runs to the final `)`.
   */
  function ParseMarkdownLink(s: string): (r: Option<(string, string)>)
    ensures r.Some? ==> ']' !in r.value.0 && MarkdownLink(r.value.0, r.value.1) == s
  {
    if |s| < 4 || s[0] != '[' || s[|s| - 1] != ')' then None
    else
      var close := IndexOf(s[1..], ']');
      if close.None? || close.value + 3 > |s| - 1 || s[close.value + 2] != '(' then None
      else
        var text := s[1..close.value + 1];
        var url := s[close.value + 3..|s| - 1];
        assert text == s[1..][..close.value];
        assert MarkdownLink(text, url) == s by {
          assert s == [s[0]] + text + [s[close.value + 1], s[close.value + 2]] + url + [s[|s| - 1]];
        }
        Some((text, url))
  }

  /** A Markdown link whose text holds no `]` reads back as its text and url. */
  lemma MarkdownLinkReadsBack(text: string, url: string)
    requires ']' !in text
    ensures ParseMarkdownLink(MarkdownLink(text, url)) == Some((text, url))
  {
    var s := MarkdownLink(text, url);
    assert s[1..] == text + [']'] + ("(" + url + ")");
    IndexOfAfter(text, ']', "(" + url + ")");
    assert s[1..|text| + 1] == text;
    assert s[|text| + 3..|s| - 1] == url;
  }

  /** With no escaping, a `](` in the text is indistinguishable from the end of the text. */
  lemma MarkdownLinkAmbiguous()
    ensures MarkdownLink("a](b", "c") == MarkdownLink("a", "b](c")
    ensures ParseMarkdownLink(MarkdownLink("a](b", "c")) != Some(("a](b", "c"))
  {
    assert ']' in "a](b" by { assert "a](b"[1] == ']'; }
  }

  /** Reads a Markdown mention back: a link whose url is the user address of a decimal id. */
  function ParseMarkdownMention(s: string): (r: Option<(int, string)>)
    ensures r.Some? ==> MarkdownMention(r.value.0, r.value.1) == s
  {
    var link := ParseMarkdownLink(s);
    if link.None? then None
    else
      var (name, url) := link.value;
      var n := |UserLinkPrefix|;
      if |url| < n || url[..n] != UserLinkPrefix || !IsDecimal(url[n..]) then None
      else if IntToDecimal(ParseInt(url[n..])) != url[n..] then None
      else
        assert url == UserLinkPrefix + url[n..];
        MentionsAreLinks(ParseInt(url[n..]), name);
        Some((ParseInt(url[n..]), name))
  }

  /** A Markdown mention whose name holds no `]` reads back as the same user and name. */
  lemma MarkdownMentionReadsBack(userId: int, name: string)
    requires ']' !in name
    ensures ParseMarkdownMention(MarkdownMention(userId, name)) == Some((userId, name))
  {
    var url := UserLinkPrefix + IntToDecimal(userId);
    MentionsAreLinks(userId, name);
    MarkdownLinkReadsBack(name, url);
    assert url[..|UserLinkPrefix|] == UserLinkPrefix;
    assert url[|UserLinkPrefix|..] == IntToDecimal(userId);
    ParseIntToDecimal(userId);
  }

  /** The opening of an HTML link, up to the url. */
  const HrefOpen: string := "<a href=\""

  /**
   * Reads `<a href="url">text</a>` back: the url runs to the first `"`, which must be followed
   * by `>`, and the text runs to the closing `</a>`.
   */
  function ParseHtmlLink(s: string): (r: Option<(string, string)>)
    ensures r.Some? ==> '"' !in r.value.1 && HtmlLink(r.value.0, r.value.1) == s
  {
    var n := |HrefOpen|;
    if |s| < n + 6 || s[..n] != HrefOpen || s[|s| - 4..] != "</a>" then None
    else
      var quote := IndexOf(s[n..], '"');
      if quote.None? || n + quote.value + 2 > |s| - 4 || s[n + quote.value + 1] != '>' then None
      else
        var url := s[n..n + quote.value];
        var text := s[n + quote.value + 2..|s| - 4];
        assert url == s[n..][..quote.value];
        assert HtmlLink(text, url) == s by {
          assert s == s[..n] + url + [s[n + quote.value], s[n + quote.value + 1]] + text + s[|s| - 4..];
        }
        Some((text, url))
  }

  /** An HTML link whose url holds no `"` reads back as its text and url. */
  lemma HtmlLinkReadsBack(text: string, url: string)
    requires '"' !in url
    ensures ParseHtmlLink(HtmlLink(text, url)) == Some((text, url))
  {
    var s := HtmlLink(text, url);
    var n := |HrefOpen|;
    assert s[..n] == HrefOpen;
    assert s[n..] == url + ['"'] + (">" + text + "</a>");
    IndexOfAfter(url, '"', ">" + text + "</a>");
    assert s[|s| - 4..] == "</a>";
    assert s[n..n + |url|] == url;
    assert s[n + |url| + 2..|s| - 4] == text;
  }

  /** Reads an HTML mention back: a link whose url is the user address of a decimal id. */
  function ParseHtmlMention(s: string): (r: Option<(int, string)>)
    ensures r.Some? ==> HtmlMention(r.value.0, r.value.1) == s
  {
    var link := ParseHtmlLink(s);
    if link.None? then None
    else
      var (name, url) := link.value;
      var n := |UserLinkPrefix|;
      if |url| < n || url[..n] != UserLinkPrefix || !IsDecimal(url[n..]) then None
      else if IntToDecimal(ParseInt(url[n..])) != url[n..] then None
      else
        assert url == UserLinkPrefix + url[n..];
        MentionsAreLinks(ParseInt(url[n..]), name);
        Some((ParseInt(url[n..]), name))
  }

  /** Every HTML mention reads back as the same user and name: the url, being a decimal address, never holds a `"`. */
  lemma HtmlMentionReadsBack(userId: int, name: string)
    ensures ParseHtmlMention(HtmlMention(userId, name)) == Some((userId, name))
  {
    var url := UserLinkPrefix + IntToDecimal(userId);
    MentionsAreLinks(userId, name);
    assert '"' !in url by {
      var d := IntToDecimal(userId);
      assert forall i | 0 <= i < |d| :: d[i] == '-' || IsDigit(d[i]);
    }
    HtmlLinkReadsBack(name, url);
    assert url[..|UserLinkPrefix|] == UserLinkPrefix;
    assert url[|UserLinkPrefix|..] == IntToDecimal(userId);
    ParseIntToDecimal(userId);
  }

  /** The url is not escaped either: a `">` in it is indistinguishable from the end of the url. */
  lemma HtmlLinkAmbiguous()
    ensures HtmlLink("x", "a\">b") == HtmlLink("b\">x", "a")
  {
  }
}
