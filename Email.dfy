/** The digest e-mail `sendEmail` hands to SES: the subject, the plain-text
    body and the HTML body built from the selected articles, and
    `escapeHtml`. The SES client itself is an oracle of the pipeline. */
module Email {
  import opened Results
  import opened Strings
  import opened Articles

  /** The whole text body when nothing was selected. */
  const NoArticlesMessage: string := "本日のおすすめ記事はありませんでした。"

  const Footer: string := "このメールは summarize-rss により自動送信されました。"

  /** What precedes the article count in the heading. */
  const HeadingPrefix: string := "本日のおすすめ記事 ("

  const SubjectPrefix: string := "[RSS] " + HeadingPrefix

  /** The HTML document up to the heading text. */
  const HtmlHead: string := "<!DOCTYPE html>\n<html>\n<head><meta charset=\"utf-8\"></head>\n<body>\n  <h2>"

  /** `本日のおすすめ記事 (N件)`, with `N` the number of articles. */
  function Heading(count: nat): string {
    HeadingPrefix + DecimalString(count) + "件)"
  }

  // ---------------------------------------------------------------------
  // escapeHtml
  // ---------------------------------------------------------------------

  /** `escapeHtml`: four global replacements, `&` first. */
  function EscapeHtml(text: string): string {
    ReplaceAll(ReplaceAll(ReplaceAll(ReplaceAll(text, '&', "&amp;"), '<', "&lt;"), '>', "&gt;"), '"', "&quot;")
  }

  predicate IsSpecial(c: char) {
    c == '&' || c == '<' || c == '>' || c == '"'
  }

  /** The entity for one character; every other character stands for itself. */
  function EscapeChar(c: char): string {
    if c == '&' then "&amp;"
    else if c == '<' then "&lt;"
    else if c == '>' then "&gt;"
    else if c == '"' then "&quot;"
    else [c]
  }

  /** Character-by-character escaping: the reference `EscapeHtml` is proved
      equal to. */
  function Escaped(s: string): string {
    if s == [] then [] else EscapeChar(s[0]) + Escaped(s[1..])
  }

  predicate StartsWithEntity(s: string) {
    StartsWith(s, "&amp;") || StartsWith(s, "&lt;") || StartsWith(s, "&gt;") || StartsWith(s, "&quot;")
  }

  /** Decoding of the four entities `escapeHtml` writes. */
  function Unescape(s: string): string
    decreases |s|
  {
    if s == [] then []
    else if StartsWith(s, "&amp;") then "&" + Unescape(s[5..])
    else if StartsWith(s, "&lt;") then "<" + Unescape(s[4..])
    else if StartsWith(s, "&gt;") then ">" + Unescape(s[4..])
    else if StartsWith(s, "&quot;") then "\"" + Unescape(s[6..])
    else [s[0]] + Unescape(s[1..])
  }

  lemma EscapeHtmlAppend(a: string, b: string)
    ensures EscapeHtml(a + b) == EscapeHtml(a) + EscapeHtml(b)
  {
    var a1, b1 := ReplaceAll(a, '&', "&amp;"), ReplaceAll(b, '&', "&amp;");
    var a2, b2 := ReplaceAll(a1, '<', "&lt;"), ReplaceAll(b1, '<', "&lt;");
    var a3, b3 := ReplaceAll(a2, '>', "&gt;"), ReplaceAll(b2, '>', "&gt;");
    ReplaceAllAppend(a, b, '&', "&amp;");
    ReplaceAllAppend(a1, b1, '<', "&lt;");
    ReplaceAllAppend(a2, b2, '>', "&gt;");
    ReplaceAllAppend(a3, b3, '"', "&quot;");
  }

  /** No entity, and no plain character, is markup. */
  lemma EscapeCharHasNoMarkup(c: char)
    ensures '<' !in EscapeChar(c) && '>' !in EscapeChar(c) && '"' !in EscapeChar(c)
  {
  }

  /** On one character the chain writes at most one entity: the entities
      written by an earlier replacement contain none of the characters the
      later ones look for, and `&` is replaced before any `&` is written. */
  lemma EscapeHtmlChar(c: char)
    ensures EscapeHtml([c]) == EscapeChar(c)
  {
    var e := EscapeChar(c);
    EscapeCharHasNoMarkup(c);
    ReplaceAllSingle(c, '&', "&amp;");
    if c == '&' {
      ReplaceAllAbsent(e, '<', "&lt;");
      ReplaceAllAbsent(e, '>', "&gt;");
      ReplaceAllAbsent(e, '"', "&quot;");
    } else {
      ReplaceAllSingle(c, '<', "&lt;");
      if c == '<' {
        ReplaceAllAbsent(e, '>', "&gt;");
        ReplaceAllAbsent(e, '"', "&quot;");
      } else {
        ReplaceAllSingle(c, '>', "&gt;");
        if c == '>' {
          ReplaceAllAbsent(e, '"', "&quot;");
        } else {
          ReplaceAllSingle(c, '"', "&quot;");
        }
      }
    }
  }

  /** The chained replacements escape each character on its own: no entity
      is escaped twice and nothing else changes, in order. */
  lemma {:induction false} EscapeHtmlIsPerCharacter(s: string)
    ensures EscapeHtml(s) == Escaped(s)
  {
    if s != [] {
      assert s == [s[0]] + s[1..];
      EscapeHtmlAppend([s[0]], s[1..]);
      EscapeHtmlChar(s[0]);
      EscapeHtmlIsPerCharacter(s[1..]);
    }
  }

  /** Decoding reads an entity or a plain character back as the one
      character it was written for. */
  lemma UnescapeStep(c: char, rest: string)
    ensures Unescape(EscapeChar(c) + rest) == [c] + Unescape(rest)
  {
    var e := EscapeChar(c);
    var s := e + rest;
    assert s[..|e|] == e && s[|e|..] == rest;
    if c == '&' {
      assert StartsWith(s, "&amp;");
    } else if IsSpecial(c) {
      assert s[1] == e[1] && (|s| >= 5 ==> s[..5][1] == s[1]) && s[..4][1] == s[1];
      assert !StartsWith(s, "&amp;");
      if c != '<' {
        assert !StartsWith(s, "&lt;");
        if c != '>' {
          assert !StartsWith(s, "&gt;");
        }
      }
    } else {
      assert s[0] == c && s[1..] == rest;
      assert !StartsWith(s, "&amp;") && !StartsWith(s, "&lt;") && !StartsWith(s, "&gt;") && !StartsWith(s, "&quot;");
    }
  }

  lemma {:induction false} UnescapeEscaped(s: string)
    ensures Unescape(Escaped(s)) == s
  {
    if s != [] {
      UnescapeEscaped(s[1..]);
      UnescapeStep(s[0], Escaped(s[1..]));
      assert [s[0]] + s[1..] == s;
    }
  }

  /** Unescaping recovers the text: escaping loses nothing. */
  lemma EscapeHtmlRoundTrip(s: string)
    ensures Unescape(EscapeHtml(s)) == s
  {
    EscapeHtmlIsPerCharacter(s);
    UnescapeEscaped(s);
  }

  lemma {:induction false} EscapedHasNoMarkup(s: string)
    ensures '<' !in Escaped(s) && '>' !in Escaped(s) && '"' !in Escaped(s)
  {
    if s != [] {
      EscapedHasNoMarkup(s[1..]);
      EscapeCharHasNoMarkup(s[0]);
    }
  }

  /** The escaped text cannot open or close a tag or end an attribute value. */
  lemma EscapeHtmlHasNoMarkup(s: string)
    ensures '<' !in EscapeHtml(s) && '>' !in EscapeHtml(s) && '"' !in EscapeHtml(s)
  {
    EscapeHtmlIsPerCharacter(s);
    EscapedHasNoMarkup(s);
  }

  lemma {:induction false} EscapedAmpersands(s: string, k: nat)
    requires k < |Escaped(s)| && Escaped(s)[k] == '&'
    ensures StartsWithEntity(Escaped(s)[k..])
  {
    var e, rest := EscapeChar(s[0]), Escaped(s[1..]);
    assert Escaped(s) == e + rest;
    if k < |e| {
      assert k == 0 && IsSpecial(s[0]);
      assert (e + rest)[..|e|] == e;
    } else {
      assert (e + rest)[k..] == rest[k - |e|..];
      EscapedAmpersands(s[1..], k - |e|);
    }
  }

  /** Every `&` of the output starts one of the four entities. */
  lemma EscapeHtmlAmpersands(s: string, k: nat)
    requires k < |EscapeHtml(s)| && EscapeHtml(s)[k] == '&'
    ensures StartsWithEntity(EscapeHtml(s)[k..])
  {
    EscapeHtmlIsPerCharacter(s);
    EscapedAmpersands(s, k);
  }

  lemma {:induction false} EscapedPlain(s: string)
    requires forall k :: 0 <= k < |s| ==> !IsSpecial(s[k])
    ensures Escaped(s) == s
  {
    if s != [] {
      EscapedPlain(s[1..]);
      assert [s[0]] + s[1..] == s;
    }
  }

  /** Text without `& < > "` is left as it is. */
  lemma EscapeHtmlFixedPoint(s: string)
    requires forall k :: 0 <= k < |s| ==> !IsSpecial(s[k])
    ensures EscapeHtml(s) == s
  {
    EscapeHtmlIsPerCharacter(s);
    EscapedPlain(s);
  }

  // ---------------------------------------------------------------------
  // The bodies and the subject
  // ---------------------------------------------------------------------

  /** `- [feedTitle] title`, then the url on an indented line. */
  function TextEntry(article: Article): string {
    "- [" + article.feedTitle + "] " + article.title + "\n  " + article.url
  }

  function TextEntries(articles: seq<Article>): seq<string> {
    seq(|articles|, i requires 0 <= i < |articles| => TextEntry(articles[i]))
  }

  /** The text body up to the first entry. */
  function TextHead(count: nat): string {
    Heading(count) + "\n\n"
  }

  /** The text body after the last entry: a rule and the footer. */
  const TextTail: string := "\n\n---\n" + Footer

  /** `buildEmailBody`: entries separated by a blank line. */
  function TextBody(articles: seq<Article>): string {
    if |articles| == 0 then NoArticlesMessage
    else TextHead(|articles|) + Join(TextEntries(articles), "\n\n") + TextTail
  }

  /** One list item; the three fields go through `escapeHtml`. */
  function HtmlEntry(article: Article): string {
    "<li>\n          <strong>[" + EscapeHtml(article.feedTitle) + "]</strong>\n          <a href=\""
      + EscapeHtml(article.url) + "\">" + EscapeHtml(article.title) + "</a>\n        </li>"
  }

  function HtmlEntries(articles: seq<Article>): seq<string> {
    seq(|articles|, i requires 0 <= i < |articles| => HtmlEntry(articles[i]))
  }

  /** The HTML body up to the first list item. */
  function HtmlListHead(count: nat): string {
    HtmlHead + Heading(count) + "</h2>\n  <ul>\n    "
  }

  /** The end of the HTML document: a rule, then the footer in a grey
      paragraph. */
  const HtmlClosing: string :=
    "<hr>\n  <p style=\"color: #666; font-size: 12px;\">\n    " + Footer + "\n  </p>\n</body>\n</html>"

  /** The HTML body after the last list item. */
  const HtmlTail: string := "\n  </ul>\n  " + HtmlClosing

  /** `buildEmailHtml`: list items separated by a newline. */
  function HtmlBody(articles: seq<Article>): string {
    if |articles| == 0 then "<p>" + NoArticlesMessage + "</p>"
    else HtmlListHead(|articles|) + Join(HtmlEntries(articles), "\n") + HtmlTail
  }

  /** `[RSS] 本日のおすすめ記事 (N件)`: the heading behind `[RSS] `. */
  function Subject(count: nat): string {
    SubjectPrefix + DecimalString(count) + "件)"
  }

  /** The `SendEmailCommand` input: sender, the single recipient, the
      subject and both bodies (all UTF-8). */
  datatype EmailMessage = EmailMessage(
    fromAddress: string, toAddresses: seq<string>,
    subject: string, textBody: string, htmlBody: string)

  /** The message `sendEmail(articles)` sends. Nothing but the given list
      is rendered: the bodies and the subject depend on `articles` alone. */
  function ComposeEmail(fromAddress: string, toAddress: string, articles: seq<Article>): (m: EmailMessage)
    ensures m.fromAddress == fromAddress && m.toAddresses == [toAddress]
    ensures articles == [] ==> m.textBody == NoArticlesMessage && m.htmlBody == "<p>" + NoArticlesMessage + "</p>"
  {
    EmailMessage(fromAddress, [toAddress], Subject(|articles|), TextBody(articles), HtmlBody(articles))
  }

  // ---------------------------------------------------------------------
  // Properties of the message
  // ---------------------------------------------------------------------

  /** The subject announces the number of articles sent: `parseInt` reads
      it back after the fixed prefix. */
  lemma SubjectNamesCount(fromAddress: string, toAddress: string, articles: seq<Article>)
    ensures var m := ComposeEmail(fromAddress, toAddress, articles);
      StartsWith(m.subject, SubjectPrefix) && ParseInt(m.subject[|SubjectPrefix|..]) == Some(|articles|)
  {
    DecimalAfter(SubjectPrefix, |articles|, "件)");
  }

  /** Different counts give different subjects. */
  lemma SubjectInjective(m: nat, n: nat)
    requires Subject(m) == Subject(n)
    ensures m == n
  {
    DecimalAfter(SubjectPrefix, m, "件)");
    DecimalAfter(SubjectPrefix, n, "件)");
  }

  /** The heading names the count the same way. */
  lemma HeadingNamesCount(count: nat)
    ensures StartsWith(Heading(count), HeadingPrefix)
    ensures ParseInt(Heading(count)[|HeadingPrefix|..]) == Some(count)
  {
    DecimalAfter(HeadingPrefix, count, "件)");
  }

  /** Both bodies of a non-empty digest open with the heading, whose count
      is the subject's. */
  lemma BodiesOpenWithHeading(articles: seq<Article>)
    requires articles != []
    ensures StartsWith(TextBody(articles), Heading(|articles|))
    ensures StartsWith(HtmlBody(articles), HtmlHead + Heading(|articles|))
  {
    var n := |articles|;
    var h := Heading(n);
    assert StartsWith(h, h);
    StartsWithAppend(h, h, "\n\n");
    StartsWithAppend(TextHead(n), h, Join(TextEntries(articles), "\n\n"));
    StartsWithAppend(TextHead(n) + Join(TextEntries(articles), "\n\n"), h, TextTail);
    var hh := HtmlHead + h;
    assert StartsWith(hh, hh);
    StartsWithAppend(hh, hh, "</h2>\n  <ul>\n    ");
    StartsWithAppend(HtmlListHead(n), hh, Join(HtmlEntries(articles), "\n"));
    StartsWithAppend(HtmlListHead(n) + Join(HtmlEntries(articles), "\n"), hh, HtmlTail);
  }

  /** Both bodies of a non-empty digest close with the footer: in the text
      body after a rule, in the HTML body in a grey paragraph below a rule. */
  lemma BodiesCloseWithFooter(articles: seq<Article>)
    requires articles != []
    ensures EndsWith(TextBody(articles), "\n\n---\n" + Footer)
    ensures EndsWith(HtmlBody(articles), HtmlClosing)
  {
    var text := TextBody(articles);
    var textLead := TextHead(|articles|) + Join(TextEntries(articles), "\n\n");
    assert text == textLead + TextTail;
    assert text[|text| - |TextTail|..] == TextTail;
    var html := HtmlBody(articles);
    var htmlLead := HtmlListHead(|articles|) + Join(HtmlEntries(articles), "\n") + "\n  </ul>\n  ";
    assert html == htmlLead + HtmlClosing;
    assert html[|html| - |HtmlClosing|..] == HtmlClosing;
  }

  /** Where the entry of article `i` starts in the text body. */
  function TextEntryOffset(articles: seq<Article>, i: nat): nat
    requires i < |articles|
  {
    |TextHead(|articles|)| + JoinOffset(TextEntries(articles), "\n\n", i)
  }

  /** The text body lists every article, in input order, entries separated
      by one blank line. */
  lemma TextBodyListsArticles(articles: seq<Article>, i: nat)
    requires i < |articles|
    ensures OccursAt(TextEntry(articles[i]), TextBody(articles), TextEntryOffset(articles, i))
    ensures i + 1 < |articles| ==>
      TextEntryOffset(articles, i + 1) == TextEntryOffset(articles, i) + |TextEntry(articles[i])| + 2
  {
    var entries := TextEntries(articles);
    JoinPartInContext(TextHead(|articles|), entries, "\n\n", TextTail, i);
    if i + 1 < |articles| {
      JoinOffsetNext(entries, "\n\n", i);
    }
  }

  /** Where the list item of article `i` starts in the HTML body. */
  function HtmlEntryOffset(articles: seq<Article>, i: nat): nat
    requires i < |articles|
  {
    |HtmlListHead(|articles|)| + JoinOffset(HtmlEntries(articles), "\n", i)
  }

  /** The HTML body has one list item per article, each carrying the
      escaped feed title, url and title ... */
  lemma HtmlBodyListsArticles(articles: seq<Article>, i: nat)
    requires i < |articles|
    ensures OccursAt(HtmlEntry(articles[i]), HtmlBody(articles), HtmlEntryOffset(articles, i))
  {
    var entries := HtmlEntries(articles);
    assert entries[i] == HtmlEntry(articles[i]);
    assert HtmlBody(articles) == HtmlListHead(|articles|) + Join(entries, "\n") + HtmlTail;
    assert HtmlEntryOffset(articles, i) == |HtmlListHead(|articles|)| + JoinOffset(entries, "\n", i);
    JoinPartInContext(HtmlListHead(|articles|), entries, "\n", HtmlTail, i);
  }

  /** ... in input order, one newline apart. */
  lemma HtmlBodyInOrder(articles: seq<Article>, i: nat)
    requires i + 1 < |articles|
    ensures HtmlEntryOffset(articles, i + 1) == HtmlEntryOffset(articles, i) + |HtmlEntry(articles[i])| + 1
  {
    JoinOffsetNext(HtmlEntries(articles), "\n", i);
  }
}
