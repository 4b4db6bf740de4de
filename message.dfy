/**
 * `parseMessageToHTML` of auth.js: plain announcement text, one line at a
 * time, becomes HTML. Blank lines give `<br>`, runs of numbered lines give
 * one ordered list, and every other line gives a paragraph. A trailing
 * `*bold/red`-style tag on a line sets its style.
 *
 * The two regular-expression rewrites of paragraph text are parameters:
 * the one that wraps URLs in links and the one that turns `**x**` into bold.
 */
module MessageFormat {
  import opened Basics
  import opened Strings

  // ---------------------------------------------------------------------
  // parseLineFormatting

  /** A character of `[a-z/]` under the `i` flag. */
  predicate IsFormatChar(c: char) { ('a' <= c <= 'z') || ('A' <= c <= 'Z') || c == '/' }

  predicate AllFormatChars(s: string) { forall k :: 0 <= k < |s| ==> IsFormatChar(s[k]) }

  /**
   * The groups of `/^(.+?)\s*\*([a-z/]+)$/i`. The tag is what follows the
   * last `*`; the lazy first group ends where the whitespace before the `*`
   * begins, but holds at least one character, and `.` refuses line terminators.
   */
  function FormatMatch(line: string): (m: Option<(string, string)>)
    ensures m.Some? ==> m.value.0 != "" && m.value.1 != "" && AllFormatChars(m.value.1)
    ensures m.Some? ==> exists p :: 0 < p < |line| && line[p] == '*' && line[p + 1..] == m.value.1
  {
    match LastIndexOf(line, '*')
    case None => None
    case Some(p) =>
      var tag := line[p + 1..];
      if p == 0 || tag == "" || !AllFormatChars(tag) then None
      else
        var back := SkipSpaceBack(line, JavaScript, p);
        var end := if back == 0 then 1 else back;
        if NoLineTerminator(line[..end]) then Some((line[..end], tag)) else None
  }

  /** The look a format tag builds up, starting from normal weight, style, decoration and `#e5e7eb`. */
  datatype Look = Look(bold: bool, italic: bool, underline: bool, color: string)

  const DefaultColor := "#e5e7eb"
  const Plain := Look(false, false, false, DefaultColor)

  /** What one word of a tag asks for. */
  datatype Format = Bold | Italic | Underline | Paint(color: string) | Ignored

  /** The cases of the `switch` over a lower-cased tag word. */
  const Formats: map<string, Format> := map[
    "bold" := Bold, "b" := Bold, "italic" := Italic, "i" := Italic,
    "underline" := Underline, "u" := Underline,
    "yellow" := Paint("#fbbf24"), "gold" := Paint("#ffd700"), "orange" := Paint("#f97316"),
    "amber" := Paint("#f59e0b"), "red" := Paint("#ef4444"), "pink" := Paint("#ec4899"),
    "rose" := Paint("#f43f5e"), "green" := Paint("#10b981"), "lime" := Paint("#84cc16"),
    "emerald" := Paint("#10b981"), "teal" := Paint("#14b8a6"), "blue" := Paint("#60a5fa"),
    "cyan" := Paint("#06b6d4"), "sky" := Paint("#0ea5e9"), "indigo" := Paint("#6366f1"),
    "purple" := Paint("#a855f7"), "violet" := Paint("#8b5cf6"), "fuchsia" := Paint("#d946ef"),
    "magenta" := Paint("#db2777"), "white" := Paint("#ffffff"), "gray" := Paint("#9ca3af"),
    "grey" := Paint("#9ca3af"), "slate" := Paint("#94a3b8"), "zinc" := Paint("#a1a1aa"),
    "stone" := Paint("#a8a29e")]

  /** The `switch`: a word outside it changes nothing. */
  function FormatOf(word: string): Format
  {
    if word in Formats then Formats[word] else Ignored
  }

  /** One case of the `switch` applied to the look built so far. */
  function ApplyFormat(look: Look, f: Format): Look
  {
    match f
    case Bold => look.(bold := true)
    case Italic => look.(italic := true)
    case Underline => look.(underline := true)
    case Paint(c) => look.(color := c)
    case Ignored => look
  }

  /** `formats.forEach(...)`: every word applied, left to right, the last one last. */
  function ApplyAll(look: Look, words: seq<string>): Look
    decreases |words|
  {
    if |words| == 0 then look
    else ApplyFormat(ApplyAll(look, words[..|words| - 1]), FormatOf(words[|words| - 1]))
  }

  /** The colour named by the last colour word, if any: an independent reading of the tag. */
  function LastPaint(words: seq<string>): (c: Option<string>)
    ensures c.Some? <==> exists k :: 0 <= k < |words| && FormatOf(words[k]).Paint?
    decreases |words|
  {
    if |words| == 0 then None
    else
      var init := words[..|words| - 1];
      match FormatOf(words[|words| - 1])
      case Paint(c) => Some(c)
      case _ =>
        var r := LastPaint(init);
        assert (exists k :: 0 <= k < |words| && FormatOf(words[k]).Paint?)
          <==> (exists k :: 0 <= k < |init| && FormatOf(init[k]).Paint?) by {
          if exists k :: 0 <= k < |words| && FormatOf(words[k]).Paint? {
            var k :| 0 <= k < |words| && FormatOf(words[k]).Paint?;
            assert k < |init| && init[k] == words[k];
          }
          if exists k :: 0 <= k < |init| && FormatOf(init[k]).Paint? {
            var k :| 0 <= k < |init| && FormatOf(init[k]).Paint?;
            assert words[k] == init[k];
          }
        }
        r
  }

  /** The last colour word wins; with none, the colour is the starting one. */
  lemma {:induction false} LastColorWins(look: Look, words: seq<string>)
    ensures ApplyAll(look, words).color == (match LastPaint(words) case Some(c) => c case None => look.color)
    decreases |words|
  {
    if |words| > 0 {
      LastColorWins(look, words[..|words| - 1]);
    }
  }

  /** `s` ends with `t`. */
  predicate EndsWith(s: string, t: string) { |t| <= |s| && s[|s| - |t|..] == t }

  /** The `style` text of a look: the non-default parts in a fixed order, the colour always last. */
  function StyleText(look: Look): (s: string)
    ensures EndsWith(s, "color: " + look.color)
  {
    var parts := (if look.bold then ["font-weight: 600"] else [])
      + (if look.italic then ["font-style: italic"] else [])
      + (if look.underline then ["text-decoration: underline"] else [])
      + ["color: " + look.color];
    JoinLast(parts, "; ");
    JoinStr(parts, "; ")
  }

  /** `parts.join(sep)` for a separator of several characters. */
  function JoinStr(parts: seq<string>, sep: string): string
  {
    if |parts| == 0 then "" else if |parts| == 1 then parts[0] else parts[0] + sep + JoinStr(parts[1..], sep)
  }

  lemma EndsWithAppend(a: string, b: string, t: string)
    requires EndsWith(b, t)
    ensures EndsWith(a + b, t)
  {
    assert (a + b)[|a + b| - |t|..] == b[|b| - |t|..];
  }

  lemma {:induction false} JoinLast(parts: seq<string>, sep: string)
    requires |parts| >= 1
    ensures EndsWith(JoinStr(parts, sep), parts[|parts| - 1])
    decreases |parts|
  {
    if |parts| > 1 {
      JoinLast(parts[1..], sep);
      EndsWithAppend(parts[0] + sep, JoinStr(parts[1..], sep), parts[|parts| - 1]);
    } else {
      assert JoinStr(parts, sep)[0..] == parts[0];
    }
  }

  /** `bold/red` asks for bold red text. */
  lemma BoldRedLook(words: seq<string>)
    requires words == ["bold", "red"]
    ensures ApplyAll(Plain, words) == Look(true, false, false, "#ef4444")
  {
    assert FormatOf("bold") == Bold && FormatOf("red") == Paint("#ef4444");
    var first := words[..1];
    assert first == ["bold"] && first[..0] == [];
    assert ApplyAll(Plain, first) == Look(true, false, false, DefaultColor);
  }

  /** A bold look's style is the weight, then its colour. */
  lemma BoldStyle(color: string)
    ensures StyleText(Look(true, false, false, color)) == "font-weight: 600" + "; " + ("color: " + color)
  {
    var parts := ["font-weight: 600", "color: " + color];
    assert ["font-weight: 600"] + [] + [] + ["color: " + color] == parts;
    assert parts[1..] == ["color: " + color];
    assert JoinStr(parts[1..], "; ") == "color: " + color;
    assert JoinStr(parts, "; ") == "font-weight: 600" + "; " + ("color: " + color);
  }

  /** `toLowerCase` on text made of ASCII letters and `/`. */
  function LowerAscii(s: string): (r: string)
    ensures |r| == |s|
  {
    if |s| == 0 then ""
    else [if 'A' <= s[0] <= 'Z' then (s[0] as int + 32) as char else s[0]] + LowerAscii(s[1..])
  }

  /** What `parseLineFormatting` returns. */
  datatype Formatted = Formatted(content: string, styles: string)

  /** `parseLineFormatting`: a tagged line gives its trimmed text and a style; any other line is kept with no style. */
  function ParseLineFormatting(line: string): Formatted
  {
    match FormatMatch(line)
    case None => Formatted(line, "")
    case Some((text, tag)) =>
      Formatted(Trim(text, JavaScript), StyleText(ApplyAll(Plain, Split(LowerAscii(tag), '/'))))
  }

  /** A line is styled exactly when its tag matched; an untagged line comes back untouched. */
  lemma StyledIffTagged(line: string)
    ensures ParseLineFormatting(line).styles != "" <==> FormatMatch(line).Some?
    ensures FormatMatch(line).None? ==> ParseLineFormatting(line).content == line
  {
  }

  /**
   * A line made of text, optional whitespace, `*` and a tag reads back as
   * that text and that tag, whatever `*` the text itself holds.
   */
  lemma TaggedLine(text: string, gap: string, tag: string)
    requires text != "" && !IsJsSpace(text[|text| - 1]) && NoLineTerminator(text)
    requires AllSpace(JavaScript, gap)
    requires tag != "" && AllFormatChars(tag)
    ensures FormatMatch(text + gap + "*" + tag) == Some((text, tag))
    ensures ParseLineFormatting(text + gap + "*" + tag)
      == Formatted(Trim(text, JavaScript), StyleText(ApplyAll(Plain, Split(LowerAscii(tag), '/'))))
  {
    TaggedMatch(text, gap, tag);
  }

  lemma TaggedMatch(text: string, gap: string, tag: string)
    requires text != "" && !IsJsSpace(text[|text| - 1]) && NoLineTerminator(text)
    requires AllSpace(JavaScript, gap)
    requires tag != "" && AllFormatChars(tag)
    ensures FormatMatch(text + gap + "*" + tag) == Some((text, tag))
  {
    var line := text + gap + "*" + tag;
    var p := |text| + |gap|;
    assert line[p] == '*' && line[p + 1..] == tag;
    forall k | 0 <= k < |tag| ensures tag[k] != '*' { assert IsFormatChar(tag[k]); }
    LastAt(line, p, '*');
    forall k | |text| <= k < p ensures IsSpace(JavaScript, line[k]) { assert line[k] == gap[k - |text|]; }
    assert line[|text| - 1] == text[|text| - 1];
    SpaceBackTo(line, |text|, p);
    assert line[..|text|] == text;
  }

  /** The last occurrence of `c` is the one with none after it. */
  lemma LastAt(s: string, p: nat, c: char)
    requires p < |s| && s[p] == c && c !in s[p + 1..]
    ensures LastIndexOf(s, c) == Some(p)
  {
    var r := LastIndexOf(s, c);
    assert r.Some? by { assert s[p] == c; }
    forall j | p < j < |s| ensures s[j] != c { assert s[j] == s[p + 1..][j - p - 1]; }
    forall j | r.value < j < |s| ensures s[j] != c { assert s[j] == s[r.value + 1..][j - r.value - 1]; }
  }

  /** Skipping back over a run of whitespace stops right after the non-space character before it. */
  lemma SpaceBackTo(s: string, t: nat, p: nat)
    requires 0 < t <= p <= |s| && !IsSpace(JavaScript, s[t - 1])
    requires forall k :: t <= k < p ==> IsSpace(JavaScript, s[k])
    ensures SkipSpaceBack(s, JavaScript, p) == t
  {
    var n := SkipSpaceBack(s, JavaScript, p);
    assert n > 0 ==> !IsSpace(JavaScript, s[n - 1]);
  }

  // ---------------------------------------------------------------------
  // Numbered lines

  /** Index of the end of the leading run of ASCII digits from `i`. */
  function DigitsEnd(s: string, i: nat): (n: nat)
    requires i <= |s|
    ensures i <= n <= |s| && (forall k :: i <= k < n ==> IsDigit(s[k])) && (n < |s| ==> !IsDigit(s[n]))
    decreases |s| - i
  {
    if i < |s| && IsDigit(s[i]) then DigitsEnd(s, i + 1) else i
  }

  /**
   * Group 2 of `/^(\d+)\.\s+(.+)$/`: digits, a dot, whitespace, then the rest
   * of the line. The whitespace run is greedy; when nothing follows it, it
   * gives back its last character, which then needs to be no line terminator.
   */
  function NumberedItem(line: string): (m: Option<string>)
    ensures m.Some? ==> m.value != "" && NoLineTerminator(m.value)
  {
    var d := DigitsEnd(line, 0);
    if d == 0 || d >= |line| || line[d] != '.' then None
    else
      var w := SkipSpace(line, JavaScript, d + 1);
      if w == d + 1 then None
      else if w < |line| then
        (if NoLineTerminator(line[w..]) then Some(line[w..]) else None)
      else if w - (d + 1) >= 2 && !IsLineTerminator(line[w - 1]) then Some([line[w - 1]])
      else None
  }

  /** A trimmed numbered line gives the text after the whitespace that follows its dot. */
  lemma NumberedItemText(digits: string, gap: string, text: string)
    requires digits != [] && AllDigits(digits) && gap != [] && AllSpace(JavaScript, gap)
    requires text != [] && !IsJsSpace(text[0]) && NoLineTerminator(text)
    ensures NumberedItem(digits + "." + gap + text) == Some(text)
  {
    var line := digits + "." + gap + text;
    var d := |digits|;
    assert DigitsEnd(line, 0) == d by {
      DigitsEndOf(line, digits);
    }
    assert line[d] == '.';
    var w := d + 1 + |gap|;
    assert SkipSpace(line, JavaScript, d + 1) == w by {
      forall k | d + 1 <= k < w ensures IsJsSpace(line[k]) { assert line[k] == gap[k - d - 1]; }
      assert line[w] == text[0];
      SkipSpaceAt(line, d + 1, w);
    }
    assert line[w..] == text;
  }

  lemma DigitsEndOf(line: string, digits: string)
    requires AllDigits(digits) && |digits| < |line| && line[..|digits|] == digits && !IsDigit(line[|digits|])
    ensures DigitsEnd(line, 0) == |digits|
  {
  }

  lemma SkipSpaceAt(s: string, i: nat, w: nat)
    requires i <= w < |s| && (forall k :: i <= k < w ==> IsJsSpace(s[k])) && !IsJsSpace(s[w])
    ensures SkipSpace(s, JavaScript, i) == w
  {
  }

  // ---------------------------------------------------------------------
  // HTML pieces

  const OlOpen := "<ol style=\"margin: 15px 0; padding-left: 25px; color: #e5e7eb; line-height: 1.8; text-align: justify;\">"
  const LiOpen := "<li style=\"margin: 8px 0; text-align: justify;\">"
  const BaseStyle := "margin: 12px 0; line-height: 1.8; text-align: justify;"
  const HeadingStyle := "margin: 18px 0 8px 0; font-weight: 600; font-size: 1.05rem; line-height: 1.8; color: #fbbf24; text-align: left;"

  /** A list entry: the styled span of a tagged item, or the item text as it is. */
  function ItemHtml(text: string): string
  {
    var f := ParseLineFormatting(text);
    if f.styles != "" then "<span style=\"" + f.styles + "\">" + f.content + "</span>" else f.content
  }

  function ItemsHtml(items: seq<string>): string
  {
    if |items| == 0 then "" else LiOpen + items[0] + "</li>" + ItemsHtml(items[1..])
  }

  /** The `<ol>` a run of numbered lines closes into. */
  function ListHtml(items: seq<string>): string
  {
    OlOpen + ItemsHtml(items) + "</ol>"
  }

  /** `https?://` followed by a character that is not whitespace starts at `k`. */
  predicate UrlAt(s: string, k: nat) {
    || (k + 8 <= |s| && s[k..k + 7] == "http://" && !IsJsSpace(s[k + 7]))
    || (k + 9 <= |s| && s[k..k + 8] == "https://" && !IsJsSpace(s[k + 8]))
  }

  /** `/(https?:\/\/[^\s]+)/g.test(content)`. */
  predicate HasUrl(s: string) { exists k: nat :: k < |s| && UrlAt(s, k) }

  /** The two markup rewrites: URLs into links, `**x**` into bold. */
  datatype Rewrites = Rewrites(linkify: string -> string, embolden: string -> string)

  predicate EndsWithColon(s: string) { |s| > 0 && s[|s| - 1] == ':' }

  /** The paragraph style of text without a URL: a heading for an untagged line ending in `:`, else the tag's style or the default colour. */
  function TextStyle(f: Formatted): string
  {
    if EndsWithColon(f.content) && f.styles == "" then HeadingStyle
    else if f.styles != "" then BaseStyle + " " + f.styles
    else BaseStyle + " color: #e5e7eb;"
  }

  /** The `<p>` of a line that is neither blank nor numbered. */
  function ParagraphHtml(line: string, rw: Rewrites): string
  {
    var f := ParseLineFormatting(line);
    if HasUrl(f.content) then
      "<p style=\"" + (if f.styles != "" then BaseStyle + " " + f.styles else BaseStyle) + "\">"
        + rw.linkify(f.content) + "</p>"
    else "<p style=\"" + TextStyle(f) + "\">" + rw.embolden(f.content) + "</p>"
  }

  // ---------------------------------------------------------------------
  // The whole message

  /** How the loop treats one line once trimmed. */
  datatype Kind = Blank | Item(text: string) | Para(line: string)

  function Classify(raw: string): (k: Kind)
    ensures k.Para? ==> k.line != ""
  {
    var line := Trim(raw, JavaScript);
    if line == "" then Blank
    else match NumberedItem(line)
      case Some(text) => Item(text)
      case None => Para(line)
  }

  /** How a list item and a paragraph line become HTML. */
  datatype Renderer = Renderer(item: string -> string, para: string -> string)

  /** The renderers `parseMessageToHTML` uses. */
  function Standard(rw: Rewrites): Renderer
  {
    Renderer(ItemHtml, line => ParagraphHtml(line, rw))
  }

  /** The kind of every line, in order. */
  function Kinds(lines: seq<string>): (ks: seq<Kind>)
    ensures |ks| == |lines| && forall i :: 0 <= i < |lines| ==> ks[i] == Classify(lines[i])
  {
    if |lines| == 0 then [] else [Classify(lines[0])] + Kinds(lines[1..])
  }

  /** Closes the pending list, if one is open. */
  function Flush(items: seq<string>, open: bool): string
  {
    if open then ListHtml(items) else ""
  }

  /**
   * The HTML of the remaining kinds, given the list items collected so far
   * and whether a list is open: the loop of `parseMessageToHTML` as a function.
   */
  function Render(kinds: seq<Kind>, items: seq<string>, open: bool, r: Renderer): string
    decreases |kinds|
  {
    if |kinds| == 0 then Flush(items, open)
    else match kinds[0]
      case Blank => Flush(items, open) + "<br>" + Render(kinds[1..], [], false, r)
      case Item(text) => Render(kinds[1..], items + [r.item(text)], true, r)
      case Para(line) => Flush(items, open) + r.para(line) + Render(kinds[1..], [], false, r)
  }

  /** The loop's output for a whole message, given how its pieces are rendered. */
  function MessageHtml(text: string, r: Renderer): (html: string)
    ensures text == "" ==> html == ""
  {
    if text == "" then "" else Render(Kinds(Split(text, '\n')), [], false, r)
  }

  /** `parseMessageToHTML(text)`. */
  function Html(text: string, rw: Rewrites): string
  {
    MessageHtml(text, Standard(rw))
  }

  /** `html += ...; listItems.forEach(item => html += ...)`: appends the closed list. */
  method AppendList(html: string, items: seq<string>) returns (r: string)
    ensures r == html + ListHtml(items)
  {
    r := html + OlOpen;
    var i := 0;
    while i < |items|
      invariant 0 <= i <= |items|
      invariant r + ItemsHtml(items[i..]) == html + OlOpen + ItemsHtml(items)
    {
      ItemsStep(r, items, i);
      r := r + LiOpen + items[i] + "</li>";
      i := i + 1;
    }
    assert items[i..] == [];
    Regroup(html, OlOpen, ItemsHtml(items), "</ol>");
    r := r + "</ol>";
  }

  /** One more `<li>` moves from the items still to come onto the output. */
  lemma ItemsStep(r: string, items: seq<string>, i: nat)
    requires i < |items|
    ensures r + ItemsHtml(items[i..]) == r + LiOpen + items[i] + "</li>" + ItemsHtml(items[i + 1..])
  {
    assert items[i..][0] == items[i] && items[i..][1..] == items[i + 1..];
    Regroup4(r, LiOpen, items[i], "</li>", ItemsHtml(items[i + 1..]));
  }

  lemma Regroup(a: string, b: string, c: string, d: string)
    ensures a + (b + c + d) == a + b + c + d
  {
  }

  lemma Regroup4(a: string, b: string, c: string, d: string, e: string)
    ensures a + (b + c + d + e) == a + b + c + d + e
  {
  }

  /** A blank line closes the open list and adds `<br>`. */
  lemma BlankStep(html: string, kinds: seq<Kind>, i: nat, items: seq<string>, open: bool, r: Renderer)
    requires i < |kinds| && kinds[i].Blank?
    ensures html + Render(kinds[i..], items, open, r)
      == (if open then html + ListHtml(items) else html) + "<br>" + Render(kinds[i + 1..], [], false, r)
  {
    assert kinds[i..][0] == kinds[i] && kinds[i..][1..] == kinds[i + 1..];
  }

  /** A numbered line adds its item to the open list. */
  lemma ItemLineStep(html: string, kinds: seq<Kind>, i: nat, items: seq<string>, open: bool, r: Renderer)
    requires i < |kinds| && kinds[i].Item?
    ensures html + Render(kinds[i..], items, open, r)
      == html + Render(kinds[i + 1..], items + [r.item(kinds[i].text)], true, r)
  {
    assert kinds[i..][0] == kinds[i] && kinds[i..][1..] == kinds[i + 1..];
  }

  /** Any other line closes the open list and adds its paragraph. */
  lemma ParaStep(html: string, kinds: seq<Kind>, i: nat, items: seq<string>, open: bool, r: Renderer)
    requires i < |kinds| && kinds[i].Para?
    ensures html + Render(kinds[i..], items, open, r)
      == (if open then html + ListHtml(items) else html) + r.para(kinds[i].line) + Render(kinds[i + 1..], [], false, r)
  {
    assert kinds[i..][0] == kinds[i] && kinds[i..][1..] == kinds[i + 1..];
  }

  /** `if (inOrderedList) { ...; inOrderedList = false; listItems = []; }`: closes the list if one is open. */
  method FlushList(html: string, items: seq<string>, open: bool) returns (r: string)
    ensures r == (if open then html + ListHtml(items) else html)
  {
    r := html;
    if open {
      r := AppendList(html, items);
    }
  }

  /** `parseMessageToHTML`: the loop over the lines, with its `html`, `listItems` and `inOrderedList`. */
  method ParseMessageToHtml(text: string, r: Renderer) returns (html: string)
    ensures html == MessageHtml(text, r)
  {
    if text == "" { return ""; }
    var lines := Split(text, '\n');
    ghost var kinds := Kinds(lines);
    html := "";
    var inOrderedList := false;
    var listItems: seq<string> := [];
    var i := 0;
    assert kinds[0..] == kinds;
    while i < |lines|
      invariant 0 <= i <= |lines|
      invariant !inOrderedList ==> listItems == []
      invariant html + Render(kinds[i..], listItems, inOrderedList, r) == Render(kinds, [], false, r)
    {
      assert kinds[i] == Classify(lines[i]);
      var line := Trim(lines[i], JavaScript);
      if line == "" {
        BlankStep(html, kinds, i, listItems, inOrderedList, r);
        html := FlushList(html, listItems, inOrderedList);
        html := html + "<br>";
        inOrderedList := false;
        listItems := [];
      } else {
        var numbered := NumberedItem(line);
        if numbered.Some? {
          ItemLineStep(html, kinds, i, listItems, inOrderedList, r);
          listItems := listItems + [r.item(numbered.value)];
          inOrderedList := true;
        } else {
          ParaStep(html, kinds, i, listItems, inOrderedList, r);
          html := FlushList(html, listItems, inOrderedList);
          html := html + r.para(line);
          inOrderedList := false;
          listItems := [];
        }
      }
      i := i + 1;
    }
    html := FlushList(html, listItems, inOrderedList);
    assert kinds[i..] == [];
  }

  // ---------------------------------------------------------------------
  // The message as blocks

  /** What one stretch of the message renders as. */
  datatype Block = Break | OrderedList(items: seq<string>) | Paragraph(line: string)

  function Pending(items: seq<string>, open: bool): seq<Block>
  {
    if open then [OrderedList(items)] else []
  }

  /** The blocks `Render` emits, in order. */
  function Blocks(kinds: seq<Kind>, items: seq<string>, open: bool, r: Renderer): seq<Block>
    decreases |kinds|
  {
    if |kinds| == 0 then Pending(items, open)
    else match kinds[0]
      case Blank => Pending(items, open) + [Break] + Blocks(kinds[1..], [], false, r)
      case Item(text) => Blocks(kinds[1..], items + [r.item(text)], true, r)
      case Para(line) => Pending(items, open) + [Paragraph(line)] + Blocks(kinds[1..], [], false, r)
  }

  function BlockHtml(b: Block, r: Renderer): string
  {
    match b
    case Break => "<br>"
    case OrderedList(items) => ListHtml(items)
    case Paragraph(line) => r.para(line)
  }

  function BlocksHtml(bs: seq<Block>, r: Renderer): string
  {
    if |bs| == 0 then "" else BlockHtml(bs[0], r) + BlocksHtml(bs[1..], r)
  }

  lemma {:induction false} BlocksHtmlAppend(a: seq<Block>, b: seq<Block>, r: Renderer)
    ensures BlocksHtml(a + b, r) == BlocksHtml(a, r) + BlocksHtml(b, r)
    decreases |a|
  {
    if |a| > 0 {
      assert (a + b)[0] == a[0] && (a + b)[1..] == a[1..] + b;
      BlocksHtmlAppend(a[1..], b, r);
    } else {
      assert a + b == b;
    }
  }

  lemma BlocksHtmlOne(b: Block, r: Renderer)
    ensures BlocksHtml([b], r) == BlockHtml(b, r)
  {
    assert [b][1..] == [];
  }

  /** The HTML is exactly the blocks' HTML laid end to end. */
  lemma {:induction false} RenderIsBlocks(kinds: seq<Kind>, items: seq<string>, open: bool, r: Renderer)
    ensures Render(kinds, items, open, r) == BlocksHtml(Blocks(kinds, items, open, r), r)
    decreases |kinds|
  {
    var pending := Pending(items, open);
    assert BlocksHtml(pending, r) == Flush(items, open) by {
      if open { BlocksHtmlOne(OrderedList(items), r); }
    }
    if |kinds| > 0 {
      match kinds[0]
      case Blank =>
        RenderIsBlocks(kinds[1..], [], false, r);
        BlocksHtmlAppend(pending, [Break], r);
        BlocksHtmlAppend(pending + [Break], Blocks(kinds[1..], [], false, r), r);
        BlocksHtmlOne(Break, r);
      case Item(text) =>
        RenderIsBlocks(kinds[1..], items + [r.item(text)], true, r);
      case Para(line) =>
        RenderIsBlocks(kinds[1..], [], false, r);
        BlocksHtmlAppend(pending, [Paragraph(line)], r);
        BlocksHtmlAppend(pending + [Paragraph(line)], Blocks(kinds[1..], [], false, r), r);
        BlocksHtmlOne(Paragraph(line), r);
    }
  }

  /** The whole message is its blocks' HTML. */
  lemma HtmlIsBlocks(text: string, rw: Rewrites)
    requires text != ""
    ensures Html(text, rw) == BlocksHtml(Blocks(Kinds(Split(text, '\n')), [], false, Standard(rw)), Standard(rw))
  {
    RenderIsBlocks(Kinds(Split(text, '\n')), [], false, Standard(rw));
  }

  function CountBlank(kinds: seq<Kind>): nat
  {
    if |kinds| == 0 then 0 else (if kinds[0].Blank? then 1 else 0) + CountBlank(kinds[1..])
  }

  function CountBreaks(bs: seq<Block>): nat
  {
    if |bs| == 0 then 0 else (if bs[0].Break? then 1 else 0) + CountBreaks(bs[1..])
  }

  lemma {:induction false} CountBreaksAppend(a: seq<Block>, b: seq<Block>)
    ensures CountBreaks(a + b) == CountBreaks(a) + CountBreaks(b)
    decreases |a|
  {
    if |a| > 0 {
      assert (a + b)[0] == a[0] && (a + b)[1..] == a[1..] + b;
      CountBreaksAppend(a[1..], b);
    } else {
      assert a + b == b;
    }
  }

  /** Each blank line gives exactly one `<br>`, and nothing else does. */
  lemma {:induction false} BreakPerBlankLine(kinds: seq<Kind>, items: seq<string>, open: bool, r: Renderer)
    ensures CountBreaks(Blocks(kinds, items, open, r)) == CountBlank(kinds)
    decreases |kinds|
  {
    var pending := Pending(items, open);
    assert CountBreaks(pending) == 0 by { if open { assert pending[1..] == []; } }
    if |kinds| > 0 {
      match kinds[0]
      case Blank =>
        BreakPerBlankLine(kinds[1..], [], false, r);
        CountBreaksAppend(pending, [Break]);
        CountBreaksAppend(pending + [Break], Blocks(kinds[1..], [], false, r));
        assert [Break][1..] == [];
      case Item(text) =>
        BreakPerBlankLine(kinds[1..], items + [r.item(text)], true, r);
      case Para(line) =>
        BreakPerBlankLine(kinds[1..], [], false, r);
        CountBreaksAppend(pending, [Paragraph(line)]);
        CountBreaksAppend(pending + [Paragraph(line)], Blocks(kinds[1..], [], false, r));
        assert [Paragraph(line)][1..] == [];
    }
  }

  predicate AllNumbered(run: seq<Kind>) { forall i :: 0 <= i < |run| ==> run[i].Item? }

  /** The list items of a run of numbered kinds, in order. */
  function RunItems(run: seq<Kind>, r: Renderer): seq<string>
    requires AllNumbered(run)
  {
    if |run| == 0 then []
    else
      assert run[0].Item?;
      [r.item(run[0].text)] + RunItems(run[1..], r)
  }

  /**
   * Consecutive numbered kinds form one list holding their items in order,
   * closed by the blank line, the other line or the end that follows them.
   */
  lemma {:induction false} NumberedRunIsOneList(run: seq<Kind>, rest: seq<Kind>, items: seq<string>, open: bool, r: Renderer)
    requires AllNumbered(run)
    requires open || |run| > 0
    requires |rest| > 0 ==> !rest[0].Item?
    ensures Blocks(run + rest, items, open, r) == [OrderedList(items + RunItems(run, r))] + Blocks(rest, [], false, r)
    decreases |run|
  {
    if |run| > 0 {
      var kinds := run + rest;
      assert kinds[0] == run[0] && kinds[1..] == run[1..] + rest;
      var item := r.item(run[0].text);
      ItemStep(kinds, items, open, r);
      assert AllNumbered(run[1..]) by {
        forall i | 0 <= i < |run[1..]| ensures run[1..][i].Item? { assert run[1..][i] == run[i + 1]; }
      }
      NumberedRunIsOneList(run[1..], rest, items + [item], true, r);
      assert items + [item] + RunItems(run[1..], r) == items + RunItems(run, r);
    } else {
      assert run + rest == rest && open;
      assert items + RunItems(run, r) == items;
      CloseList(rest, items, r);
    }
  }

  /** A numbered line adds its item to the open list. */
  lemma ItemStep(kinds: seq<Kind>, items: seq<string>, open: bool, r: Renderer)
    requires |kinds| > 0 && kinds[0].Item?
    ensures Blocks(kinds, items, open, r) == Blocks(kinds[1..], items + [r.item(kinds[0].text)], true, r)
  {
  }

  /** The line after a list, or the end, closes it. */
  lemma CloseList(rest: seq<Kind>, items: seq<string>, r: Renderer)
    requires |rest| > 0 ==> !rest[0].Item?
    ensures Blocks(rest, items, true, r) == [OrderedList(items)] + Blocks(rest, [], false, r)
  {
    if |rest| > 0 {
      var tail := Blocks(rest[1..], [], false, r);
      match rest[0]
      case Blank =>
        assert Blocks(rest, [], false, r) == [Break] + tail;
        assert Blocks(rest, items, true, r) == [OrderedList(items)] + [Break] + tail;
      case Para(line) =>
        assert Blocks(rest, [], false, r) == [Paragraph(line)] + tail;
        assert Blocks(rest, items, true, r) == [OrderedList(items)] + [Paragraph(line)] + tail;
    }
  }

  /** Two lists never touch: something always separates them. */
  predicate NoAdjacentLists(bs: seq<Block>) {
    forall k :: 0 <= k < |bs| - 1 ==> !(bs[k].OrderedList? && bs[k + 1].OrderedList?)
  }

  /** Every list holds at least one item. */
  predicate ListsNonEmpty(bs: seq<Block>) {
    forall k :: 0 <= k < |bs| ==> (bs[k].OrderedList? ==> bs[k].items != [])
  }

  predicate StartsWithList(bs: seq<Block>) { |bs| > 0 && bs[0].OrderedList? }

  /** A block, then blocks that do not start with a list, keep both shapes. */
  lemma ShapeAppend(pending: seq<Block>, sep: Block, tail: seq<Block>)
    requires |pending| <= 1 && !sep.OrderedList?
    requires ListsNonEmpty(pending) && NoAdjacentLists(tail) && ListsNonEmpty(tail)
    ensures NoAdjacentLists(pending + [sep] + tail) && ListsNonEmpty(pending + [sep] + tail)
  {
    var bs := pending + [sep] + tail;
    forall k | 0 <= k < |bs| - 1 ensures !(bs[k].OrderedList? && bs[k + 1].OrderedList?) {
      if k >= |pending| + 1 { assert bs[k] == tail[k - |pending| - 1] && bs[k + 1] == tail[k - |pending|]; }
      else if k == |pending| { assert bs[k] == sep; }
      else { assert bs[k + 1] == sep; }
    }
    forall k | 0 <= k < |bs| ensures bs[k].OrderedList? ==> bs[k].items != [] {
      if k >= |pending| + 1 { assert bs[k] == tail[k - |pending| - 1]; }
      else if k < |pending| { assert bs[k] == pending[k]; }
    }
  }

  /** Lists are never empty and never adjacent, whatever the kinds. */
  lemma {:induction false} BlocksShape(kinds: seq<Kind>, items: seq<string>, open: bool, r: Renderer)
    requires open ==> items != []
    ensures NoAdjacentLists(Blocks(kinds, items, open, r)) && ListsNonEmpty(Blocks(kinds, items, open, r))
    decreases |kinds|
  {
    var pending := Pending(items, open);
    if |kinds| > 0 {
      match kinds[0]
      case Blank =>
        BlocksShape(kinds[1..], [], false, r);
        ShapeAppend(pending, Break, Blocks(kinds[1..], [], false, r));
      case Item(text) =>
        BlocksShape(kinds[1..], items + [r.item(text)], true, r);
      case Para(line) =>
        BlocksShape(kinds[1..], [], false, r);
        ShapeAppend(pending, Paragraph(line), Blocks(kinds[1..], [], false, r));
    }
  }
}
