/**
 * The markdown editor's text logic: what a toolbar button does to the document and
 * the caret, the word and character counters, the theme switch and "new document".
 * The textarea, the preview pane and the timers are not modelled; the editor's
 * state is the document text, the selection, the theme flag and the two counters.
 */
module Editor {
  import opened JsText

  // ---------------------------------------------------------------------------
  // Toolbar buttons

  /** What a button does: wrap the selection, prefix the current line, fill a
      template, make a code block, or (a button with none of these flags) insert
      its syntax in place of the selection. */
  datatype Kind = Wrap | Prefix | Template | Block | Plain

  datatype Button = Button(name: string, syntax: string, kind: Kind)

  const ToolbarButtons: seq<Button> := [
    Button("Bold", "**", Wrap),
    Button("Italic", "*", Wrap),
    Button("Heading 1", "# ", Prefix),
    Button("Heading 2", "## ", Prefix),
    Button("Heading 3", "### ", Prefix),
    Button("Link", "[text](url)", Template),
    Button("Code Block", "```\n\n```", Block),
    Button("Unordered List", "- ", Prefix),
    Button("Ordered List", "1. ", Prefix)
  ]

  const LinkButton: Button := ToolbarButtons[5]
  const CodeBlockButton: Button := ToolbarButtons[6]

  /** The document every session starts with. */
  const DefaultContent: string :=
    "# Welcome to Markdown Editor\n" +
    "\n" +
    "This is a **modern** and *fast* markdown editor built with Astro and Preact.\n" +
    "\n" +
    "## Features\n" +
    "\n" +
    "- Real-time preview\n" +
    "- Dark/Light mode\n" +
    "- Auto-save (session)\n" +
    "- Offline support\n" +
    "- Word/character count\n" +
    "\n" +
    "### Code Example\n" +
    "\n" +
    "```javascript\n" +
    "const hello = 'world';\n" +
    "console.log(hello);\n" +
    "```\n" +
    "\n" +
    "### Links\n" +
    "\n" +
    "[Astro Documentation](https://docs.astro.build)\n" +
    "\n" +
    "### Lists\n" +
    "\n" +
    "- Item 1\n" +
    "- Item 2\n" +
    "- Item 3\n" +
    "\n" +
    "1. First\n" +
    "2. Second\n" +
    "3. Third\n" +
    "\n" +
    "> This is a blockquote example\n" +
    "\n" +
    "Start editing to see the magic happen!"

  // ---------------------------------------------------------------------------
  // Splicing a button's syntax into the document

  /** An empty selection counts as the placeholder word "text" (JavaScript's `selected || 'text'`). */
  function OrText(selected: string): (t: string)
    ensures t != []
    ensures selected != [] ==> t == selected
    ensures selected == [] ==> t == "text"
  {
    if selected == [] then "text" else selected
  }

  /** Where the line holding position `start` begins: one past the last newline before
      `start`, or 0 when there is none. */
  function LineStart(content: string, start: nat): (ls: nat)
    requires start <= |content|
    ensures ls <= start
    ensures ls == 0 || content[ls - 1] == '\n'
    ensures forall k :: ls <= k < start ==> content[k] != '\n'
  {
    LastIndexOf(content[..start], '\n') + 1
  }

  /** The template button's text as the source computes it: `syntax.replace('text', t)`,
      where the replacement goes through JavaScript's `$`-pattern substitution. */
  function TemplateAsWritten(syntax: string, selected: string): string
  {
    ReplaceFirst(syntax, "text", OrText(selected))
  }

  /** The template button's text with the selection taken literally. */
  function TemplateText(syntax: string, selected: string): string
  {
    ReplaceFirstLiteral(syntax, "text", OrText(selected))
  }

  /** The text a button other than a prefix button puts in place of the selection. */
  function Insertion(b: Button, selected: string): string
  {
    match b.kind
    case Wrap => b.syntax + OrText(selected) + b.syntax
    case Template => TemplateText(b.syntax, selected)
    case Block => if selected != [] then "```\n" + selected + "\n```" else b.syntax
    case Prefix => b.syntax
    case Plain => b.syntax
  }

  /** A document after a toolbar button, and the caret position the source asks for.
      The position may be -1 (a template without "url"); `Caret` says where the caret
      then lands. */
  datatype Edit = Edit(content: string, cursor: int)

  /** The caret position requested after inserting `ins`. For the template and the
      code block it is an index into `ins` itself, not offset by `start`. */
  function Cursor(b: Button, start: nat, ins: string): int
  {
    match b.kind
    case Template => IndexOf(ins, "url")
    case Block => IndexOf(ins, "\n") + 1
    case _ => start + |b.syntax|
  }

  /** A toolbar button applied to `content` with the selection `[start, end)`. */
  function ApplyButton(content: string, start: nat, end: nat, b: Button): (e: Edit)
    requires start <= end <= |content|
    ensures -1 <= e.cursor <= |e.content|
    ensures b.kind != Template ==> e.cursor >= 0
  {
    if b.kind == Prefix then
      var ls := LineStart(content, start);
      Edit(content[..ls] + b.syntax + content[ls..], start + |b.syntax|)
    else
      var ins := Insertion(b, content[start..end]);
      var r := content[..start] + ins + content[end..];
      assert |r| == |content| - (end - start) + |ins|;
      Edit(r, Cursor(b, start, ins))
  }

  /** The caret that `setSelectionRange(c, c)` leaves in a text of length `len`: WebIDL
      converts the argument to an unsigned 32-bit integer and the text control clamps
      it to the length of its value. */
  function Caret(c: int, len: nat): (p: nat)
    ensures p <= len
    ensures 0 <= c <= len && len < 0x1_0000_0000 ==> p == c
  {
    if 0 <= c <= len && c < 0x1_0000_0000 then c
    else
      var u := c % 0x1_0000_0000;
      if u <= len then u else len
  }

  /** `after` is `before` with `[start, end)` replaced by `ins`: everything before `start`
      and after `end` is kept, in place and in order. */
  predicate IsSplice(before: string, start: nat, end: nat, ins: string, after: string)
    requires start <= end <= |before|
  {
    && |after| == |before| - (end - start) + |ins|
    && after[..start] == before[..start]
    && after[start..start + |ins|] == ins
    && after[start + |ins|..] == before[end..]
  }

  /** Every button but a prefix button replaces exactly the selection by its insertion. */
  lemma NonPrefixIsSplice(content: string, start: nat, end: nat, b: Button)
    requires start <= end <= |content|
    requires b.kind != Prefix
    ensures IsSplice(content, start, end, Insertion(b, content[start..end]),
                     ApplyButton(content, start, end, b).content)
  {
    var ins := Insertion(b, content[start..end]);
    var r := ApplyButton(content, start, end, b).content;
    assert r == content[..start] + ins + content[end..];
    assert r[..start] == content[..start];
    assert r[start..start + |ins|] == ins;
    assert r[start + |ins|..] == content[end..];
  }

  /** A wrap button puts the syntax on both sides of the selection (or of "text") and
      leaves the caret at the start of the wrapped text. */
  lemma WrapButton(content: string, start: nat, end: nat, b: Button)
    requires start <= end <= |content|
    requires b.kind == Wrap
    ensures var e := ApplyButton(content, start, end, b);
            var t := OrText(content[start..end]);
            && Insertion(b, content[start..end]) == b.syntax + t + b.syntax
            && e.cursor == start + |b.syntax|
            && e.content[..start] == content[..start]
            && e.content[start..e.cursor] == b.syntax
            && e.content[e.cursor..e.cursor + |t|] == t
            && e.content[e.cursor + |t|..] == b.syntax + content[end..]
  {
    var e := ApplyButton(content, start, end, b);
    var t := OrText(content[start..end]);
    assert e.content == content[..start] + b.syntax + t + b.syntax + content[end..];
    assert e.content[e.cursor + |t|..] == b.syntax + content[end..];
  }

  /** A prefix button inserts its syntax at the start of the selection's line and
      nowhere else: taking the syntax out again gives back the document. */
  lemma PrefixButton(content: string, start: nat, end: nat, b: Button)
    requires start <= end <= |content|
    requires b.kind == Prefix
    ensures var e := ApplyButton(content, start, end, b);
            var ls := LineStart(content, start);
            && e.content == content[..ls] + b.syntax + content[ls..]
            && |e.content| == |content| + |b.syntax|
            && e.content[..ls] + e.content[ls + |b.syntax|..] == content
  {
    var e := ApplyButton(content, start, end, b);
    var ls := LineStart(content, start);
    assert e.content[..ls] == content[..ls];
    assert e.content[ls + |b.syntax|..] == content[ls..];
    assert content[..ls] + content[ls..] == content;
  }

  /** After a prefix button the caret stands before the character it stood before. */
  lemma PrefixCaret(content: string, start: nat, end: nat, b: Button)
    requires start <= end <= |content|
    requires b.kind == Prefix
    ensures var e := ApplyButton(content, start, end, b);
            var ls := LineStart(content, start);
            && e.cursor == start + |b.syntax|
            && e.content[..e.cursor] == content[..ls] + b.syntax + content[ls..start]
            && e.content[e.cursor..] == content[start..]
  {
    var e := ApplyButton(content, start, end, b);
    var ls := LineStart(content, start);
    assert content[ls..] == content[ls..start] + content[start..];
    assert e.content == (content[..ls] + b.syntax + content[ls..start]) + content[start..];
  }

  /** "text" first occurs in the Link syntax at index 1. */
  lemma LinkSyntaxTextAt()
    ensures IndexOf("[text](url)", "text") == 1
  {
    var syn := "[text](url)";
    assert !OccursAt(syn, "text", 0) by { assert syn[0..4][0] == '['; }
    assert OccursAt(syn, "text", 1) by { assert syn[1..5] == "text"; }
  }

  /** The Link template with the selection (or the placeholder) in place of "text". */
  lemma LinkText(selected: string)
    ensures TemplateText("[text](url)", selected) == "[" + OrText(selected) + "](url)"
  {
    LinkSyntaxTextAt();
    assert "[text](url)"[..1] == "[" && "[text](url)"[5..] == "](url)";
  }

  /** Where "url" first occurs in `[t](url)`. */
  lemma UrlInLinkText(t: string)
    ensures var ins := "[" + t + "](url)";
            var i := IndexOf(ins, "url");
            && 0 <= i <= |t| + 3 && OccursAt(ins, "url", i)
            && ('u' !in t ==> i == |t| + 3)
  {
    var ins := "[" + t + "](url)";
    assert OccursAt(ins, "url", |t| + 3) by {
      assert ins == ("[" + t + "](") + "url" + ")";
      assert ins[|t| + 3..|t| + 6] == "url";
    }
    if 'u' !in t {
      forall k | 0 <= k < |t| + 3 ensures !OccursAt(ins, "url", k) {
        assert ins[k] != 'u' by {
          if 1 <= k <= |t| { assert ins[k] == t[k - 1]; }
        }
        assert ins[k..k + 3][0] == ins[k];
      }
    }
  }

  /** The Link button produces `[t](url)` and asks for the caret at the first "url" of
      that text, an index that does not depend on where the selection was. */
  lemma LinkButtonSplice(content: string, start: nat, end: nat)
    requires start <= end <= |content|
    ensures var t := OrText(content[start..end]);
            var ins := Insertion(LinkButton, content[start..end]);
            var e := ApplyButton(content, start, end, LinkButton);
            && ins == "[" + t + "](url)"
            && e.cursor == IndexOf(ins, "url")
            && 0 <= e.cursor <= |t| + 3 && OccursAt(ins, "url", e.cursor)
            && ('u' !in t ==> e.cursor == |t| + 3)
  {
    LinkText(content[start..end]);
    UrlInLinkText(OrText(content[start..end]));
  }

  /** The Code Block button fences the selection (or inserts an empty fence) and asks
      for the caret at index 4, just after the first newline of the fence. */
  lemma CodeBlockSplice(content: string, start: nat, end: nat)
    requires start <= end <= |content|
    ensures var sel := content[start..end];
            var ins := Insertion(CodeBlockButton, sel);
            && ins == (if sel == [] then "```\n\n```" else "```\n" + sel + "\n```")
            && ApplyButton(content, start, end, CodeBlockButton).cursor == 4
  {
    var sel := content[start..end];
    var ins := Insertion(CodeBlockButton, sel);
    assert ins[..4] == "```\n";
    assert OccursAt(ins, "\n", 3) by { assert ins[3..4] == "\n"; }
    forall k | 0 <= k < 3 ensures !OccursAt(ins, "\n", k) {
      assert ins[k..k + 1] == [ins[k]] && ins[k] == '`';
    }
  }

  /** As written, a selection containing `$&` is lost from the Link button's text:
      it comes out as the placeholder "[text](url)". */
  lemma LinkLosesDollarSelection()
    ensures TemplateAsWritten("[text](url)", "$&") == "[text](url)"
    ensures TemplateText("[text](url)", "$&") == "[$&](url)"
  {
    var syn := "[text](url)";
    LinkSyntaxTextAt();
    LinkText("$&");
    assert syn[..1] == "[" && syn[5..] == "](url)";
    assert Substitution("$&", "text", "[", "](url)") == "text" by {
      assert "$&"[2..] == [];
    }
  }

  /** The two template texts differ only for selections holding a `$`. */
  lemma TemplateAgreesWithoutDollar(syntax: string, selected: string)
    requires '$' !in selected
    ensures TemplateAsWritten(syntax, selected) == TemplateText(syntax, selected)
  {
    assert '$' !in OrText(selected);
    ReplaceAgreesWithoutDollar(syntax, "text", OrText(selected));
  }

  /** For a selection without `$`, the template button's insertion is exactly the text
      the source computes with `replace`. */
  lemma InsertionAsWritten(b: Button, selected: string)
    requires b.kind == Template && '$' !in selected
    ensures Insertion(b, selected) == TemplateAsWritten(b.syntax, selected)
  {
    TemplateAgreesWithoutDollar(b.syntax, selected);
  }

  // ---------------------------------------------------------------------------
  // Word and character counts

  /** The word counter: 0 for a blank text, otherwise the number of pieces that
      `text.trim().split(/\s+/)` yields. */
  function WordCount(content: string): nat
  {
    var text := Trim(content);
    if text == [] then 0 else |SplitOnSpace(text)|
  }

  /** Reference count of words: a word ends at every non-whitespace character that is
      the last one or is followed by whitespace. */
  function WordRuns(s: string): nat
    decreases |s|
  {
    if s == [] then 0
    else (if EndsWord(s) then 1 else 0) + WordRuns(s[1..])
  }

  /** A word ends at the first character of `s`. */
  predicate EndsWord(s: string)
  {
    s != [] && !IsSpace(s[0]) && (|s| == 1 || IsSpace(s[1]))
  }

  lemma {:induction false} RunsAppend(a: string, b: string)
    requires b == [] || IsSpace(b[0])
    ensures WordRuns(a + b) == WordRuns(a) + WordRuns(b)
    decreases |a|
  {
    if a != [] {
      assert (a + b)[1..] == a[1..] + b;
      assert (a + b)[0] == a[0];
      if |a| >= 2 { assert (a + b)[1] == a[1]; }
      else if b != [] { assert (a + b)[1] == b[0]; }
      assert EndsWord(a + b) == EndsWord(a);
      RunsAppend(a[1..], b);
      assert WordRuns(a + b) == (if EndsWord(a) then 1 else 0) + WordRuns(a[1..] + b);
    } else {
      assert a + b == b;
    }
  }

  lemma {:induction false} RunsSpacePrefix(sp: string, b: string)
    requires AllSpace(sp)
    ensures WordRuns(sp + b) == WordRuns(b)
    decreases |sp|
  {
    if sp != [] {
      assert (sp + b)[1..] == sp[1..] + b;
      assert IsSpace((sp + b)[0]);
      assert !EndsWord(sp + b);
      assert AllSpace(sp[1..]) by {
        forall k | 0 <= k < |sp[1..]| ensures IsSpace(sp[1..][k]) { assert sp[1..][k] == sp[k + 1]; }
      }
      RunsSpacePrefix(sp[1..], b);
      assert WordRuns(sp + b) == WordRuns(sp[1..] + b);
    } else {
      assert sp + b == b;
    }
  }

  lemma {:induction false} RunsSolid(a: string)
    requires a != [] && NoSpace(a)
    ensures WordRuns(a) == 1
    decreases |a|
  {
    if |a| >= 2 {
      assert NoSpace(a[1..]) by {
        forall k | 0 <= k < |a[1..]| ensures !IsSpace(a[1..][k]) { assert a[1..][k] == a[k + 1]; }
      }
      RunsSolid(a[1..]);
      assert !IsSpace(a[1]);
    }
  }

  lemma RunsAllSpace(a: string)
    requires AllSpace(a)
    ensures WordRuns(a) == 0
  {
    RunsSpacePrefix(a, []);
    assert a + [] == a;
  }

  /** Splitting a text without whitespace at its ends yields one piece per word. */
  lemma {:induction false} SplitCountsRuns(s: string)
    requires s != [] && !IsSpace(s[0]) && !IsSpace(s[|s| - 1])
    ensures |SplitOnSpace(s)| == WordRuns(s)
    decreases |s|
  {
    var i := FirstSpace(s);
    if i == |s| {
      assert s[..i] == s;
      RunsSolid(s);
    } else {
      var tail := s[i..];
      var n := LeadingSpace(tail);
      var sp, rest := tail[..n], tail[n..];
      assert rest == TrimStart(tail);
      assert tail == sp + rest;
      assert s == s[..i] + tail;
      assert i > 0;
      RunsAppend(s[..i], tail);
      RunsSolid(s[..i]);
      assert AllSpace(sp);
      RunsSpacePrefix(sp, rest);
      assert n < |tail| && rest != [];
      assert rest[0] == tail[n] && rest[|rest| - 1] == s[|s| - 1];
      SplitCountsRuns(rest);
    }
  }

  /** The word counter counts the maximal runs of non-whitespace characters, of the
      trimmed text and equally of the whole document; it is 0 exactly for a blank
      document. */
  lemma WordCountIsRuns(content: string)
    ensures WordCount(content) == WordRuns(Trim(content)) == WordRuns(content)
    ensures WordCount(content) == 0 <==> AllSpace(content)
  {
    TrimEnds(content);
    TrimBlank(content);
    var r := Trim(content);
    if r != [] {
      SplitCountsRuns(r);
    }
    RunsOfTrim(content);
  }

  /** Trimming never changes the number of words. */
  lemma RunsOfTrim(s: string)
    ensures WordRuns(Trim(s)) == WordRuns(s)
  {
    TrimIsSlice(s);
    TrimCutsSpaceAfter(s);
    var i := LeadingSpace(s);
    var j := i + |Trim(s)|;
    assert s == s[..i] + s[i..j] + s[j..];
    RunsBetweenSpace(s[..i], s[i..j], s[j..]);
  }

  /** Whitespace on either side of a text adds no word. */
  lemma RunsBetweenSpace(lead: string, r: string, tail: string)
    requires AllSpace(lead) && AllSpace(tail)
    ensures WordRuns(lead + r + tail) == WordRuns(r)
  {
    assert lead + r + tail == lead + (r + tail);
    RunsSpacePrefix(lead, r + tail);
    RunsAppend(r, tail);
    RunsAllSpace(tail);
  }

  // ---------------------------------------------------------------------------
  // The editor object

  class MarkdownEditor {
    /** The document text, kept equal to the textarea's value. */
    var content: string
    var isDark: bool
    /** The textarea's selection `[selectionStart, selectionEnd)`. */
    var selectionStart: nat
    var selectionEnd: nat
    /** What the word and character counters show. */
    var wordCount: nat
    var charCount: nat

    ghost predicate Valid()
      reads this
    {
      selectionStart <= selectionEnd <= |content|
    }

    /** `prefersDark` is the platform's colour-scheme preference. Loading the default
        content sets the textarea's value, which puts the caret at its end. */
    constructor (prefersDark: bool)
      ensures Valid()
      ensures content == DefaultContent && isDark == prefersDark
      ensures selectionStart == selectionEnd == |content|
      ensures wordCount == WordCount(content) && charCount == |content|
    {
      // init(): loadContent() and updateCounts(), written out over the fresh object
      content := DefaultContent;
      isDark := prefersDark;
      selectionStart, selectionEnd := |DefaultContent|, |DefaultContent|;
      wordCount, charCount := WordCount(DefaultContent), |DefaultContent|;
      new;
    }

    method LoadContent()
      modifies this`content, this`selectionStart, this`selectionEnd
      ensures Valid()
      ensures content == DefaultContent
      ensures selectionStart == selectionEnd == |content|
    {
      content := DefaultContent;
      selectionStart, selectionEnd := |content|, |content|;
    }

    /** Refreshes the two counters from the document. */
    method UpdateCounts()
      modifies this`wordCount, this`charCount
      ensures wordCount == WordCount(content) && charCount == |content|
    {
      wordCount := WordCount(content);
      charCount := |content|;
    }

    /** The textarea's `input` event: the user's edit leaves `value` and a selection. */
    method OnInput(value: string, start: nat, end: nat)
      requires start <= end <= |value|
      modifies this
      ensures Valid()
      ensures content == value && selectionStart == start && selectionEnd == end
      ensures wordCount == WordCount(value) && charCount == |value|
      ensures isDark == old(isDark)
    {
      content := value;
      selectionStart, selectionEnd := start, end;
      UpdateCounts();
    }

    /** The user moves the selection without editing. */
    method Select(start: nat, end: nat)
      requires start <= end <= |content|
      modifies this`selectionStart, this`selectionEnd
      ensures Valid() && selectionStart == start && selectionEnd == end
    {
      selectionStart, selectionEnd := start, end;
    }

    /** A toolbar button click. */
    method InsertMarkdown(b: Button)
      requires Valid()
      modifies this
      ensures Valid()
      ensures var e := ApplyButton(old(content), old(selectionStart), old(selectionEnd), b);
              && content == e.content
              && selectionStart == selectionEnd == Caret(e.cursor, |e.content|)
      ensures wordCount == WordCount(content) && charCount == |content|
      ensures isDark == old(isDark)
    {
      var e := ApplyButton(content, selectionStart, selectionEnd, b);
      SetValue(e);
    }

    /** Writes an edit back: the textarea gets the new value, the caret goes where the
        edit asks (through `setSelectionRange`), and the counters are refreshed. */
    method SetValue(e: Edit)
      modifies this
      ensures Valid()
      ensures content == e.content
      ensures selectionStart == selectionEnd == Caret(e.cursor, |e.content|)
      ensures wordCount == WordCount(content) && charCount == |content|
      ensures isDark == old(isDark)
    {
      content := e.content;
      var caret := Caret(e.cursor, |content|);
      selectionStart, selectionEnd := caret, caret;
      UpdateCounts();
    }

    method ToggleTheme()
      modifies this`isDark
      ensures isDark == !old(isDark)
    {
      isDark := !isDark;
    }

    /** The "new document" button. `confirmed` is the user's answer to the
        confirmation dialog, which is shown only when the document is not blank. */
    method NewDocument(confirmed: bool)
      requires Valid()
      modifies this
      ensures Valid()
      ensures Trim(old(content)) != [] && !confirmed ==>
                content == old(content) && selectionStart == old(selectionStart)
                && selectionEnd == old(selectionEnd)
                && wordCount == old(wordCount) && charCount == old(charCount)
      ensures Trim(old(content)) == [] || confirmed ==>
                content == [] && selectionStart == selectionEnd == 0
                && wordCount == 0 && charCount == 0
      ensures isDark == old(isDark)
    {
      if Trim(content) != [] && !confirmed {
        return;
      }
      content := [];
      selectionStart, selectionEnd := 0, 0;
      UpdateCounts();
    }
  }

  /** Toggling the theme twice restores it and touches nothing else. */
  method ToggleThemeTwice(ed: MarkdownEditor)
    modifies ed
    ensures ed.isDark == old(ed.isDark)
    ensures ed.content == old(ed.content)
  {
    ed.ToggleTheme();
    ed.ToggleTheme();
  }
}
