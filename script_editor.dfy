/**
 * The tag-insertion logic of the script editor (components/ScriptEditor.tsx):
 * the text of the textarea is split at the selection, the selection is wrapped
 * in a start tag and an end tag, and the cursor is placed after the end tag.
 */
module ScriptEditor {
  import opened Wrappers

  /** A bound of `String.prototype.substring` clamped into `[0, n]`. */
  function Clamp(i: int, n: nat): (r: nat)
    ensures r <= n
    ensures 0 <= i <= n ==> r == i
  {
    if i < 0 then 0 else if i > n then n else i
  }

  /**
   * JavaScript's `s.substring(a, b)`: both bounds are clamped to the string
   * and swapped when they are out of order.
   */
  function Substring(s: string, a: int, b: int): (r: string)
    ensures |r| <= |s|
    ensures 0 <= a <= b <= |s| ==> r == s[a..b]
  {
    var lo, hi := Clamp(a, |s|), Clamp(b, |s|);
    if lo <= hi then s[lo..hi] else s[hi..lo]
  }

  /**
   * The part of the textarea the editor reads: its text and its selection.
   * Positions and lengths count the model's characters; they stand for the
   * browser's UTF-16 code units, and a selection boundary inside a surrogate
   * pair is not modelled.
   */
  datatype Textarea = Textarea(value: string, selectionStart: nat, selectionEnd: nat) {
    /** The browser keeps the selection ordered and inside the text. */
    predicate Valid() {
      selectionStart <= selectionEnd <= |value|
    }
  }

  /** What `insertTag` hands on: the new text (to `onChange`) and the new caret position. */
  datatype Edit = Edit(newText: string, cursor: int)

  /**
   * `insertTag(startTag, endTag = '')`. With no textarea mounted nothing is
   * reported; otherwise the selection is wrapped in the two tags and the caret
   * goes right after the end tag.
   */
  function InsertTag(textarea: Option<Textarea>, startTag: string, endTag: string := ""): (r: Option<Edit>)
    ensures r.None? <==> textarea.None?
    ensures textarea.Some? && textarea.value.Valid() ==>
      var t, s, e := textarea.value.value, textarea.value.selectionStart, textarea.value.selectionEnd;
      && r.value.newText == t[..s] + startTag + t[s..e] + endTag + t[e..]
      && r.value.cursor == |t[..s] + startTag + t[s..e] + endTag|
  {
    match textarea
    case None => None
    case Some(area) =>
      var start, end, text := area.selectionStart, area.selectionEnd, area.value;
      var before := Substring(text, 0, start);
      var selection := Substring(text, start, end);
      var after := Substring(text, end, |text|);
      var newText := before + startTag + selection + endTag + after;
      Some(Edit(newText, start + |startTag| + |selection| + |endTag|))
  }

  /**
   * Nothing is deleted: the new text is as long as the old text and the two
   * tags together; the text before the selection, the selection and the text
   * after it all reappear unchanged in their places; and the caret lies inside
   * the new text, exactly where the untouched rest of the old text begins.
   */
  lemma InsertTagLayout(area: Textarea, startTag: string, endTag: string)
    requires area.Valid()
    ensures var edit := InsertTag(Some(area), startTag, endTag).value;
      var t, s, e := area.value, area.selectionStart, area.selectionEnd;
      && |edit.newText| == |t| + |startTag| + |endTag|
      && edit.cursor == s + |startTag| + (e - s) + |endTag|
      && 0 <= edit.cursor <= |edit.newText|
      && edit.newText[..s] == t[..s]
      && edit.newText[s..s + |startTag|] == startTag
      && edit.newText[s + |startTag|..s + |startTag| + (e - s)] == t[s..e]
      && edit.newText[edit.cursor - |endTag|..edit.cursor] == endTag
      && edit.newText[edit.cursor..] == t[e..]
  {
    var t, s, e := area.value, area.selectionStart, area.selectionEnd;
    assert t == t[..s] + t[s..e] + t[e..];
    PiecesInPlace(t[..s], startTag, t[s..e], endTag, t[e..]);
  }

  /** Where each piece of `before + startTag + selection + endTag + after` lies. */
  lemma PiecesInPlace(before: string, startTag: string, selection: string, endTag: string, after: string)
    ensures var n, i := before + startTag + selection + endTag + after, |before|;
      var j, k := i + |startTag|, i + |startTag| + |selection|;
      && n[..i] == before
      && n[i..j] == startTag
      && n[j..k] == selection
      && n[k..k + |endTag|] == endTag
      && n[k + |endTag|..] == after
  {
    var n := before + startTag + selection + endTag + after;
    var i, j, k := |before|, |before| + |startTag|, |before| + |startTag| + |selection|;
    assert n == before + (startTag + (selection + (endTag + after)));
    assert n[..i] == before;
    assert n[i..] == startTag + (selection + (endTag + after));
    assert n[j..] == selection + (endTag + after);
    assert n[k..] == endTag + after;
  }

  /**
   * Nothing of the original text is lost: taking the two inserted tags out of
   * the new text gives the original text back.
   */
  lemma InsertTagRemovable(area: Textarea, startTag: string, endTag: string)
    requires area.Valid()
    ensures var edit, s := InsertTag(Some(area), startTag, endTag).value, area.selectionStart;
      && s + |startTag| <= edit.cursor - |endTag| <= edit.cursor <= |edit.newText|
      && edit.newText[..s] + edit.newText[s + |startTag|..edit.cursor - |endTag|] + edit.newText[edit.cursor..]
         == area.value
  {
    var t, s, e := area.value, area.selectionStart, area.selectionEnd;
    var edit := InsertTag(Some(area), startTag, endTag).value;
    InsertTagLayout(area, startTag, endTag);
    var n, c := edit.newText, edit.cursor;
    assert n[s + |startTag|..c - |endTag|] == t[s..e];
    assert n[..s] + n[s + |startTag|..c - |endTag|] + n[c..] == t[..s] + t[s..e] + t[e..];
    assert t[..s] + t[s..e] + t[e..] == t;
  }

  /**
   * The break buttons pass no end tag: the selection is kept (not replaced),
   * and taking the inserted tag out again gives the original text back.
   */
  lemma BreakInsertionKeepsSelection(area: Textarea, startTag: string)
    requires area.Valid()
    ensures var edit, s := InsertTag(Some(area), startTag).value, area.selectionStart;
      && edit.cursor == area.selectionEnd + |startTag|
      && edit.newText[..s] + edit.newText[s + |startTag|..] == area.value
  {
    var t, s, e := area.value, area.selectionStart, area.selectionEnd;
    InsertTagLayout(area, startTag, "");
    var edit := InsertTag(Some(area), startTag).value;
    SkipPiece(edit.newText, t, s, s + |startTag|, edit.cursor, e);
  }

  /** Text that agrees with `t` outside `n[s..k]` gives `t` back once that piece is skipped. */
  lemma SkipPiece(n: string, t: string, s: nat, k: nat, c: nat, e: nat)
    requires s <= k <= c <= |n| && s <= e <= |t|
    requires n[..s] == t[..s] && n[k..c] == t[s..e] && n[c..] == t[e..]
    ensures n[..s] + n[k..] == t
  {
    assert n[k..] == n[k..c] + n[c..];
    assert t[..s] + (t[s..e] + t[e..]) == t;
  }

  /** A toolbar button: its caption and the tag pair it inserts. */
  datatype ToolbarButton = ToolbarButton(caption: string, startTag: string, endTag: string)

  /** The toolbar's buttons: two pauses, four emotions and two pronunciation aids. */
  const PauseOneSecond := ToolbarButton("Pause 1s", "<break time=\"1s\" />", "")
  const PauseTwoSeconds := ToolbarButton("2s", "<break time=\"2s\" />", "")
  const Whisper := ToolbarButton("Whisper", "<whisper>", "</whisper>")
  const Happy := ToolbarButton("Happy", "<happy>", "</happy>")
  const Sad := ToolbarButton("Sad", "<sad>", "</sad>")
  const Excited := ToolbarButton("Excited", "<excited>", "</excited>")
  const ReadAs := ToolbarButton("Read As", "<sub alias=\"pronunciation\">", "</sub>")
  const Ipa := ToolbarButton("IPA", "<phoneme alphabet=\"ipa\" ph=\"ipa_string\">", "</phoneme>")

  /** The editor's toolbar, in display order. */
  const Toolbar: seq<ToolbarButton> := [PauseOneSecond, PauseTwoSeconds, Whisper, Happy, Sad, Excited, ReadAs, Ipa]

  /** The characters that end an element name inside a tag. */
  predicate Delimiter(c: char) {
    c == ' ' || c == '/' || c == '>'
  }

  /** `tag` opens the element `name`: it starts with `<name` followed by a delimiter. */
  predicate Opens(tag: string, name: string) {
    && name != ""
    && (forall i :: 0 <= i < |name| ==> !Delimiter(name[i]))
    && |tag| >= |name| + 2
    && tag[0] == '<'
    && tag[1..|name| + 1] == name
    && Delimiter(tag[|name| + 1])
  }

  /** Inside the element name of a tag there is no delimiter. */
  lemma NameHasNoDelimiter(tag: string, name: string, k: nat)
    requires Opens(tag, name) && k < |name|
    ensures !Delimiter(tag[k + 1])
  {
    assert tag[k + 1] == tag[1..|name| + 1][k];
  }

  /** A tag opens at most one element: its name is fixed by the tag. */
  lemma OpensUnique(tag: string, name1: string, name2: string)
    requires Opens(tag, name1) && Opens(tag, name2)
    ensures name1 == name2
  {
    if |name1| < |name2| {
      NameHasNoDelimiter(tag, name2, |name1|);
      assert false;
    } else if |name2| < |name1| {
      NameHasNoDelimiter(tag, name1, |name2|);
      assert false;
    }
    assert tag[1..|name1| + 1] == tag[1..|name2| + 1];
  }

  /** The closing tag `</name>` of an element name. */
  function ClosingTag(name: string): string {
    "</" + name + ">"
  }

  /** The tag ends in `/>`. */
  predicate SelfClosing(tag: string) {
    |tag| >= 2 && tag[|tag| - 2] == '/' && tag[|tag| - 1] == '>'
  }

  /**
   * A button either wraps the selection, and then its end tag closes the
   * element its start tag opens, or it has no end tag, and then its start tag
   * is a self-closing break element.
   */
  predicate WellPaired(b: ToolbarButton) {
    if b.endTag != "" then
      |b.endTag| >= 3 && var name := b.endTag[2..|b.endTag| - 1];
      Opens(b.startTag, name) && b.endTag == ClosingTag(name)
    else
      Opens(b.startTag, "break") && SelfClosing(b.startTag)
  }

  /**
   * A button whose start tag begins with `<name` and a delimiter and whose end
   * tag is `</name>` is well paired, when the name holds no delimiter.
   */
  lemma WrapperPaired(b: ToolbarButton, name: string, delimiter: char)
    requires name != "" && forall i :: 0 <= i < |name| ==> !Delimiter(name[i])
    requires Delimiter(delimiter)
    requires |b.startTag| >= |name| + 2 && b.startTag[..|name| + 2] == "<" + name + [delimiter]
    requires b.endTag == ClosingTag(name)
    ensures WellPaired(b)
  {
    assert b.startTag[1..|name| + 1] == b.startTag[..|name| + 2][1..|name| + 1];
    assert b.startTag[|name| + 1] == b.startTag[..|name| + 2][|name| + 1];
    assert b.endTag[2..|b.endTag| - 1] == name;
  }

  /** The two pause buttons insert self-closing break elements. */
  lemma PauseButtonsPaired()
    ensures WellPaired(PauseOneSecond) && WellPaired(PauseTwoSeconds)
  {
  }

  /** The whisper and happy buttons wrap the selection in a matching element. */
  lemma WhisperHappyButtonsPaired()
    ensures WellPaired(Whisper) && WellPaired(Happy)
  {
    WrapperPaired(Whisper, "whisper", '>');
    WrapperPaired(Happy, "happy", '>');
  }

  /** The sad and excited buttons wrap the selection in a matching element. */
  lemma SadExcitedButtonsPaired()
    ensures WellPaired(Sad) && WellPaired(Excited)
  {
    WrapperPaired(Sad, "sad", '>');
    WrapperPaired(Excited, "excited", '>');
  }

  /** The "Read As" button wraps the selection in a `sub` element. */
  lemma ReadAsButtonPaired()
    ensures WellPaired(ReadAs)
  {
    WrapperPaired(ReadAs, "sub", ' ');
  }

  /** The "IPA" button wraps the selection in a `phoneme` element. */
  lemma IpaButtonPaired()
    ensures WellPaired(Ipa)
  {
    assert Ipa.startTag[..9] == "<phoneme ";
    WrapperPaired(Ipa, "phoneme", ' ');
  }

  /** Every button of the toolbar is well paired. */
  lemma ToolbarTagsBalanced()
    ensures forall b :: b in Toolbar ==> WellPaired(b)
  {
    PauseButtonsPaired();
    WhisperHappyButtonsPaired();
    SadExcitedButtonsPaired();
    ReadAsButtonPaired();
    IpaButtonPaired();
  }
}
