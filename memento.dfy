/** The text editor with undo: an editor whose text and cursor change as the
    user types, snapshots that capture that state, and a stack of snapshots
    that undo pops. */
module Memento {

  /** Editor.LINE_WITDH: the width the cursor arithmetic and the rendering
      wrap at. */
  const LineWidth := 20

  /** The three fields of an editor, as one value. */
  datatype EditorState = EditorState(text: string, curX: int, curY: int)

  /** A new editor: no text, cursor at the origin. */
  const Initial := EditorState("", 0, 0)

  /** The cursor as a single offset: a full line counts LineWidth. */
  function Offset(st: EditorState): int
  {
    LineWidth * st.curY + st.curX
  }

  /** What type(s) does to the state: the text grows by `s`, the column by
      |s| % 20 and the line by |s| / 20. The column is never wrapped back. */
  function AfterType(st: EditorState, s: string): (r: EditorState)
    ensures r.text == st.text + s
    ensures Offset(r) == Offset(st) + |s|
    ensures st.curX <= r.curX < st.curX + LineWidth && st.curY <= r.curY
  {
    EditorState(st.text + s, st.curX + |s| % LineWidth, st.curY + |s| / LineWidth)
  }

  /** The number of line breaks toString puts among the first `n`
      characters: one after each character whose index is a positive
      multiple of 20. */
  function Breaks(n: nat): nat
  {
    if n == 0 then 0 else (n - 1) / LineWidth
  }

  /** The loop of toString after `n` characters: each character is copied
      and followed by a line break when its index is a positive multiple of
      20. */
  function Body(t: string, n: nat): string
    requires n <= |t|
  {
    if n == 0 then ""
    else
      var cc := n - 1;
      Body(t, cc) + [t[cc]] + (if cc != 0 && cc % LineWidth == 0 then "\n" else "")
  }

  /** What toString returns: the wrapped text and the "_" cursor mark. */
  function Rendered(t: string): string
  {
    Body(t, |t|) + "_"
  }

  /** Where the characters land in the rendering of the first `n`
      characters: character i sits after i characters and Breaks(i) line
      breaks, and nothing else is added. */
  lemma {:induction false} BodyChars(t: string, n: nat)
    requires n <= |t|
    ensures |Body(t, n)| == n + Breaks(n)
    ensures forall i :: 0 <= i < n ==> Body(t, n)[i + Breaks(i)] == t[i]
  {
    if n > 0 {
      var cc := n - 1;
      BodyChars(t, cc);
      assert Breaks(n) == Breaks(cc) + (if cc != 0 && cc % LineWidth == 0 then 1 else 0);
      var prev := Body(t, cc);
      assert forall i :: 0 <= i < |prev| ==> Body(t, n)[i] == prev[i];
    }
  }

  /** A line break follows each character whose index is a positive
      multiple of 20. */
  lemma {:induction false} BodyBreaks(t: string, n: nat)
    requires n <= |t|
    ensures forall k :: 1 <= k < n && k % LineWidth == 0 ==> |Body(t, n)| > k + Breaks(k) + 1 && Body(t, n)[k + Breaks(k) + 1] == '\n'
  {
    if n > 0 {
      var cc := n - 1;
      BodyBreaks(t, cc);
      BodyChars(t, cc);
      var prev := Body(t, cc);
      assert forall i :: 0 <= i < |prev| ==> Body(t, n)[i] == prev[i];
    }
  }

  /** The rendering in full: the characters of the text in order with a
      line break after index 20, 40, ..., and "_" last. The empty text is
      rendered "_". */
  lemma RenderedLayout(t: string)
    ensures |Rendered(t)| == |t| + Breaks(|t|) + 1
    ensures Rendered(t)[|Rendered(t)| - 1] == '_'
    ensures forall i :: 0 <= i < |t| ==> Rendered(t)[i + Breaks(i)] == t[i]
    ensures forall k :: 1 <= k < |t| && k % LineWidth == 0 ==> Rendered(t)[k + Breaks(k) + 1] == '\n'
    ensures t == "" ==> Rendered(t) == "_"
  {
    BodyChars(t, |t|);
    BodyBreaks(t, |t|);
  }

  /** Up to 20 characters are rendered with no break (the first one comes
      after the 21st character, index 20). */
  lemma {:induction false} ShortBody(t: string, n: nat)
    requires n <= |t| && n <= LineWidth
    ensures Body(t, n) == t[..n]
  {
    if n > 0 {
      ShortBody(t, n - 1);
      assert t[..n] == t[..n - 1] + [t[n - 1]];
    }
  }

  lemma ShortRendered(t: string)
    requires |t| <= LineWidth
    ensures Rendered(t) == t + "_"
  {
    ShortBody(t, |t|);
    assert t[..|t|] == t;
  }

  class Editor {
    var text: string
    var curX: int
    var curY: int

    constructor ()
      ensures State() == Initial
    {
      text := "";
      curX := 0;
      curY := 0;
    }

    function State(): EditorState
      reads this
    {
      EditorState(text, curX, curY)
    }

    method SetText(t: string)
      modifies this
      ensures State() == old(State()).(text := t)
    {
      text := t;
    }

    method SetCurX(x: int)
      modifies this
      ensures State() == old(State()).(curX := x)
    {
      curX := x;
    }

    method SetCurY(y: int)
      modifies this
      ensures State() == old(State()).(curY := y)
    {
      curY := y;
    }

    method Type(s: string)
      modifies this
      ensures State() == AfterType(old(State()), s)
    {
      text := text + s;
      curX := curX + |s| % LineWidth;
      curY := curY + |s| / LineWidth;
    }

    /** A snapshot of the current state, bound to this editor. */
    method CreateSnapshot() returns (snap: Snapshot)
      ensures fresh(snap)
      ensures snap.editor == this && snap.Captured() == State()
    {
      snap := new Snapshot(this, text, curX, curY);
    }

    /** The StringBuilder loop of toString. */
    method ToString() returns (s: string)
      ensures s == Rendered(text)
    {
      var sb := "";
      var cc := 0;
      while cc < |text|
        invariant 0 <= cc <= |text|
        invariant sb == Body(text, cc)
      {
        sb := sb + [text[cc]];
        if cc != 0 && cc % LineWidth == 0 {
          sb := sb + "\n";
        }
        cc := cc + 1;
      }
      s := sb + "_";
    }
  }

  /** A captured state, fixed at construction, and the editor it restores. */
  class Snapshot {
    const editor: Editor
    const text: string
    const curX: int
    const curY: int

    constructor (editor: Editor, text: string, curX: int, curY: int)
      ensures this.editor == editor && Captured() == EditorState(text, curX, curY)
    {
      this.editor := editor;
      this.text := text;
      this.curX := curX;
      this.curY := curY;
    }

    function Captured(): EditorState
    {
      EditorState(text, curX, curY)
    }

    /** Writes the three captured fields back; the result does not depend
        on the editor's state before, so restoring twice is restoring once. */
    method Restore()
      modifies editor
      ensures editor.State() == Captured()
    {
      editor.SetText(text);
      editor.SetCurX(curX);
      editor.SetCurY(curY);
    }
  }

  /** The undo stack; its last element is the top. */
  class SnapshotHandler {
    var stack: seq<Snapshot>

    constructor ()
      ensures stack == []
    {
      stack := [];
    }

    method Backup(snap: Snapshot)
      modifies this
      ensures stack == old(stack) + [snap]
    {
      stack := stack + [snap];
    }

    /** Pops the most recent snapshot and restores it; an empty stack
        changes nothing. */
    method Undo()
      modifies this, if stack == [] then {} else {stack[|stack| - 1].editor}
      ensures old(stack) == [] ==> stack == []
      ensures old(stack) != [] ==>
        stack == old(stack)[..|old(stack)| - 1]
        && old(stack)[|old(stack)| - 1].editor.State() == old(stack)[|old(stack)| - 1].Captured()
    {
      if stack != [] {
        var top := stack[|stack| - 1];
        stack := stack[..|stack| - 1];
        top.Restore();
      }
    }
  }
}

module MementoScenarios {
  import opened Memento

  /** Restoring a snapshot undoes whatever was typed since it was taken. */
  method TypeThenRestore(editor: Editor, s: string)
    modifies editor
    ensures editor.State() == old(editor.State())
  {
    var snap := editor.CreateSnapshot();
    editor.Type(s);
    snap.Restore();
  }

  /** Restoring twice leaves the editor as restoring once does. */
  method RestoreTwice(editor: Editor, snap: Snapshot)
    requires snap.editor == editor
    modifies editor
    ensures editor.State() == snap.Captured()
  {
    snap.Restore();
    snap.Restore();
  }

  /** Two 19-character inputs leave the column at 38: it is not wrapped. */
  method ColumnIsNotWrapped() returns (x: int, y: int)
    ensures x == 38 && y == 0
  {
    var editor := new Editor();
    editor.Type("abcdefghijklmnopqrs");
    editor.Type("abcdefghijklmnopqrs");
    x, y := editor.curX, editor.curY;
  }

  /** One step of the demo: back up the editor, type `s`, render. */
  method BackupThenType(editor: Editor, handler: SnapshotHandler, s: string) returns (shown: string)
    modifies editor, handler
    ensures |handler.stack| == |old(handler.stack)| + 1
    ensures handler.stack[..|old(handler.stack)|] == old(handler.stack)
    ensures handler.stack[|old(handler.stack)|].editor == editor
    ensures handler.stack[|old(handler.stack)|].Captured() == old(editor.State())
    ensures editor.State() == AfterType(old(editor.State()), s)
    ensures shown == Rendered(editor.text)
  {
    var snap := editor.CreateSnapshot();
    handler.Backup(snap);
    editor.Type(s);
    shown := editor.ToString();
  }

  /** The first half of the demo: backup, type "Hello,", backup, type
      " there!", with the rendering after each typing. */
  method BackupAndType() returns (editor: Editor, handler: SnapshotHandler, r1: string, r2: string)
    ensures fresh(editor) && fresh(handler)
    ensures |handler.stack| == 2
    ensures handler.stack[0].editor == editor && handler.stack[1].editor == editor
    ensures handler.stack[0].Captured() == Initial
    ensures handler.stack[1].Captured() == EditorState("Hello,", 6, 0)
    ensures r1 == "Hello,_" && r2 == "Hello, there!_"
  {
    editor := new Editor();
    handler := new SnapshotHandler();
    r1 := BackupThenType(editor, handler, "Hello,");
    assert editor.State() == EditorState("Hello,", 6, 0);
    ShortRendered("Hello,");
    r2 := BackupThenType(editor, handler, " there!");
    assert editor.text == "Hello, there!";
    ShortRendered("Hello, there!");
  }

  /** The demo: backup, type, backup, type, undo, undo; the renderings after
      each step, and the editor back in its initial state. */
  method Application() returns (shown: seq<string>, last: EditorState)
    ensures shown == ["Hello,_", "Hello, there!_", "Hello,_", "_"]
    ensures last == Initial
  {
    var editor, handler, r1, r2 := BackupAndType();
    handler.Undo();
    assert editor.text == "Hello,";
    var r3 := editor.ToString();
    ShortRendered("Hello,");
    assert r3 == "Hello,_";
    handler.Undo();
    assert editor.text == "";
    var r4 := editor.ToString();
    RenderedLayout("");
    assert r4 == "_";
    shown := [r1, r2, r3, r4];
    last := editor.State();
  }
}
