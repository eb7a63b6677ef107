/**
 * src/components/CustomMessage.js: how one transcript entry is rendered, and
 * the saved-note store behind each row's "Save" button.
 */
module CustomMessage {

  import opened Options
  import opened Transcript

  /** Which side of the chat a rendered row sits on. */
  datatype Side = UserSide | AssistantSide

  /** A rendered row: its side and the text it shows (and saves when "Save" is pressed). */
  datatype Row = Row(side: Side, text: string)

  /**
   * `CustomMessage`: a missing entry or a `system` entry renders nothing;
   * every other entry renders its content, on the user side exactly when
   * its role is `user`.
   */
  function RenderMessage(current: Option<Entry>): (r: Option<Row>)
    ensures r.None? <==> current.None? || current.value.role == "system"
    ensures r.Some? ==> r.value.text == current.value.content
    ensures r.Some? ==> (r.value.side == UserSide <==> current.value.role == "user")
  {
    if current.None? || current.value.role == "system" then None
    else
      var isUser := current.value.role == "user";
      Some(Row(if isUser then UserSide else AssistantSide, current.value.content))
  }

  /** The rows a transcript shows: every entry passed to `RenderMessage`, the empty renders dropped. */
  function VisibleRows(s: seq<Entry>): (r: seq<Row>)
    ensures |r| <= |s|
    ensures forall k :: 0 <= k < |r| ==> r[k] in RenderedRows(s)
  {
    if s == [] then []
    else
      var row := RenderMessage(Some(s[0]));
      (if row.Some? then [row.value] else []) + VisibleRows(s[1..])
  }

  /** The rows the entries of `s` render to, one per shown entry. */
  ghost function RenderedRows(s: seq<Entry>): set<Row>
  {
    set i | 0 <= i < |s| && RenderMessage(Some(s[i])).Some? :: RenderMessage(Some(s[i])).value
  }

  /** Number of entries of `s` that are not `system` entries. */
  function NonSystemCount(s: seq<Entry>): nat
  {
    if s == [] then 0 else (if s[0].role == "system" then 0 else 1) + NonSystemCount(s[1..])
  }

  /** Exactly the non-`system` entries are shown, one row each. */
  lemma {:induction false} VisibleRowsCount(s: seq<Entry>)
    ensures |VisibleRows(s)| == NonSystemCount(s)
  {
    if s != [] {
      VisibleRowsCount(s[1..]);
    }
  }

  /** A `system` entry put into the transcript changes nothing on screen. */
  lemma DirectiveHidden(s: seq<Entry>, e: Entry)
    requires e.role == "system"
    ensures VisibleRows(GiftedAppend(s, e)) == VisibleRows(s)
  {
    assert GiftedAppend(s, e)[1..] == s;
  }

  /** Any other entry put into the transcript shows as one new row in front. */
  lemma ShownEntry(s: seq<Entry>, e: Entry)
    requires e.role != "system"
    ensures VisibleRows(GiftedAppend(s, e)) == [RenderMessage(Some(e)).value] + VisibleRows(s)
  {
    assert GiftedAppend(s, e)[1..] == s;
  }

  /** A saved record `{time, message}`; `time` is the ISO-8601 text of the save moment. */
  datatype Note = Note(time: string, message: string)

  /**
   * What the `savedMessages` key holds: nothing (a null or empty, hence
   * falsy, value), a list of records, or a text that `JSON.parse` rejects.
   */
  datatype Slot = Absent | Holds(notes: seq<Note>) | Unreadable

  /** The read step `savedMessages ? JSON.parse(savedMessages) : []`; `None` is a parse error. */
  function ReadList(slot: Slot): (r: Option<seq<Note>>)
    ensures r.None? <==> slot.Unreadable?
    ensures r.Some? ==> r.value == if slot.Holds? then slot.notes else []
  {
    match slot
    case Absent => Some([])
    case Holds(notes) => Some(notes)
    case Unreadable => None
  }

  /** The slot `saveMessage` writes back, or `None` when the read step throws. */
  function AfterSave(slot: Slot, note: Note): (r: Option<Slot>)
    ensures r.Some? <==> ReadList(slot).Some?
    ensures r.Some? ==> r.value.Holds? && r.value.notes == ReadList(slot).value + [note]
  {
    match ReadList(slot)
    case Some(notes) => Some(Holds(notes + [note]))
    case None => None
  }

  /** Which storage call fails, if any, during one `saveMessage`. */
  datatype Fault = NoFault | ReadFails | WriteFails

  /** The `savedMessages` entry of the device's key-value storage. */
  class NoteStorage {

    var slot: Slot

    constructor (initial: Slot)
      ensures slot == initial
    {
      slot := initial;
    }

    /**
     * `saveMessage(message)`: read the list (empty when nothing is stored),
     * push one record at the end, write the whole list back. Every error is
     * caught; a failure before the write leaves the slot as it was.
     */
    method SaveMessage(message: string, time: string, fault: Fault) returns (saved: bool)
      modifies this
      ensures saved <==> fault == NoFault && AfterSave(old(slot), Note(time, message)).Some?
      ensures slot == if saved then AfterSave(old(slot), Note(time, message)).value else old(slot)
    {
      if fault == ReadFails {
        return false;
      }
      var read := ReadList(slot);
      if read.None? {
        return false;
      }
      var messages := read.value;
      messages := messages + [Note(time, message)];
      if fault == WriteFails {
        return false;
      }
      slot := Holds(messages);
      saved := true;
    }
  }

  /** With nothing stored, a save leaves exactly the one new record. */
  lemma SaveOntoAbsent(note: Note)
    ensures AfterSave(Absent, note) == Some(Holds([note]))
    ensures ReadList(AfterSave(Absent, note).value) == Some([note])
  {
    assert [] + [note] == [note];
  }

  /**
   * Save then load: the list read back is the earlier list with the new
   * record at its end; earlier records are unchanged and keep their order.
   */
  lemma SaveThenLoad(slot: Slot, note: Note)
    requires ReadList(slot).Some?
    ensures AfterSave(slot, note).Some?
    ensures var before := ReadList(slot).value;
            var after := ReadList(AfterSave(slot, note).value);
            after.Some? && |after.value| == |before| + 1 &&
            after.value[..|before|] == before && after.value[|before|] == note
  {
    var before := ReadList(slot).value;
    assert (before + [note])[..|before|] == before;
  }

  /** Number of records whose `message` is `text`. */
  function Count(notes: seq<Note>, text: string): nat
  {
    if notes == [] then 0 else (if notes[0].message == text then 1 else 0) + Count(notes[1..], text)
  }

  /** A record put at the end of a list adds one to the count of its own text and nothing to others. */
  lemma {:induction false} CountAppend(notes: seq<Note>, note: Note, text: string)
    ensures Count(notes + [note], text) == Count(notes, text) + (if note.message == text then 1 else 0)
    decreases |notes|
  {
    if notes == [] {
      assert [] + [note] == [note];
      assert [note][1..] == [];
    } else {
      assert (notes + [note])[1..] == notes[1..] + [note];
      CountAppend(notes[1..], note, text);
    }
  }

  /** A save raises the count of `text` by one when the saved text is `text`, and leaves it otherwise. */
  lemma CountSaved(slot: Slot, note: Note, text: string)
    requires ReadList(slot).Some?
    ensures Count(ReadList(AfterSave(slot, note).value).value, text)
         == Count(ReadList(slot).value, text) + (if note.message == text then 1 else 0)
  {
    CountAppend(ReadList(slot).value, note, text);
  }

  /** No deduplication: saving the same text twice leaves two more records of it. */
  lemma {:induction false} SavedTwice(slot: Slot, first: string, second: string, text: string)
    requires ReadList(slot).Some?
    ensures AfterSave(slot, Note(first, text)).Some?
    ensures var once := AfterSave(slot, Note(first, text)).value;
            AfterSave(once, Note(second, text)).Some? &&
            Count(ReadList(AfterSave(once, Note(second, text)).value).value, text)
              == Count(ReadList(slot).value, text) + 2
  {
    var once := AfterSave(slot, Note(first, text)).value;
    CountSaved(slot, Note(first, text), text);
    CountSaved(once, Note(second, text), text);
  }
}
