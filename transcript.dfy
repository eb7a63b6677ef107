/**
 * Transcript entries as App.js builds them, the two-field view of an entry
 * that `removeKeys` produces, and the insertion convention of
 * `GiftedChat.append`.
 */
module Transcript {

  /** A transcript entry: `_id` (a millisecond timestamp), `user._id`, `role` and `content`. */
  datatype Entry = Entry(id: int, user: int, role: string, content: string)

  /** What is left of an entry once `_id` and `user` are taken out: `{role, content}`. */
  datatype Message = Message(role: string, content: string)

  /** One step of `removeKeys`: the destructuring that drops `_id` and `user`. */
  function Strip(e: Entry): Message
  {
    Message(e.role, e.content)
  }

  /** `removeKeys`: strips `_id` and `user` from every entry, keeping length and order. */
  function RemoveKeys(s: seq<Entry>): (r: seq<Message>)
    ensures |r| == |s|
    ensures forall i :: 0 <= i < |s| ==> r[i].role == s[i].role && r[i].content == s[i].content
  {
    if s == [] then [] else [Strip(s[0])] + RemoveKeys(s[1..])
  }

  /** Stripping a joined transcript is joining the stripped parts. */
  lemma {:induction false} RemoveKeysConcat(a: seq<Entry>, b: seq<Entry>)
    ensures RemoveKeys(a + b) == RemoveKeys(a) + RemoveKeys(b)
  {
    if a != [] {
      assert (a + b)[1..] == a[1..] + b;
      RemoveKeysConcat(a[1..], b);
    }
  }

  /**
   * `GiftedChat.append(previous, e)` in the library's default (inverted)
   * mode: the newest entry is put in front of all earlier ones.
   */
  function GiftedAppend(previous: seq<Entry>, e: Entry): (r: seq<Entry>)
    ensures |r| == |previous| + 1 && r[0] == e && r[1..] == previous
  {
    [e] + previous
  }

  /** The transcript read oldest first (GiftedChat keeps it newest first). */
  function Chronological(s: seq<Entry>): (r: seq<Entry>)
    ensures |r| == |s|
  {
    if s == [] then [] else Chronological(s[1..]) + [s[0]]
  }

  /** One insertion, read oldest first, puts the entry last. */
  lemma ChronologicalAppend(s: seq<Entry>, e: Entry)
    ensures Chronological(GiftedAppend(s, e)) == Chronological(s) + [e]
  {
    assert GiftedAppend(s, e)[1..] == s;
  }

  /** Entries arriving one after another, each put in by `GiftedAppend`. */
  function AppendAll(s: seq<Entry>, arrivals: seq<Entry>): seq<Entry>
    decreases |arrivals|
  {
    if arrivals == [] then s else AppendAll(GiftedAppend(s, arrivals[0]), arrivals[1..])
  }

  /**
   * Append-only: after any run of insertions the earlier transcript is still
   * there, untouched and in order, and the new entries follow it in arrival
   * order when the transcript is read oldest first.
   */
  lemma {:induction false} AppendAllChronological(s: seq<Entry>, arrivals: seq<Entry>)
    ensures Chronological(AppendAll(s, arrivals)) == Chronological(s) + arrivals
    decreases |arrivals|
  {
    if arrivals != [] {
      var next := GiftedAppend(s, arrivals[0]);
      ChronologicalAppend(s, arrivals[0]);
      AppendAllChronological(next, arrivals[1..]);
      assert [arrivals[0]] + arrivals[1..] == arrivals;
    }
  }

  /** In the stored (newest-first) order, the earlier transcript is the tail. */
  lemma {:induction false} AppendAllKeepsPrior(s: seq<Entry>, arrivals: seq<Entry>)
    ensures |AppendAll(s, arrivals)| == |s| + |arrivals|
    ensures AppendAll(s, arrivals)[|arrivals|..] == s
    decreases |arrivals|
  {
    if arrivals != [] {
      var next := GiftedAppend(s, arrivals[0]);
      AppendAllKeepsPrior(next, arrivals[1..]);
      var r := AppendAll(next, arrivals[1..]);
      assert r[|arrivals| - 1..][1..] == r[|arrivals|..];
      assert next[1..] == s;
    }
  }
}
