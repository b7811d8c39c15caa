/** What the client makes of a tool result: the lines of text shown to the
    user, and the length-capped serialisation that re-enters the history. */
module ToolOutput {

  import opened Wrappers
  import opened Json

  /** A content item the client treats as text: an object whose `type` is the string "text". */
  predicate IsTextItem(item: Json) {
    item.JObject? && "type" in item.fields && item.fields["type"] == JString("text")
  }

  /** The line a text item contributes: its `text` field as the final
      `join` renders it (a missing field renders as the empty string). */
  function ItemText(item: Json): string
    requires IsTextItem(item)
  {
    JoinRendering(if "text" in item.fields then Some(item.fields["text"]) else None)
  }

  /** The lines the loop over an array of content items pushes. */
  function TextsOf(items: seq<Json>): seq<string>
    decreases |items|
  {
    if items == [] then []
    else
      var last := items[|items| - 1];
      TextsOf(items[..|items| - 1]) + (if IsTextItem(last) then [ItemText(last)] else [])
  }

  /** The lines a tool result's content adds to the output: the text items of
      an array, or the `String(...)` of any other value. */
  function Extracted(content: Json): seq<string> {
    if content.JArray? then TextsOf(content.elements) else [JsString(content)]
  }

  lemma {:induction false} TextsOfConcat(a: seq<Json>, b: seq<Json>)
    ensures TextsOf(a + b) == TextsOf(a) + TextsOf(b)
    decreases |b|
  {
    if b == [] {
      assert a + b == a;
    } else {
      var b' := b[..|b| - 1];
      assert (a + b)[..|a + b| - 1] == a + b';
      TextsOfConcat(a, b');
    }
  }

  /** A line is extracted from an item array exactly when it is the text of one of its text items. */
  lemma {:induction false} TextsOfMembers(items: seq<Json>, t: string)
    ensures t in TextsOf(items) <==>
      exists i :: 0 <= i < |items| && IsTextItem(items[i]) && ItemText(items[i]) == t
    decreases |items|
  {
    if items != [] {
      var init := items[..|items| - 1];
      TextsOfMembers(init, t);
      if t in TextsOf(init) {
        var i :| 0 <= i < |init| && IsTextItem(init[i]) && ItemText(init[i]) == t;
        assert items[i] == init[i];
      }
      if exists i :: 0 <= i < |items| && IsTextItem(items[i]) && ItemText(items[i]) == t {
        var i :| 0 <= i < |items| && IsTextItem(items[i]) && ItemText(items[i]) == t;
        if i < |init| {
          assert init[i] == items[i];
        }
      }
    }
  }

  /** When every item is text, the output is their texts one for one. */
  lemma {:induction false} TextsOfAllText(items: seq<Json>)
    requires forall i :: 0 <= i < |items| ==> IsTextItem(items[i])
    ensures |TextsOf(items)| == |items|
    ensures forall i :: 0 <= i < |items| ==> TextsOf(items)[i] == ItemText(items[i])
    decreases |items|
  {
    if items != [] {
      TextsOfAllText(items[..|items| - 1]);
    }
  }

  /** Items of other kinds add nothing. */
  lemma {:induction false} TextsOfNoText(items: seq<Json>)
    requires forall i :: 0 <= i < |items| ==> !IsTextItem(items[i])
    ensures TextsOf(items) == []
    decreases |items|
  {
    if items != [] {
      TextsOfNoText(items[..|items| - 1]);
    }
  }

  /** Content that is not an array adds exactly one line, its `String(...)`. */
  lemma ExtractedNonArray(content: Json)
    requires !content.JArray?
    ensures Extracted(content) == [JsString(content)]
  {
  }

  const MaxToolContent := 1000

  /** "... [truncated]" as code units. */
  const TruncationMarker: JsText := [46, 46, 46, 32, 91, 116, 114, 117, 110, 99, 97, 116, 101, 100, 93]

  lemma TruncationMarkerText()
    ensures TruncationMarker == Utf16("... [truncated]")
  {
    var m := "... [truncated]";
    assert forall i :: 0 <= i < |m| ==> m[i] as int < 0x1_0000;
    assert forall i :: 0 <= i < |m| ==> TruncationMarker[i] as int == m[i] as int;
    Utf16Bmp(m);
  }

  /** The history copy of a serialised tool result: unchanged up to 1000 code
      units, otherwise its first 1000 code units and the marker. Lengths and
      the cut count UTF-16 code units, as JavaScript's `length` and `slice`
      do, so the cut may fall between the two halves of a surrogate pair. */
  function Cap(s: JsText): (r: JsText)
    ensures |s| <= MaxToolContent ==> r == s
    ensures |s| > MaxToolContent ==>
      |r| == MaxToolContent + |TruncationMarker| == 1015 &&
      r[..MaxToolContent] == s[..MaxToolContent] && r[MaxToolContent..] == TruncationMarker
    ensures |r| <= 1015
  {
    if |s| > MaxToolContent then s[..MaxToolContent] + TruncationMarker else s
  }

  /** Capping a capped copy changes nothing. */
  lemma CapIdempotent(s: JsText)
    ensures Cap(Cap(s)) == Cap(s)
  {
    if |s| > MaxToolContent {
      var c := Cap(s);
      assert c[..MaxToolContent] + TruncationMarker == c;
    }
  }

  /** The strings capping leaves alone: the short ones, and the 1015-unit
      ones that already end in the marker. */
  lemma CapFixpoint(s: JsText)
    ensures Cap(s) == s <==>
      |s| <= MaxToolContent || (|s| == 1015 && s[MaxToolContent..] == TruncationMarker)
  {
    if |s| == 1015 && s[MaxToolContent..] == TruncationMarker {
      assert s[..MaxToolContent] + s[MaxToolContent..] == s;
    }
  }

  /** The bound counts code units, not characters: 600 characters outside
      the Basic Multilingual Plane are 1200 code units, and are cut. */
  lemma CapCountsCodeUnits()
    ensures var s := seq(600, i => '\U{1F327}');
      |s| == 600 && |Utf16(s)| == 1200 && Cap(Utf16(s)) != Utf16(s) && |Cap(Utf16(s))| == 1015
  {
    var s := seq(600, i => '\U{1F327}');
    Utf16Astral(s);
  }
}
