/** The transcript pane (src/app/components/Transcript.tsx): the in-place
    ordering of the items by creation time, what each item renders as, the
    bracketed-message rule, the breadcrumb click, and when the pane scrolls
    to the bottom. Markdown, animation and clipboard are not part of this model. */
module Transcript {
  import opened Lists
  import opened Text

  datatype ItemType = MessageItem | BreadcrumbItem

  datatype Role = User | Assistant

  /** The identity of a breadcrumb's data object: the change test compares
      data by reference, so two payloads with equal contents but built
      separately count as different. */
  datatype DataRef = DataRef(ref: nat)

  datatype TranscriptItem = TranscriptItem(
    itemId: string,
    itemType: ItemType,
    role: Role,
    title: Option<string>,
    data: Option<DataRef>,
    expanded: bool,
    timestamp: string,
    createdAtMs: int,
    isHidden: bool)

  /** What an item renders as. */
  datatype ItemView =
    | MessageView(itemId: string, isUser: bool, italic: bool, text: string, timestamp: string)
    | BreadcrumbView(itemId: string, title: string, clickable: bool, showsData: bool, timestamp: string)

  /** `title = ""`: a missing title reads as empty. */
  function TitleText(item: TranscriptItem): string {
    if item.title.Some? then item.title.value else ""
  }

  predicate SortedByCreation(s: seq<TranscriptItem>) {
    forall p, q :: 0 <= p < q < |s| ==> s[p].createdAtMs <= s[q].createdAtMs
  }

  /** `transcriptItems.sort((a, b) => a.createdAtMs - b.createdAtMs)`: the
      items are reordered in place into non-decreasing creation time; none
      is added or dropped, hidden ones included. */
  method SortByCreation(a: array<TranscriptItem>)
    modifies a
    ensures SortedByCreation(a[..])
    ensures multiset(a[..]) == multiset(old(a[..]))
  {
    for i := 0 to a.Length
      invariant forall p, q :: 0 <= p < q < i ==> a[p].createdAtMs <= a[q].createdAtMs
      invariant multiset(a[..]) == multiset(old(a[..]))
    {
      InsertIntoSortedPrefix(a, i);
    }
  }

  /** Moves `a[i]` left past every earlier item created later, so that the
      first `i + 1` items are in order. */
  method InsertIntoSortedPrefix(a: array<TranscriptItem>, i: nat)
    requires i < a.Length
    requires forall p, q :: 0 <= p < q < i ==> a[p].createdAtMs <= a[q].createdAtMs
    modifies a
    ensures forall p, q :: 0 <= p < q <= i ==> a[p].createdAtMs <= a[q].createdAtMs
    ensures multiset(a[..]) == multiset(old(a[..]))
  {
    var j := i;
    while j > 0 && a[j - 1].createdAtMs > a[j].createdAtMs
      invariant 0 <= j <= i
      invariant forall p, q :: 0 <= p < q <= i && p != j && q != j ==> a[p].createdAtMs <= a[q].createdAtMs
      invariant forall q :: j < q <= i ==> a[j].createdAtMs < a[q].createdAtMs
      invariant multiset(a[..]) == multiset(old(a[..]))
    {
      SwapWithPrevious(a, j);
      j := j - 1;
    }
  }

  /** Exchanges `a[j - 1]` and `a[j]` and leaves every other slot alone. */
  method SwapWithPrevious(a: array<TranscriptItem>, j: nat)
    requires 0 < j < a.Length
    modifies a
    ensures a[j - 1] == old(a[j]) && a[j] == old(a[j - 1])
    ensures forall m :: 0 <= m < a.Length && m != j - 1 && m != j ==> a[m] == old(a[m])
    ensures multiset(a[..]) == multiset(old(a[..]))
  {
    a[j - 1], a[j] := a[j], a[j - 1];
  }

  /** The bracket test: the title starts with `[` and ends with `]`. */
  predicate IsBracketed(title: string) {
    StartsWith(title, "[") && EndsWith(title, "]")
  }

  /** `title.replace(/^\[|\]$/g, "")`: one leading `[` and one trailing `]`
      are dropped, each wherever it is present. */
  function StripBrackets(title: string): (r: string)
    ensures var front := if StartsWith(title, "[") then 1 else 0;
            var back := if EndsWith(title, "]") then 1 else 0;
            front + back <= |title| && r == title[front..|title| - back]
  {
    var front := if StartsWith(title, "[") then 1 else 0;
    var t := title[front..];
    // Both bracket tests are tests of one character.
    assert StartsWith(title, "[") <==> |title| >= 1 && title[0] == '[' by {
      if |title| >= 1 { assert title[..1] == [title[0]]; }
    }
    assert EndsWith(title, "]") <==> |title| >= 1 && title[|title| - 1] == ']' by {
      if |title| >= 1 { assert title[|title| - 1..] == [title[|title| - 1]]; }
    }
    assert EndsWith(t, "]") <==> |t| >= 1 && t[|t| - 1] == ']' by {
      if |t| >= 1 { assert t[|t| - 1..] == [t[|t| - 1]]; }
    }
    // Dropping a leading `[` keeps the last character, unless it was that `[`.
    assert EndsWith(t, "]") <==> EndsWith(title, "]") by {
      if |t| >= 1 { assert t[|t| - 1] == title[|title| - 1]; }
      if |title| == 1 && front == 1 { assert title[0] == '['; }
    }
    if EndsWith(t, "]") then
      assert t[..|t| - 1] == title[front..|title| - 1];
      t[..|t| - 1]
    else
      assert t == title[front..|title|];
      t
  }

  /** A bracketed title is the stripped text between the two brackets. */
  lemma StripBracketedTitle(title: string)
    requires IsBracketed(title) && |title| >= 2
    ensures "[" + StripBrackets(title) + "]" == title
  {
    var r := StripBrackets(title);
    assert title == title[..1] + title[1..|title| - 1] + title[|title| - 1..];
  }

  /** Stripping leaves a title without brackets at either end as it is. */
  lemma StripUnbracketedTitle(title: string)
    requires !StartsWith(title, "[") && !EndsWith(title, "]")
    ensures StripBrackets(title) == title
  {
    assert title[0..|title|] == title;
  }

  /** What an item renders as: nothing when it is hidden; a message with the
      stripped title, in italics when bracketed; or a breadcrumb, clickable
      exactly when it carries data. */
  function RenderItem(item: TranscriptItem): (r: Option<ItemView>)
    ensures r.None? <==> item.isHidden
    ensures r.Some? ==> r.value.itemId == item.itemId && r.value.timestamp == item.timestamp
    ensures r.Some? && item.itemType == MessageItem ==>
              r.value.MessageView? &&
              r.value.isUser == (item.role == User) &&
              r.value.italic == IsBracketed(TitleText(item)) &&
              r.value.text == StripBrackets(TitleText(item))
    ensures r.Some? && item.itemType == BreadcrumbItem ==>
              r.value.BreadcrumbView? &&
              r.value.title == TitleText(item) &&
              r.value.clickable == item.data.Some? &&
              r.value.showsData == (item.expanded && item.data.Some?)
  {
    if item.isHidden then None
    else
      var title := TitleText(item);
      match item.itemType
      case MessageItem =>
        Some(MessageView(item.itemId, item.role == User, IsBracketed(title), StripBrackets(title), item.timestamp))
      case BreadcrumbItem =>
        Some(BreadcrumbView(item.itemId, title, item.data.Some?, item.expanded && item.data.Some?, item.timestamp))
  }

  /** The breadcrumb click: the id to toggle, present only when the item carries data. */
  function BreadcrumbClick(item: TranscriptItem): (r: Option<string>)
    ensures r.Some? <==> item.data.Some?
    ensures r.Some? ==> r.value == item.itemId
  {
    if item.data.Some? then Some(item.itemId) else None
  }

  /** An item at a shared index whose title or data differs. */
  predicate ChangedAt(prev: seq<TranscriptItem>, items: seq<TranscriptItem>, i: int) {
    0 <= i < |items| && i < |prev| && (items[i].title != prev[i].title || items[i].data != prev[i].data)
  }

  /** The scroll test: the list grew, or an item's title or data changed. */
  predicate ScrollNeeded(prev: seq<TranscriptItem>, items: seq<TranscriptItem>) {
    |items| > |prev| || exists i :: 0 <= i < |items| && ChangedAt(prev, items, i)
  }

  class TranscriptView {
    var prevLogs: seq<TranscriptItem>

    constructor ()
      ensures prevLogs == []
    {
      prevLogs := [];
    }

    /** The effect run when the items change: reports whether to scroll, and
        remembers the items for the next run. */
    method OnItemsChanged(items: seq<TranscriptItem>) returns (scroll: bool)
      modifies this
      ensures scroll == ScrollNeeded(old(prevLogs), items)
      ensures prevLogs == items
    {
      var hasNewMessage := |items| > |prevLogs|;
      var hasUpdatedMessage := false;
      var index := 0;
      while index < |items|
        invariant 0 <= index <= |items|
        invariant hasUpdatedMessage <==> exists i :: 0 <= i < index && ChangedAt(prevLogs, items, i)
      {
        if index < |prevLogs| &&
           (items[index].title != prevLogs[index].title || items[index].data != prevLogs[index].data) {
          assert ChangedAt(prevLogs, items, index);
          hasUpdatedMessage := true;
        } else {
          assert !ChangedAt(prevLogs, items, index);
        }
        index := index + 1;
      }
      scroll := hasNewMessage || hasUpdatedMessage;
      prevLogs := items;
    }
  }

  /** A new item at the end scrolls. */
  lemma ScrollOnAppend(prev: seq<TranscriptItem>, item: TranscriptItem)
    ensures ScrollNeeded(prev, prev + [item])
  {
  }

  /** Re-running with the same items does not scroll, nor does dropping
      items from the end. */
  lemma NoScrollOnPrefix(prev: seq<TranscriptItem>, n: nat)
    requires n <= |prev|
    ensures !ScrollNeeded(prev, prev[..n])
  {
  }

  /** A changed title at an existing index scrolls. */
  lemma ScrollOnRetitle(prev: seq<TranscriptItem>, i: nat, title: Option<string>)
    requires i < |prev| && title != prev[i].title
    ensures ScrollNeeded(prev, prev[i := prev[i].(title := title)])
  {
    assert ChangedAt(prev, prev[i := prev[i].(title := title)], i);
  }
}
