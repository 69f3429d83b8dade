/**
 * The entry picker of the Retrieve page (app.py:209-214): every entry is
 * shown as `"{title} - {key[:10]}..."`, and the label the user picks is
 * mapped back to the first key, in insertion order, that has this label.
 */
module Selection {
  import opened Wrappers
  import opened Records

  /** Python's `k[:10]`: at most the first ten characters. */
  function KeyPrefix(k: string): (p: string)
    ensures |p| == if |k| < 10 then |k| else 10
    ensures p <= k
  {
    if |k| < 10 then k else k[..10]
  }

  /** The option text shown for one entry. */
  function EntryLabel(e: Entry): (shown: string)
    ensures |shown| == |e.value.title| + |KeyPrefix(e.key)| + 6
    ensures e.value.title <= shown
  {
    e.value.title + " - " + KeyPrefix(e.key) + "..."
  }

  /** The list comprehension `options`: one label per entry, in order. */
  function Options(es: seq<Entry>): (opts: seq<string>)
    ensures |opts| == |es|
    ensures forall i :: 0 <= i < |es| ==> opts[i] == EntryLabel(es[i])
  {
    seq(|es|, i requires 0 <= i < |es| => EntryLabel(es[i]))
  }

  /** Position of the first entry shown as `selected`, or `|es|` if none is. */
  function FirstShownAs(es: seq<Entry>, selected: string): (i: nat)
    ensures i <= |es|
    ensures i < |es| ==> EntryLabel(es[i]) == selected
    ensures forall j :: 0 <= j < i ==> EntryLabel(es[j]) != selected
  {
    if es == [] then 0
    else if EntryLabel(es[0]) == selected then 0
    else 1 + FirstShownAs(es[1..], selected)
  }

  /** `next((k for k, v in stored_data.items() if label == selected), None)`:
      the key of the first entry, in insertion order, shown as `selected`. */
  function SelectKey(es: seq<Entry>, selected: string): (r: Option<string>)
    ensures r.None? <==> selected !in Options(es)
    ensures r.Some? ==> exists i :: 0 <= i < |es| && es[i].key == r.value
                                    && EntryLabel(es[i]) == selected
                                    && forall j :: 0 <= j < i ==> EntryLabel(es[j]) != selected
  {
    var i := FirstShownAs(es, selected);
    if i < |es| then Some(es[i].key) else None
  }

  /** Picking the label shown for entry `i` gives back entry `i`'s key
      exactly when no earlier entry is shown with the same label. */
  lemma SelectOwnLabel(es: seq<Entry>, i: nat)
    requires KeysDistinct(es)
    requires i < |es|
    ensures SelectKey(es, EntryLabel(es[i])) == Some(es[i].key)
            <==> forall j :: 0 <= j < i ==> EntryLabel(es[j]) != EntryLabel(es[i])
  {
    var i0 := FirstShownAs(es, EntryLabel(es[i]));
    if i0 < i {
      assert es[i0].key != es[i].key;
    }
  }

  /** Two entries with the same title get the same label exactly when their
      keys agree on their first ten characters. */
  lemma SameTitleLabels(a: Entry, b: Entry)
    requires a.value.title == b.value.title
    ensures EntryLabel(a) == EntryLabel(b) <==> KeyPrefix(a.key) == KeyPrefix(b.key)
  {
    var t := a.value.title;
    var pa, pb := KeyPrefix(a.key), KeyPrefix(b.key);
    assert EntryLabel(a) == t + (" - " + pa + "...");
    assert EntryLabel(b) == t + (" - " + pb + "...");
    if EntryLabel(a) == EntryLabel(b) {
      assert |pa| == |pb|;
      assert EntryLabel(a)[|t| + 3..|t| + 3 + |pa|] == pa;
      assert EntryLabel(b)[|t| + 3..|t| + 3 + |pb|] == pb;
    }
  }

  /** An entry that shares its title and the first ten characters of its key
      with an earlier entry can never be selected on the page. */
  lemma ShadowedEntry(es: seq<Entry>, j: nat, i: nat)
    requires KeysDistinct(es)
    requires j < i < |es|
    requires es[j].value.title == es[i].value.title
    requires KeyPrefix(es[j].key) == KeyPrefix(es[i].key)
    ensures SelectKey(es, EntryLabel(es[i])) != Some(es[i].key)
  {
    SameTitleLabels(es[j], es[i]);
    SelectOwnLabel(es, i);
  }

  /** Two entries with the same title whose tokens agree on their first ten
      characters get the same label, and the later one cannot be selected:
      its label leads to the earlier key. */
  lemma LabelCollision()
    ensures var es := [Entry("gAAAAABnX1", Record("note", "gAAAAABnX1", "h")),
                       Entry("gAAAAABnX1b", Record("note", "gAAAAABnX1b", "h"))];
            && KeysDistinct(es)
            && SelectKey(es, EntryLabel(es[1])) == Some(es[0].key)
            && SelectKey(es, EntryLabel(es[1])) != Some(es[1].key)
  {
    var es := [Entry("gAAAAABnX1", Record("note", "gAAAAABnX1", "h")),
               Entry("gAAAAABnX1b", Record("note", "gAAAAABnX1b", "h"))];
    assert KeyPrefix(es[1].key) == "gAAAAABnX1";
    assert EntryLabel(es[0]) == EntryLabel(es[1]);
  }
}
