/**
 * The record store `stored_data` (app.py:64): a Python dict from a Fernet
 * ciphertext token to the record stored under it. Python dicts remember
 * insertion order, and the Retrieve page lists entries in that order, so the
 * store is an insertion-ordered sequence of key/value entries.
 */
module Records {
  import opened Wrappers

  /** One value of `stored_data`: `{title, encrypted_text, passkey}` where
      `passkey` holds the hash of the passkey, never the passkey itself. */
  datatype Record = Record(title: string, encryptedText: string, passkey: string)

  /** One key/value pair of the dict. */
  datatype Entry = Entry(key: string, value: Record)

  /** The keys of the dict, in insertion order. */
  function Keys(es: seq<Entry>): (ks: seq<string>)
    ensures |ks| == |es|
    ensures forall i :: 0 <= i < |es| ==> ks[i] == es[i].key
  {
    seq(|es|, i requires 0 <= i < |es| => es[i].key)
  }

  /** A dict never holds the same key twice. */
  predicate KeysDistinct(es: seq<Entry>) {
    forall i, j :: 0 <= i < j < |es| ==> es[i].key != es[j].key
  }

  /** `stored_data[k]` if `k in stored_data`, otherwise None. */
  function Lookup(es: seq<Entry>, k: string): (r: Option<Record>)
    ensures r.None? <==> k !in Keys(es)
    ensures r.Some? ==> exists i :: 0 <= i < |es| && es[i] == Entry(k, r.value)
  {
    if es == [] then None
    else if es[0].key == k then Some(es[0].value)
    else
      var r := Lookup(es[1..], k);
      assert Keys(es) == [es[0].key] + Keys(es[1..]);
      assert r.Some? ==> exists i :: 0 <= i < |es[1..]| && es[1..][i] == Entry(k, r.value);
      r
  }

  /** Position of key `k` in the dict, or `|es|` when `k` is absent. */
  function IndexOf(es: seq<Entry>, k: string): (i: nat)
    ensures i <= |es|
    ensures i < |es| ==> es[i].key == k
    ensures forall j :: 0 <= j < i ==> es[j].key != k
  {
    if es == [] then 0
    else if es[0].key == k then 0
    else 1 + IndexOf(es[1..], k)
  }

  /** The assignment `stored_data[k] = v`: an existing key keeps its place
      and gets the new value, a new key is appended at the end, and every
      other entry stays where it was, unchanged. */
  function Put(es: seq<Entry>, k: string, v: Record): (r: seq<Entry>)
    requires KeysDistinct(es)
    ensures Keys(r) == if k in Keys(es) then Keys(es) else Keys(es) + [k]
    ensures forall i :: 0 <= i < |es| ==> r[i] == if es[i].key == k then Entry(k, v) else es[i]
    ensures k !in Keys(es) ==> r[|es|] == Entry(k, v)
    ensures KeysDistinct(r)
  {
    var i := IndexOf(es, k);
    if i < |es| then
      assert Keys(es[i := Entry(k, v)]) == Keys(es);
      es[i := Entry(k, v)]
    else
      assert Keys(es + [Entry(k, v)]) == Keys(es) + [k];
      es + [Entry(k, v)]
  }

  /** After `stored_data[k] = v`, key `k` gives `v` and every other key
      gives what it gave before. */
  lemma {:induction false} LookupPut(es: seq<Entry>, k: string, v: Record, k': string)
    requires KeysDistinct(es)
    ensures Lookup(Put(es, k, v), k') == if k' == k then Some(v) else Lookup(es, k')
  {
    var r := Put(es, k, v);
    if es != [] {
      if es[0].key == k {
        assert r[1..] == es[1..];
      } else {
        assert r[1..] == Put(es[1..], k, v);
        LookupPut(es[1..], k, v, k');
      }
    }
  }

  /** In a dict, the value found under an entry's key is that entry's value. */
  lemma {:induction false} LookupAt(es: seq<Entry>, i: nat)
    requires KeysDistinct(es)
    requires i < |es|
    ensures Lookup(es, es[i].key) == Some(es[i].value)
  {
    if i > 0 {
      assert es[0].key != es[i].key;
      assert KeysDistinct(es[1..]);
      LookupAt(es[1..], i - 1);
    }
  }
}
