/** A decoded JSON object of string values, as the handlers receive it from
    `json.Decoder.Decode` into a `map[string]string`. The entries are kept in
    the order a range loop over the Go map visits them; Go randomises that
    order, so every property below holds for every order. */
module Payload {

  /** No key occurs twice: the entries come from a Go map. */
  predicate DistinctKeys(es: seq<(string, string)>) {
    forall i, j :: 0 <= i < j < |es| ==> es[i].0 != es[j].0
  }

  type Entries = es: seq<(string, string)> | DistinctKeys(es)

  /** The keys of the entries. */
  function KeysOf(es: seq<(string, string)>): (ks: set<string>)
    ensures forall i :: 0 <= i < |es| ==> es[i].0 in ks
    ensures forall k :: k in ks ==> exists i :: 0 <= i < |es| && es[i].0 == k
    ensures DistinctKeys(es) ==> |ks| == |es|
  {
    if |es| == 0 then {}
    else
      var rest := KeysOf(es[1..]);
      DistinctTail(es);
      {es[0].0} + rest
  }

  /** `data` with each entry written in turn, as successive map assignments. */
  function Overlay(data: map<string, string>, es: seq<(string, string)>): map<string, string>
    decreases |es|
  {
    if |es| == 0 then data else Overlay(data[es[0].0 := es[0].1], es[1..])
  }

  /** The Go map the entries were read from. */
  function ToMap(es: Entries): map<string, string> {
    Overlay(map[], es)
  }

  /** Writing the entries adds exactly their keys. */
  lemma {:induction false} OverlayKeys(data: map<string, string>, es: seq<(string, string)>)
    ensures Overlay(data, es).Keys == data.Keys + KeysOf(es)
    decreases |es|
  {
    if |es| > 0 {
      OverlayKeys(data[es[0].0 := es[0].1], es[1..]);
    }
  }

  /** Dropping the first of distinct-key entries keeps them distinct, and
      the remaining entries do not repeat the first key. */
  lemma DistinctTail(es: seq<(string, string)>)
    requires |es| > 0
    ensures DistinctKeys(es) ==> DistinctKeys(es[1..])
    ensures DistinctKeys(es) ==> forall i :: 0 <= i < |es[1..]| ==> es[1..][i].0 != es[0].0
  {
    if DistinctKeys(es) {
      forall i, j | 0 <= i < j < |es[1..]| ensures es[1..][i].0 != es[1..][j].0 {
        assert es[1..][i] == es[i + 1] && es[1..][j] == es[j + 1];
      }
      forall i | 0 <= i < |es[1..]| ensures es[1..][i].0 != es[0].0 {
        assert es[1..][i] == es[i + 1];
      }
    }
  }

  /** With distinct keys every entry ends up in the overlay with its own
      value, every other key keeps its old value, and nothing else is added. */
  lemma {:induction false} OverlayContents(data: map<string, string>, es: seq<(string, string)>)
    requires DistinctKeys(es)
    ensures Overlay(data, es).Keys == data.Keys + KeysOf(es)
    ensures forall i :: 0 <= i < |es| ==> Overlay(data, es)[es[i].0] == es[i].1
    ensures forall k :: k in data && k !in KeysOf(es) ==> Overlay(data, es)[k] == data[k]
    decreases |es|
  {
    OverlayKeys(data, es);
    if |es| > 0 {
      var d := data[es[0].0 := es[0].1];
      DistinctTail(es);
      OverlayContents(d, es[1..]);
      forall i | 0 <= i < |es| ensures Overlay(data, es)[es[i].0] == es[i].1 {
        if i > 0 {
          assert es[1..][i - 1] == es[i];
        }
      }
    }
  }

  /** The decoded map has exactly the entries' keys, one per entry, each
      with its entry's value. */
  lemma ToMapContents(es: Entries)
    ensures ToMap(es).Keys == KeysOf(es)
    ensures |ToMap(es)| == |es|
    ensures forall i :: 0 <= i < |es| ==> ToMap(es)[es[i].0] == es[i].1
  {
    OverlayContents(map[], es);
    assert ToMap(es).Keys == KeysOf(es);
  }

  /** A prefix of distinct-key entries has distinct keys, and no key the
      entries lack. */
  lemma PrefixKeys(es: seq<(string, string)>, n: nat)
    requires n <= |es|
    ensures DistinctKeys(es) ==> DistinctKeys(es[..n])
    ensures KeysOf(es[..n]) <= KeysOf(es)
  {
    var pre := es[..n];
    forall k | k in KeysOf(pre) ensures k in KeysOf(es) {
      var i :| 0 <= i < |pre| && pre[i].0 == k;
      assert es[i].0 == k;
    }
  }

  /** Writing a prefix of distinct-key entries: each written entry holds
      its value, and every key outside all the entries keeps its value. */
  lemma OverlayPrefix(data: map<string, string>, es: seq<(string, string)>, n: nat)
    requires DistinctKeys(es) && n <= |es|
    ensures forall i :: 0 <= i < n ==> es[i].0 in Overlay(data, es[..n]) && Overlay(data, es[..n])[es[i].0] == es[i].1
    ensures forall k :: k in data && k !in KeysOf(es) ==> k in Overlay(data, es[..n]) && Overlay(data, es[..n])[k] == data[k]
  {
    var pre := es[..n];
    PrefixKeys(es, n);
    OverlayContents(data, pre);
    forall i | 0 <= i < n ensures es[i].0 in Overlay(data, pre) && Overlay(data, pre)[es[i].0] == es[i].1 {
      assert pre[i] == es[i];
    }
  }
}
