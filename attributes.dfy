/** `attrs_to_dict` and the attribute text the parser writes into embed cards.
    An attribute list is what the HTML tokenizer hands to `handle_starttag`:
    `(name, value)` pairs in source order, possibly repeating a name. A
    dictionary is modelled as the sequence of its items in insertion order,
    which is the order Python iterates them in. */
module Attributes {
  import opened Strings

  type Attrs = seq<(string, string)>

  /** The items of a Python dict, in insertion order, with distinct keys. */
  type Dict = seq<(string, string)>

  predicate HasKey(d: Dict, k: string)
  {
    exists i :: 0 <= i < |d| && d[i].0 == k
  }

  predicate DistinctKeys(d: Dict)
  {
    forall i, j :: 0 <= i < j < |d| ==> d[i].0 != d[j].0
  }

  /** The first position at which `k` is a key. */
  function KeyIndex(d: Dict, k: string): (i: nat)
    requires HasKey(d, k)
    ensures i < |d| && d[i].0 == k
    ensures forall j :: 0 <= j < i ==> d[j].0 != k
  {
    if d[0].0 == k then 0
    else
      assert HasKey(d[1..], k) by {
        var j :| 0 <= j < |d| && d[j].0 == k;
        assert d[1..][j - 1].0 == k;
      }
      1 + KeyIndex(d[1..], k)
  }

  /** `d[k]`. */
  function Lookup(d: Dict, k: string): string
    requires HasKey(d, k)
  {
    d[KeyIndex(d, k)].1
  }

  /** `d[k] = v`: an existing key keeps its position, a new key goes last. */
  function Insert(d: Dict, k: string, v: string): (r: Dict)
  {
    if HasKey(d, k) then d[KeyIndex(d, k) := (k, v)] else d + [(k, v)]
  }

  /** `v` is the value of the last pair in `attrs` whose name is `k`. */
  predicate IsLastValue(attrs: Attrs, k: string, v: string)
  {
    exists i :: 0 <= i < |attrs| && attrs[i] == (k, v) && forall j :: i < j < |attrs| ==> attrs[j].0 != k
  }

  lemma InsertFacts(d: Dict, k: string, v: string)
    requires DistinctKeys(d)
    ensures DistinctKeys(Insert(d, k, v))
    ensures forall x :: HasKey(Insert(d, k, v), x) <==> HasKey(d, x) || x == k
    ensures HasKey(Insert(d, k, v), k) && Lookup(Insert(d, k, v), k) == v
    ensures forall x :: x != k && HasKey(d, x) ==> Lookup(Insert(d, k, v), x) == Lookup(d, x)
  {
    var r := Insert(d, k, v);
    if HasKey(d, k) {
      var p := KeyIndex(d, k);
      assert forall i :: 0 <= i < |r| ==> r[i].0 == d[i].0;
      forall x | HasKey(d, x) ensures HasKey(r, x) {
        var i := KeyIndex(d, x);
        assert r[i].0 == x;
      }
      forall x | x != k && HasKey(d, x) ensures Lookup(r, x) == Lookup(d, x) {
        assert KeyIndex(r, x) == KeyIndex(d, x);
      }
      assert KeyIndex(r, k) == p;
    } else {
      forall x | HasKey(d, x) ensures HasKey(r, x) {
        var i := KeyIndex(d, x);
        assert r[i].0 == x;
      }
      forall x | x != k && HasKey(d, x) ensures Lookup(r, x) == Lookup(d, x) {
        assert KeyIndex(r, x) == KeyIndex(d, x);
      }
      assert r[|d|].0 == k;
      assert KeyIndex(r, k) == |d|;
    }
  }

  /** `{k: v for k, v in attrs}`: one item per distinct name, holding the value
      the name was given last. */
  function AttrsToDict(attrs: Attrs): (d: Dict)
    ensures DistinctKeys(d)
    ensures forall k :: HasKey(d, k) <==> HasKey(attrs, k)
    ensures forall k :: HasKey(d, k) ==> IsLastValue(attrs, k, Lookup(d, k))
  {
    if attrs == [] then []
    else
      var n := |attrs| - 1;
      var prev := AttrsToDict(attrs[..n]);
      var (k, v) := attrs[n];
      InsertFacts(prev, k, v);
      LastValueFacts(attrs, prev, Insert(prev, k, v));
      Insert(prev, k, v)
  }

  lemma LastValueFacts(attrs: Attrs, prev: Dict, r: Dict)
    requires |attrs| > 0
    requires DistinctKeys(prev)
    requires r == Insert(prev, attrs[|attrs| - 1].0, attrs[|attrs| - 1].1)
    requires forall k :: HasKey(prev, k) <==> HasKey(attrs[..|attrs| - 1], k)
    requires forall k :: HasKey(prev, k) ==> IsLastValue(attrs[..|attrs| - 1], k, Lookup(prev, k))
    ensures forall k :: HasKey(r, k) <==> HasKey(attrs, k)
    ensures forall k :: HasKey(r, k) ==> IsLastValue(attrs, k, Lookup(r, k))
  {
    var n := |attrs| - 1;
    var (k, v) := attrs[n];
    InsertFacts(prev, k, v);
    forall x ensures HasKey(attrs, x) <==> HasKey(attrs[..n], x) || x == k {
      if HasKey(attrs, x) && x != k {
        var i := KeyIndex(attrs, x);
        assert attrs[..n][i].0 == x;
      }
      if HasKey(attrs[..n], x) {
        var i := KeyIndex(attrs[..n], x);
        assert attrs[i].0 == x;
      }
      if x == k {
        assert attrs[n].0 == x;
      }
    }
    forall x | HasKey(r, x) ensures IsLastValue(attrs, x, Lookup(r, x)) {
      if x == k {
        assert attrs[n] == (k, v);
      } else {
        var i :| 0 <= i < n && attrs[..n][i] == (x, Lookup(prev, x))
          && forall j :: i < j < n ==> attrs[..n][j].0 != x;
        assert attrs[i] == (x, Lookup(r, x));
        assert forall j :: i < j < |attrs| ==> attrs[j].0 != x by {
          forall j | i < j < |attrs| ensures attrs[j].0 != x {
            if j < n { assert attrs[..n][j] == attrs[j]; }
          }
        }
      }
    }
  }

  /** A key's first position does not move when pairs are appended. */
  lemma {:induction false} KeyIndexPrefix(p: Attrs, q: Attrs, k: string)
    requires HasKey(p, k)
    ensures HasKey(p + q, k) && KeyIndex(p + q, k) == KeyIndex(p, k)
  {
    var i := KeyIndex(p, k);
    assert (p + q)[i].0 == k;
    if p[0].0 != k {
      assert (p + q)[1..] == p[1..] + q;
      assert HasKey(p[1..], k) by { assert p[1..][i - 1].0 == k; }
      KeyIndexPrefix(p[1..], q, k);
    }
  }

  /** Every key of `d` is a name in `attrs`, and the keys come in the order of
      each name's first appearance there. */
  predicate InFirstAppearanceOrder(attrs: Attrs, d: Dict)
  {
    (forall i :: 0 <= i < |d| ==> HasKey(attrs, d[i].0))
    && forall i, j :: 0 <= i < j < |d| ==> KeyIndex(attrs, d[i].0) < KeyIndex(attrs, d[j].0)
  }

  lemma OrderExtend(p: Attrs, kv: (string, string), prev: Dict)
    requires InFirstAppearanceOrder(p, prev)
    ensures InFirstAppearanceOrder(p + [kv], prev)
  {
    forall x | HasKey(p, x) ensures HasKey(p + [kv], x) && KeyIndex(p + [kv], x) == KeyIndex(p, x) {
      KeyIndexPrefix(p, [kv], x);
    }
  }

  lemma OrderAppendKey(attrs: Attrs, prev: Dict, k: string, v: string)
    requires |attrs| > 0 && attrs[|attrs| - 1].0 == k && !HasKey(attrs[..|attrs| - 1], k)
    requires InFirstAppearanceOrder(attrs, prev)
    requires forall i :: 0 <= i < |prev| ==> KeyIndex(attrs, prev[i].0) < |attrs| - 1
    ensures InFirstAppearanceOrder(attrs, prev + [(k, v)])
  {
    LastKeyIndex(attrs, k);
  }

  /** A key that first appears last has the last index. */
  lemma LastKeyIndex(attrs: Attrs, k: string)
    requires |attrs| > 0 && attrs[|attrs| - 1].0 == k && !HasKey(attrs[..|attrs| - 1], k)
    ensures HasKey(attrs, k) && KeyIndex(attrs, k) == |attrs| - 1
  {
    var n := |attrs| - 1;
    forall j | 0 <= j < n ensures attrs[j].0 != k {
      assert attrs[j] == attrs[..n][j];
    }
  }

  /** Replacing the value of a key that is already present does not move any key. */
  lemma SameKeysOrder(attrs: Attrs, prev: Dict, d: Dict)
    requires InFirstAppearanceOrder(attrs, prev)
    requires |d| == |prev| && forall i :: 0 <= i < |d| ==> d[i].0 == prev[i].0
    ensures InFirstAppearanceOrder(attrs, d)
  {
  }

  /** Dictionary keys come in the order of each name's first appearance. */
  lemma {:induction false} AttrsToDictOrder(attrs: Attrs)
    ensures InFirstAppearanceOrder(attrs, AttrsToDict(attrs))
  {
    if attrs != [] {
      var n := |attrs| - 1;
      var p := attrs[..n];
      assert attrs == p + [attrs[n]];
      var prev := AttrsToDict(p);
      AttrsToDictOrder(p);
      OrderExtend(p, attrs[n], prev);
      var (k, v) := attrs[n];
      var d := AttrsToDict(attrs);
      assert d == Insert(prev, k, v);
      if HasKey(prev, k) {
        SameKeysOrder(attrs, prev, d);
      } else {
        forall i | 0 <= i < |prev| ensures KeyIndex(attrs, prev[i].0) < n {
          KeyIndexPrefix(p, [attrs[n]], prev[i].0);
        }
        OrderAppendKey(attrs, prev, k, v);
      }
    }
  }

  /** `f'{k}="{v}"` for each item, in order. */
  function AttrPieces(d: Dict): (pieces: seq<string>)
    ensures |pieces| == |d|
    ensures forall i :: 0 <= i < |d| ==> pieces[i] == d[i].0 + "=\"" + d[i].1 + "\""
  {
    if d == [] then [] else [d[0].0 + "=\"" + d[0].1 + "\""] + AttrPieces(d[1..])
  }

  /** `" ".join(attr_strings)`. */
  function AttrString(d: Dict): string
  {
    Join(" ", AttrPieces(d))
  }

  /** When no name or value holds a space, the attribute text splits back into
      one `name="value"` piece per item. */
  lemma AttrStringSplits(d: Dict)
    requires |d| > 0
    requires forall i :: 0 <= i < |d| ==> ' ' !in d[i].0 && ' ' !in d[i].1
    ensures Split(AttrString(d), ' ') == AttrPieces(d)
  {
    var pieces := AttrPieces(d);
    forall i | 0 <= i < |pieces| ensures ' ' !in pieces[i] {
      PieceAvoidsSpace(d[i].0, d[i].1);
    }
    SplitJoin(pieces, ' ');
  }

  lemma PieceAvoidsSpace(k: string, v: string)
    requires ' ' !in k && ' ' !in v
    ensures ' ' !in k + "=\"" + v + "\""
  {
    assert ' ' !in "=\"" && ' ' !in "\"";
  }

  /** The attribute text is built by the loop over `attr_dict.items()`. */
  method BuildAttrString(d: Dict) returns (s: string)
    ensures s == AttrString(d)
  {
    var attrStrings: seq<string> := [];
    var i := 0;
    while i < |d|
      invariant 0 <= i <= |d|
      invariant attrStrings == AttrPieces(d[..i])
    {
      assert AttrPieces(d[..i + 1]) == AttrPieces(d[..i]) + [d[i].0 + "=\"" + d[i].1 + "\""];
      attrStrings := attrStrings + [d[i].0 + "=\"" + d[i].1 + "\""];
      i := i + 1;
    }
    assert d[..i] == d;
    s := Join(" ", attrStrings);
  }
}
