/**
 * Text assembly: concatenation of ordered parts, `Array.prototype.join`,
 * and the position facts the generated-file properties are stated with.
 */
module Strings {

  /** `t` occurs in `s` starting at index `i`. */
  predicate At(s: string, t: string, i: nat) {
    i + |t| <= |s| && s[i..i + |t|] == t
  }

  /** `s` ends with `t`. */
  predicate EndsWith(s: string, t: string) {
    |t| <= |s| && s[|s| - |t|..] == t
  }

  /** The parts written one after the other. */
  function Concat(parts: seq<string>): string {
    if parts == [] then "" else parts[0] + Concat(parts[1..])
  }

  /** Where part `k` starts in `Concat(parts)`. */
  function Offset(parts: seq<string>, k: nat): nat
    requires k <= |parts|
  {
    |Concat(parts[..k])|
  }

  lemma {:induction false} ConcatAppend(a: seq<string>, b: seq<string>)
    ensures Concat(a + b) == Concat(a) + Concat(b)
  {
    if a == [] {
      assert a + b == b;
    } else {
      assert (a + b)[0] == a[0];
      assert (a + b)[1..] == a[1..] + b;
      ConcatAppend(a[1..], b);
    }
  }

  lemma {:induction false} ConcatSplit(parts: seq<string>, k: nat)
    requires k < |parts|
    ensures Concat(parts) == Concat(parts[..k]) + parts[k] + Concat(parts[k + 1..])
  {
    if k == 0 {
      assert parts[..0] == [];
    } else {
      var t := parts[1..];
      ConcatSplit(t, k - 1);
      assert t[k - 1] == parts[k];
      assert t[k..] == parts[k + 1..];
      assert parts[..k][0] == parts[0];
      assert parts[..k][1..] == t[..k - 1];
    }
  }

  /** Every part occurs in the concatenation at its offset. */
  lemma ConcatAt(parts: seq<string>, k: nat)
    requires k < |parts|
    ensures At(Concat(parts), parts[k], Offset(parts, k))
  {
    ConcatSplit(parts, k);
    var a, p, b := Concat(parts[..k]), parts[k], Concat(parts[k + 1..]);
    PrefixThenPart(a, p, b);
  }

  lemma PrefixThenPart(a: string, p: string, b: string)
    ensures At(a + p + b, p, |a|)
  {
    var s := a + p + b;
    assert forall n :: 0 <= n < |p| ==> s[|a| + n] == p[n];
  }

  /** The next part starts where this one ends. */
  lemma OffsetNext(parts: seq<string>, k: nat)
    requires k < |parts|
    ensures Offset(parts, k + 1) == Offset(parts, k) + |parts[k]|
  {
    assert parts[..k + 1] == parts[..k] + [parts[k]];
    ConcatAppend(parts[..k], [parts[k]]);
    assert Concat([parts[k]]) == parts[k] + Concat([]);
  }

  /** The first part starts at the beginning. */
  lemma OffsetZero(parts: seq<string>)
    ensures Offset(parts, 0) == 0
  {
    assert parts[..0] == [];
  }

  /** An occurrence fixes the character it starts at. */
  lemma AtFirst(s: string, t: string, i: nat)
    requires At(s, t, i) && |t| > 0
    ensures i < |s| && s[i] == t[0]
  {
    assert s[i..i + |t|][0] == s[i];
  }

  /** Two texts whose first characters differ do not both occur at one position. */
  lemma FirstCharsDiffer(s: string, t: string, u: string, i: nat)
    requires At(s, u, i) && |t| > 0 && |u| > 0 && t[0] != u[0]
    ensures !At(s, t, i)
  {
    AtFirst(s, u, i);
    if At(s, t, i) {
      AtFirst(s, t, i);
    }
  }

  /** An occurrence inside an occurrence. */
  lemma AtCompose(s: string, t: string, u: string, i: nat, j: nat)
    requires At(s, t, i) && At(t, u, j)
    ensures At(s, u, i + j)
  {
    assert forall n :: 0 <= n < |u| ==> s[i + j + n] == t[j + n] == u[n] by {
      forall n | 0 <= n < |u| ensures s[i + j + n] == t[j + n] == u[n] {
        assert s[i..i + |t|][j + n] == t[j + n];
        assert t[j..j + |u|][n] == u[n];
      }
    }
    assert s[i + j..i + j + |u|] == u;
  }

  /** Part `i` ends no later than part `j` starts, for `i < j`. */
  lemma ConcatOrder(parts: seq<string>, i: nat, j: nat)
    requires i < j <= |parts|
    ensures Offset(parts, i) + |parts[i]| <= Offset(parts, j)
  {
    var p := parts[..j];
    assert p[..i] == parts[..i];
    ConcatSplit(p, i);
  }

  /** The concatenation ends with its last part. */
  lemma ConcatEndsWithLast(parts: seq<string>)
    requires parts != []
    ensures EndsWith(Concat(parts), parts[|parts| - 1])
  {
    var k := |parts| - 1;
    ConcatSplit(parts, k);
    assert parts[k + 1..] == [];
  }

  /** The list with the separator put between neighbours: `[a, sep, b, sep, c]`. */
  function Interleave(items: seq<string>, sep: string): (r: seq<string>)
    ensures |r| == if items == [] then 0 else 2 * |items| - 1
    ensures forall k :: 0 <= k < |r| ==> r[k] == if k % 2 == 0 then items[k / 2] else sep
  {
    if |items| <= 1 then items
    else [items[0], sep] + Interleave(items[1..], sep)
  }

  /** `items.join(sep)` */
  function Join(items: seq<string>, sep: string): string {
    Concat(Interleave(items, sep))
  }

  /** Where item `i` starts in `Join(items, sep)`. */
  function JoinPos(items: seq<string>, sep: string, i: nat): nat
    requires i < |items|
  {
    Offset(Interleave(items, sep), 2 * i)
  }

  /** Every item occurs in the joined text at its position, and ends within it. */
  lemma JoinAt(items: seq<string>, sep: string, i: nat)
    requires i < |items|
    ensures At(Join(items, sep), items[i], JoinPos(items, sep, i))
    ensures JoinPos(items, sep, i) + |items[i]| <= |Join(items, sep)|
  {
    InterleaveAt(items, sep, i);
    ConcatAt(Interleave(items, sep), 2 * i);
  }

  /** Exactly one separator follows every item but the last, and the next item starts right after it. */
  lemma JoinNext(items: seq<string>, sep: string, i: nat)
    requires i + 1 < |items|
    ensures At(Join(items, sep), sep, JoinPos(items, sep, i) + |items[i]|)
    ensures JoinPos(items, sep, i + 1) == JoinPos(items, sep, i) + |items[i]| + |sep|
  {
    InterleaveAt(items, sep, i);
    ConcatNext(Interleave(items, sep), 2 * i);
  }

  /** In the interleaved list, item `i` sits at `2 * i`, with a separator right after it unless it is the last. */
  lemma InterleaveAt(items: seq<string>, sep: string, i: nat)
    requires i < |items|
    ensures 2 * i < |Interleave(items, sep)| && Interleave(items, sep)[2 * i] == items[i]
    ensures i + 1 < |items| ==> Interleave(items, sep)[2 * i + 1] == sep
  {
    assert (2 * i) / 2 == i && (2 * i) % 2 == 0 && (2 * i + 1) % 2 == 1;
  }

  /** The part after part `k` starts where part `k` ends, and the one after that where it ends. */
  lemma ConcatNext(parts: seq<string>, k: nat)
    requires k + 1 < |parts|
    ensures At(Concat(parts), parts[k + 1], Offset(parts, k) + |parts[k]|)
    ensures Offset(parts, k + 2) == Offset(parts, k) + |parts[k]| + |parts[k + 1]|
  {
    OffsetNext(parts, k);
    OffsetNext(parts, k + 1);
    ConcatAt(parts, k + 1);
  }

  /** The first item starts the joined text and the last one ends it. */
  lemma JoinEnds(items: seq<string>, sep: string)
    requires items != []
    ensures JoinPos(items, sep, 0) == 0
    ensures JoinPos(items, sep, |items| - 1) + |items[|items| - 1]| == |Join(items, sep)|
  {
    var parts := Interleave(items, sep);
    var k := 2 * (|items| - 1);
    OffsetZero(parts);
    assert parts[k] == items[|items| - 1];
    OffsetNext(parts, k);
    assert parts[..k + 1] == parts;
  }

  lemma JoinSingle(item: string, sep: string)
    ensures Join([item], sep) == item
  {
    assert Concat([item]) == item + Concat([]);
  }
}
