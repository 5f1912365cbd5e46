/** The three helpers the repository takes from knex-utils: allow-list projection, copying and chunking. */
module KnexUtils {
  import opened Rows

  /** The listed keys of `source` whose value is defined; everything else is dropped. */
  function PickWithoutUndefined(source: Fields, keys: seq<string>): (picked: Row)
    ensures forall k :: k in picked <==> k in keys && k in source && source[k].Some?
    ensures forall k :: k in picked ==> source[k] == Some(picked[k])
  {
    map k | k in source && k in keys && source[k].Some? :: source[k].value
  }

  /** Every key of `source` whose value is defined. */
  function CopyWithoutUndefined(source: Fields): (copied: Row)
    ensures forall k :: k in copied <==> k in source && source[k].Some?
    ensures forall k :: k in copied ==> source[k] == Some(copied[k])
  {
    map k | k in source && source[k].Some? :: source[k].value
  }

  /** Picking every key the source holds is copying it. */
  lemma PickAllIsCopy(source: Fields, keys: seq<string>)
    requires forall k :: k in source ==> k in keys
    ensures PickWithoutUndefined(source, keys) == CopyWithoutUndefined(source)
  {
    var p, c := PickWithoutUndefined(source, keys), CopyWithoutUndefined(source);
    assert p.Keys == c.Keys;
  }

  /** Picking only keys the source does not hold yields nothing at all. */
  lemma PickDisjointIsEmpty(source: Fields, keys: seq<string>)
    requires forall k :: k in source ==> k !in keys
    ensures PickWithoutUndefined(source, keys) == map[]
  {
    var p := PickWithoutUndefined(source, keys);
    assert p.Keys == {};
  }

  /** A picked map is always a sub-map of the copy. */
  lemma PickWithinCopy(source: Fields, keys: seq<string>)
    ensures var p, c := PickWithoutUndefined(source, keys), CopyWithoutUndefined(source);
      p.Keys <= c.Keys && forall k :: k in p ==> p[k] == c[k]
  {
  }

  /** The pieces concatenated in order. */
  function Flatten<T>(pieces: seq<seq<T>>): (r: seq<T>)
  {
    if pieces == [] then [] else pieces[0] + Flatten(pieces[1..])
  }

  lemma {:induction false} FlattenConcat<T>(a: seq<seq<T>>, b: seq<seq<T>>)
    ensures Flatten(a + b) == Flatten(a) + Flatten(b)
  {
    if a == [] {
      assert a + b == b;
    } else {
      assert (a + b)[1..] == a[1..] + b;
      FlattenConcat(a[1..], b);
    }
  }

  /** Flattening one more piece of a prefix appends that piece. */
  lemma FlattenPrefix<T>(pieces: seq<seq<T>>, i: nat)
    requires i < |pieces|
    ensures Flatten(pieces[..i + 1]) == Flatten(pieces[..i]) + pieces[i]
  {
    assert pieces[..i + 1] == pieces[..i] + [pieces[i]];
    FlattenConcat(pieces[..i], [pieces[i]]);
    assert Flatten([pieces[i]]) == pieces[i] + Flatten([]);
  }

  /**
   * Consecutive pieces of `s`, in order, each non-empty and at most `size`
   * long, where only the last may be shorter than `size`.
   */
  function Chunk<T>(s: seq<T>, size: nat): (pieces: seq<seq<T>>)
    requires size > 0
    ensures Flatten(pieces) == s
    ensures forall i :: 0 <= i < |pieces| ==> 0 < |pieces[i]| <= size
    ensures forall i :: 0 <= i < |pieces| - 1 ==> |pieces[i]| == size
    decreases |s|
  {
    if s == [] then []
    else if |s| <= size then [s]
    else
      var rest := Chunk(s[size..], size);
      assert ([s[..size]] + rest)[1..] == rest;
      assert s[..size] + s[size..] == s;
      [s[..size]] + rest
  }

  /**
   * The number of pieces is ceil(|s| / size): all pieces but the last are
   * full, and the last holds the remaining 1..size elements.
   */
  lemma {:induction false} ChunkCount<T>(s: seq<T>, size: nat)
    requires size > 0
    ensures var pieces := Chunk(s, size);
      && (s == [] <==> pieces == [])
      && (s != [] ==> |s| == (|pieces| - 1) * size + |pieces[|pieces| - 1]|)
  {
    var pieces := Chunk(s, size);
    if s == [] {
    } else if |s| <= size {
      assert pieces == [s];
    } else {
      var rest := Chunk(s[size..], size);
      ChunkCount(s[size..], size);
      var k, last := |rest|, |rest[|rest| - 1]|;
      assert pieces == [s[..size]] + rest;
      assert |pieces| == k + 1 && pieces[k] == rest[k - 1];
      assert |s| == size + ((k - 1) * size + last);
      OneMoreTimes(k, size);
    }
  }

  lemma OneMoreTimes(k: int, size: int)
    ensures size + (k - 1) * size == k * size
  {
  }

  /** Three rows in pieces of two are inserted as a pair and then a single row. */
  lemma ChunkThreeByTwo<T>(a: T, b: T, c: T)
    ensures Chunk([a, b, c], 2) == [[a, b], [c]]
  {
    assert [a, b, c][..2] == [a, b];
    assert [a, b, c][2..] == [c];
  }
}
