/**
 * The reassembled stems do not depend on the order in which results or
 * keys arrive: any permutation of the items gives the same stems and the
 * same final mix, as long as no key names two different clips and no stem
 * has two keys with the same chunk index. Keys named the way the reassembly
 * expects, `<stem><chunk index>` (server.py:390), always satisfy the second
 * condition.
 */
module Ordering {
  import opened Wrappers
  import opened Text
  import opened Reassembly
  import opened Seqs

  /** No key of the items names two different clips. */
  ghost predicate KeyDeterminesClip(es: seq<Entry>)
  {
    forall a, b | a in es && b in es && a.key == b.key :: a == b
  }

  /** When keys determine clips, the table binds each key to its item's clip. */
  lemma {:induction false} TableValue(es: seq<Entry>)
    requires KeyDeterminesClip(es)
    ensures forall e | e in es :: e.key in Table(es) && Table(es)[e.key] == e.clip
  {
    if |es| > 0 {
      var init := es[..|es| - 1];
      var last := es[|es| - 1];
      assert es == init + [last];
      TableValue(init);
      forall e | e in es ensures e.key in Table(es) && Table(es)[e.key] == e.clip {
        assert e.key in KeysOf(es);
        if e != last {
          assert e in init;
        }
      }
    }
  }

  /** When keys determine clips, permuting the items leaves the table unchanged. */
  lemma TablePermutation(e1: seq<Entry>, e2: seq<Entry>)
    requires multiset(e1) == multiset(e2)
    requires KeyDeterminesClip(e1)
    ensures Table(e1) == Table(e2)
  {
    forall e ensures e in e1 <==> e in e2 {
      assert e in e1 <==> e in multiset(e1);
      assert e in e2 <==> e in multiset(e2);
    }
    assert KeysOf(e1) == KeysOf(e2);
    TableValue(e1);
    TableValue(e2);
    forall k | k in Table(e1) ensures Table(e1)[k] == Table(e2)[k] {
      var e :| e in e1 && e.key == k;
    }
  }

  /**
   * Reassembly is independent of arrival order: any permutation of the items
   * gives the same outcome, crash or stems and mix.
   */
  lemma AssembleIgnoresArrivalOrder(e1: seq<Entry>, e2: seq<Entry>, sel: seq<string>)
    requires multiset(e1) == multiset(e2)
    requires KeyDeterminesClip(e1)
    requires forall s: Stem :: UniqueSuffixes(Group(e1, s), s)
    ensures Assemble(e1, sel) == Assemble(e2, sel)
  {
    TablePermutation(e1, e2);
    forall s: Stem
      ensures Parses(Group(e1, s), s) <==> Parses(Group(e2, s), s)
      ensures |Group(e1, s)| == |Group(e2, s)|
      ensures StemTrackOf(e1, s) == StemTrackOf(e2, s)
    {
      var g1, g2 := Group(e1, s), Group(e2, s);
      FilterMapPermutation(e1, e2, InGroup(s));
      SameElements(g1, g2);
      assert |g1| == |multiset(g1)| == |multiset(g2)| == |g2|;
      SortByPermutation(g1, g2, SuffixOrder(s));
    }
    assert GroupsParse(e1) <==> GroupsParse(e2);
    assert GroupsNonEmpty(e1) <==> GroupsNonEmpty(e2);
  }

  lemma {:induction false} FlattenAppend(a: seq<TaskInfo>, b: seq<TaskInfo>)
    ensures Flatten(a + b) == Flatten(a) + Flatten(b)
    decreases |b|
  {
    if |b| > 0 {
      var init := b[..|b| - 1];
      FlattenAppend(a, init);
      assert (a + b)[..|a + b| - 1] == a + init;
    } else {
      assert a + b == a;
    }
  }

  /** Permuting the results permutes their items. */
  lemma {:induction false} FlattenPermutation(r1: seq<TaskInfo>, r2: seq<TaskInfo>)
    requires multiset(r1) == multiset(r2)
    ensures multiset(Flatten(r1)) == multiset(Flatten(r2))
    decreases |r1|
  {
    if |r1| == 0 {
      assert |r2| == |multiset(r2)| == 0;
    } else {
      var n := |r1| - 1;
      var j := SplitOut(r1, r2);
      var before, after, x := r2[..j], r2[j + 1..], [r2[j]];
      assert r1 == r1[..n] + x;
      FlattenPermutation(r1[..n], before + after);
      FlattenAppend(r1[..n], x);
      FlattenAppend(before, after);
      FlattenAppend(before + x, after);
      FlattenAppend(before, x);
      assert Flatten(x) == r2[j].stems by {
        assert x[..0] == [];
      }
      PermutationStep(Flatten(r1[..n]), Flatten(before), Flatten(after), Flatten(x));
    }
  }

  /** The key under which a stem of chunk `index` is expected: `bass0`, `drums3`, ... */
  function ChunkKey(s: Stem, index: nat): string
  {
    Name(s) + NatToString(index)
  }

  ghost predicate IsChunkKey(key: string)
  {
    exists s: Stem, index: nat :: key == ChunkKey(s, index)
  }

  lemma NoLetterInDigits(prefix: string, index: nat, c: char)
    requires !IsDigit(c)
    requires forall i :: 0 <= i < |prefix| ==> prefix[i] != c
    ensures forall i :: 0 <= i < |prefix + NatToString(index)| ==> (prefix + NatToString(index))[i] != c
  {
    var digits := NatToString(index);
    forall i | 0 <= i < |prefix + digits| ensures (prefix + digits)[i] != c {
      if i >= |prefix| {
        assert (prefix + digits)[i] == digits[i - |prefix|];
      }
    }
  }

  /** A chunk key joins the group of its stem and sorts by its chunk index. */
  lemma ChunkKeyRoundTrip(s: Stem, index: nat)
    ensures Classify(ChunkKey(s, index)) == Some(s)
    ensures SuffixIndex(ChunkKey(s, index), s) == Some(index)
  {
    var key := ChunkKey(s, index);
    var digits := NatToString(index);
    assert StartsWith(key, Name(s)) by {
      assert key[..|Name(s)|] == Name(s);
    }
    assert key[PrefixLength(s)..] == digits;
    ParseNatToString(index);
    if s != Bass {
      NoLetterInDigits(Name(s), index, 'b');
      NotContainsWithoutFirstChar(key, "bass");
    }
    if s == Vocals || s == Other {
      NoLetterInDigits(Name(s), index, 'd');
      NotContainsWithoutFirstChar(key, "drums");
    }
    if s == Other {
      NoLetterInDigits(Name(s), index, 'v');
      NotContainsWithoutFirstChar(key, "vocals");
    }
  }

  /** Different chunk keys of one stem carry different chunk indices. */
  lemma ChunkKeysUnique(es: seq<Entry>, s: Stem)
    requires forall e | e in es :: IsChunkKey(e.key)
    ensures UniqueSuffixes(Group(es, s), s)
  {
    var g := Group(es, s);
    GroupMembers(es, s);
    forall k | k in g ensures exists index: nat :: k == ChunkKey(s, index) {
      var e :| e in es && e.key == k;
      var t: Stem, index: nat :| k == ChunkKey(t, index);
      ChunkKeyRoundTrip(t, index);
    }
    forall k | k in multiset(g) ensures SuffixIndex(k, s).Some? {
      assert k in g;
      var index: nat :| k == ChunkKey(s, index);
      ChunkKeyRoundTrip(s, index);
    }
    forall k1, k2 | k1 in multiset(g) && k2 in multiset(g) && k1 != k2
      ensures SuffixOrder(s)(k1) != SuffixOrder(s)(k2)
    {
      assert k1 in g && k2 in g;
      var i1: nat :| k1 == ChunkKey(s, i1);
      var i2: nat :| k2 == ChunkKey(s, i2);
      ChunkKeyRoundTrip(s, i1);
      ChunkKeyRoundTrip(s, i2);
    }
  }

  /**
   * With chunk keys, the final stems and mix do not depend on the order in
   * which the tasks' results are listed.
   */
  lemma ReassemblyIgnoresTaskOrder(r1: seq<TaskInfo>, r2: seq<TaskInfo>, sel: seq<string>)
    requires multiset(r1) == multiset(r2)
    requires KeyDeterminesClip(Flatten(r1))
    requires forall e | e in Flatten(r1) :: IsChunkKey(e.key)
    ensures Assemble(Flatten(r1), sel) == Assemble(Flatten(r2), sel)
  {
    FlattenPermutation(r1, r2);
    forall s: Stem ensures UniqueSuffixes(Group(Flatten(r1), s), s) {
      ChunkKeysUnique(Flatten(r1), s);
    }
    AssembleIgnoresArrivalOrder(Flatten(r1), Flatten(r2), sel);
  }
}
