/**
 * Reassembly of the per-chunk stems once every task of a submission has
 * succeeded. Each task's result maps stem keys such as `bass3` to the
 * wav bytes of that stem of that chunk. The keys of all results are sorted
 * into four groups by the stem name they contain, each group is put in the
 * order of the chunk index after the name, the clips of a group are joined
 * into one track per stem, and the tracks the user selected are overlaid
 * into the final mix.
 *
 * Audio is abstract: a clip is the decoded bytes of one chunk's stem, a
 * joined track is the sequence of its clips, and overlaying is the free
 * constructor `Overlay`, applied in selection order.
 */
module Reassembly {
  import opened Wrappers
  import opened Text
  import opened Seqs

  datatype Stem = Bass | Drums | Vocals | Other

  function Name(s: Stem): string
  {
    match s
    case Bass => "bass"
    case Drums => "drums"
    case Vocals => "vocals"
    case Other => "other"
  }

  /** Position of a stem in the order bass, drums, vocals, other. */
  function Rank(s: Stem): nat
  {
    match s
    case Bass => 0
    case Drums => 1
    case Vocals => 2
    case Other => 3
  }

  /** How many characters are sliced off a key of the stem before `int()`. */
  function PrefixLength(s: Stem): nat
  {
    match s
    case Bass => 4
    case Drums => 5
    case Vocals => 6
    case Other => 5
  }

  /** The stem whose exported file is `<name>.wav`, if any. */
  function StemNamed(name: string): (r: Option<Stem>)
    ensures r.Some? ==> Name(r.value) == name
    ensures r.None? ==> forall s: Stem :: Name(s) != name
  {
    if name == "bass" then Some(Bass)
    else if name == "drums" then Some(Drums)
    else if name == "vocals" then Some(Vocals)
    else if name == "other" then Some(Other)
    else None
  }

  /** The decoded wav bytes of one stem of one chunk. */
  datatype Clip = Clip(wav: seq<bv8>)

  /** One item of a task's result dictionary, in its iteration order. */
  datatype Entry = Entry(key: string, clip: Clip)

  /** What a successful task reports: its stem dictionary and its completion timestamp. */
  datatype TaskInfo = TaskInfo(stems: seq<Entry>, time: nat)

  /**
   * The group a key joins: the first stem, in the order bass, drums,
   * vocals, other, whose name occurs in the key; None when none does.
   */
  function Classify(key: string): (r: Option<Stem>)
    ensures r.Some? ==> Contains(key, Name(r.value))
    ensures r.Some? ==> forall t: Stem :: Rank(t) < Rank(r.value) ==> !Contains(key, Name(t))
    ensures r.None? ==> forall t: Stem :: !Contains(key, Name(t))
  {
    if Contains(key, "bass") then Some(Bass)
    else if Contains(key, "drums") then Some(Drums)
    else if Contains(key, "vocals") then Some(Vocals)
    else if Contains(key, "other") then Some(Other)
    else None
  }

  /** `int(key[p:])` for the stem's prefix length `p`; None where `int` raises. */
  function SuffixIndex(key: string, s: Stem): (r: Option<nat>)
    ensures r.Some? <==> |key| > PrefixLength(s) && AllDigits(key[PrefixLength(s)..])
  {
    ParseNat(if |key| <= PrefixLength(s) then "" else key[PrefixLength(s)..])
  }

  /** The sort key of a key whose suffix parses (0 for one that does not). */
  function SortKey(key: string, s: Stem): nat
  {
    match SuffixIndex(key, s)
    case Some(n) => n
    case None => 0
  }

  /** Every key of the group has a chunk-index suffix `int()` accepts. */
  predicate Parses(g: seq<string>, s: Stem)
  {
    forall k | k in g :: SuffixIndex(k, s).Some?
  }

  /** The sort key of stem `s` as a function: `lambda x: int(x[p:])`. */
  function SuffixOrder(s: Stem): string -> nat
  {
    (k: string) => SortKey(k, s)
  }

  /** Every key of the group parses, and no two different keys carry the same chunk index. */
  ghost predicate UniqueSuffixes(g: seq<string>, s: Stem)
  {
    (forall k | k in multiset(g) :: SuffixIndex(k, s).Some?) && KeyInjective(g, SuffixOrder(s))
  }

  /** `sorted(group, key=lambda x: int(x[p:]))`. */
  function SortBySuffix(g: seq<string>, s: Stem): seq<string>
  {
    SortBy(g, SuffixOrder(s))
  }

  /** All items of the results, in iteration order: result by result, key by key. */
  function Flatten(infos: seq<TaskInfo>): seq<Entry>
  {
    if |infos| == 0 then [] else Flatten(infos[..|infos| - 1]) + infos[|infos| - 1].stems
  }

  function KeysOf(es: seq<Entry>): set<string>
  {
    set e | e in es :: e.key
  }

  /** The key of an item that joins the group of stem `s`. */
  function InGroup(s: Stem): Entry -> Option<string>
  {
    (e: Entry) => if Classify(e.key) == Some(s) then Some(e.key) else None
  }

  /** The keys of stem `s` in arrival order (the lists `bass`, `drums`, `vocals`, `other`). */
  function Group(es: seq<Entry>, s: Stem): seq<string>
  {
    FilterMap(es, InGroup(s))
  }

  /** Every key of a group contains that stem's name first and is a key of the items. */
  lemma GroupMembers(es: seq<Entry>, s: Stem)
    ensures forall k | k in Group(es, s) :: Classify(k) == Some(s) && k in KeysOf(es)
  {
    forall k | k in Group(es, s) ensures Classify(k) == Some(s) && k in KeysOf(es) {
      var e :| e in es && InGroup(s)(e) == Some(k);
    }
  }

  /** `allInstruments`: each key bound to its clip, a later item overwriting an earlier one. */
  function Table(es: seq<Entry>): (t: map<string, Clip>)
    ensures t.Keys == KeysOf(es)
  {
    if |es| == 0 then map[]
    else
      var last := es[|es| - 1];
      assert es == es[..|es| - 1] + [last];
      Table(es[..|es| - 1])[last.key := last.clip]
  }

  /** `dict.update` keeps the last binding: a key gets the clip of the last item that has it. */
  lemma {:induction false} TableLatest(es: seq<Entry>, i: nat)
    requires i < |es| && forall j | i < j < |es| :: es[j].key != es[i].key
    ensures es[i].key in Table(es) && Table(es)[es[i].key] == es[i].clip
    decreases |es|
  {
    var n := |es| - 1;
    if i < n {
      var init := es[..n];
      assert init[i] == es[i];
      assert forall j | i < j < |init| :: init[j] == es[j];
      TableLatest(init, i);
    }
  }

  /** The clips of the keys, in the order of the keys: one joined stem track. */
  function StemTrack(keys: seq<string>, t: map<string, Clip>): (track: seq<Clip>)
    requires forall k | k in keys :: k in t
    ensures |track| == |keys|
    ensures forall i :: 0 <= i < |keys| ==> track[i] == t[keys[i]]
  {
    if |keys| == 0 then [] else StemTrack(keys[..|keys| - 1], t) + [t[keys[|keys| - 1]]]
  }

  /** The four joined stem tracks. */
  datatype Stems = Stems(bass: seq<Clip>, drums: seq<Clip>, vocals: seq<Clip>, other: seq<Clip>)
  {
    function Get(s: Stem): seq<Clip>
    {
      match s
      case Bass => bass
      case Drums => drums
      case Vocals => vocals
      case Other => other
    }
  }

  /** A mix: one loaded stem track, or one mix overlaid with another. */
  datatype Mix = Load(track: seq<Clip>) | Overlay(under: Mix, over: Mix)

  /** The tracks a mix overlays, left to right. */
  function Layers(m: Mix): seq<seq<Clip>>
  {
    match m
    case Load(t) => [t]
    case Overlay(u, o) => Layers(u) + Layers(o)
  }

  /** Every name of the selection is one of the four stems. */
  predicate KnownNames(sel: seq<string>)
  {
    forall i :: 0 <= i < |sel| ==> StemNamed(sel[i]).Some?
  }

  /**
   * The final mix: the first selected stem overlaid with each further one in
   * turn. None where the source raises: an empty selection (`files[0]`) or a
   * name without an exported file.
   */
  function MixOf(sel: seq<string>, stems: Stems): (r: Option<Mix>)
    ensures r.Some? <==> |sel| > 0 && KnownNames(sel)
  {
    if |sel| == 0 || StemNamed(sel[|sel| - 1]).None? then None
    else
      var top := Load(stems.Get(StemNamed(sel[|sel| - 1]).value));
      if |sel| == 1 then Some(top)
      else
        var init := sel[..|sel| - 1];
        assert forall i :: 0 <= i < |init| ==> init[i] == sel[i];
        match MixOf(init, stems)
        case None => None
        case Some(m) => Some(Overlay(m, top))
  }

  /** The final mix exists exactly for a non-empty selection of known stems, and overlays exactly those stems, in selection order. */
  lemma {:induction false} MixOverlaysSelection(sel: seq<string>, stems: Stems)
    ensures MixOf(sel, stems).Some? <==> |sel| > 0 && KnownNames(sel)
    ensures MixOf(sel, stems).Some? ==>
      var layers := Layers(MixOf(sel, stems).value);
      |layers| == |sel| &&
      forall i :: 0 <= i < |sel| ==> layers[i] == stems.Get(StemNamed(sel[i]).value)
  {
    if |sel| > 0 && KnownNames(sel) {
      MixLayers(sel, stems);
    }
  }

  lemma {:induction false} MixLayers(sel: seq<string>, stems: Stems)
    requires |sel| > 0 && KnownNames(sel)
    ensures MixOf(sel, stems).Some? &&
      var layers := Layers(MixOf(sel, stems).value);
      |layers| == |sel| &&
      forall i :: 0 <= i < |sel| ==> layers[i] == stems.Get(StemNamed(sel[i]).value)
  {
    if |sel| > 1 {
      var init := sel[..|sel| - 1];
      var top := stems.Get(StemNamed(sel[|sel| - 1]).value);
      assert forall i :: 0 <= i < |init| ==> init[i] == sel[i];
      MixLayers(init, stems);
      var m := MixOf(init, stems).value;
      assert MixOf(sel, stems).value == Overlay(m, Load(top));
      assert Layers(MixOf(sel, stems).value) == Layers(m) + [top];
    }
  }

  /** The joined track of stem `s`: the clips of its keys sorted by chunk index. */
  function StemTrackOf(es: seq<Entry>, s: Stem): seq<Clip>
  {
    var sorted := SortBySuffix(Group(es, s), s);
    SameElements(sorted, Group(es, s));
    GroupMembers(es, s);
    StemTrack(sorted, Table(es))
  }

  /** Every key of every group has a suffix `int()` accepts. */
  predicate GroupsParse(es: seq<Entry>)
  {
    Parses(Group(es, Bass), Bass) && Parses(Group(es, Drums), Drums) &&
    Parses(Group(es, Vocals), Vocals) && Parses(Group(es, Other), Other)
  }

  /** Every stem has at least one key. */
  predicate GroupsNonEmpty(es: seq<Entry>)
  {
    |Group(es, Bass)| > 0 && |Group(es, Drums)| > 0 && |Group(es, Vocals)| > 0 && |Group(es, Other)| > 0
  }

  /** The stems and the final mix written to the submission's directory. */
  datatype Reassembled = Reassembled(stems: Stems, final: Mix)

  /**
   * The reassembly of server.py:398-459 on the items `es`. None where the
   * source raises: a key whose suffix `int()` rejects, a stem with no key at
   * all (`group[0]`), or a selection with no mix.
   */
  function Assemble(es: seq<Entry>, sel: seq<string>): (r: Option<Reassembled>)
    ensures r.Some? <==> GroupsParse(es) && GroupsNonEmpty(es) && |sel| > 0 && KnownNames(sel)
  {
    if !GroupsParse(es) then None
    else if !GroupsNonEmpty(es) then None
    else
      var stems := Stems(StemTrackOf(es, Bass), StemTrackOf(es, Drums), StemTrackOf(es, Vocals), StemTrackOf(es, Other));
      match MixOf(sel, stems)
      case None => None
      case Some(m) => Some(Reassembled(stems, m))
  }

  // ---------------------------------------------------------------------
  // The imperative reassembly, proved against Assemble.
  // ---------------------------------------------------------------------

  lemma GroupSnoc(es: seq<Entry>, e: Entry, s: Stem)
    ensures Group(es + [e], s) == Group(es, s) + (if Classify(e.key) == Some(s) then [e.key] else [])
  {
    FilterMapAppend(es, [e], InGroup(s));
  }

  lemma TableSnoc(es: seq<Entry>, e: Entry)
    ensures Table(es + [e]) == Table(es)[e.key := e.clip]
  {
    assert (es + [e])[..|es|] == es;
  }

  lemma FlattenSnoc(infos: seq<TaskInfo>, i: nat)
    requires i < |infos|
    ensures Flatten(infos[..i + 1]) == Flatten(infos[..i]) + infos[i].stems
  {
    assert infos[..i + 1][..i] == infos[..i];
  }

  /** The four group lists and the table hold what the items `es` give. */
  predicate GroupedAs(es: seq<Entry>, bass: seq<string>, drums: seq<string>, vocals: seq<string>,
                      other: seq<string>, all: map<string, Clip>)
  {
    bass == Group(es, Bass) && drums == Group(es, Drums) && vocals == Group(es, Vocals) &&
    other == Group(es, Other) && all == Table(es)
  }

  /** The one group that an item joins grows by its key. */
  function Extend(g: seq<string>, e: Entry, s: Stem): seq<string>
  {
    g + (if Classify(e.key) == Some(s) then [e.key] else [])
  }

  lemma GroupedStep(es: seq<Entry>, e: Entry, bass: seq<string>, drums: seq<string>, vocals: seq<string>,
                    other: seq<string>, all: map<string, Clip>)
    requires GroupedAs(es, bass, drums, vocals, other, all)
    ensures GroupedAs(es + [e], Extend(bass, e, Bass), Extend(drums, e, Drums), Extend(vocals, e, Vocals),
                      Extend(other, e, Other), all[e.key := e.clip])
  {
    GroupSnoc(es, e, Bass);
    GroupSnoc(es, e, Drums);
    GroupSnoc(es, e, Vocals);
    GroupSnoc(es, e, Other);
    TableSnoc(es, e);
  }

  lemma GroupedStepAt(done: seq<Entry>, stems: seq<Entry>, j: nat, bass: seq<string>, drums: seq<string>,
                      vocals: seq<string>, other: seq<string>, all: map<string, Clip>)
    requires j < |stems| && GroupedAs(done + stems[..j], bass, drums, vocals, other, all)
    ensures var e := stems[j];
      GroupedAs(done + stems[..j + 1], Extend(bass, e, Bass), Extend(drums, e, Drums), Extend(vocals, e, Vocals),
                Extend(other, e, Other), all[e.key := e.clip])
  {
    GroupedStep(done + stems[..j], stems[j], bass, drums, vocals, other, all);
    assert done + stems[..j + 1] == (done + stems[..j]) + [stems[j]];
  }

  /** One step of server.py:403-410: the key joins the first group whose name it contains. */
  method Place(e: Entry, bass: seq<string>, drums: seq<string>, vocals: seq<string>, other: seq<string>)
    returns (bass': seq<string>, drums': seq<string>, vocals': seq<string>, other': seq<string>)
    ensures bass' == Extend(bass, e, Bass) && drums' == Extend(drums, e, Drums)
    ensures vocals' == Extend(vocals, e, Vocals) && other' == Extend(other, e, Other)
  {
    bass', drums', vocals', other' := bass, drums, vocals, other;
    var key := e.key;
    if Contains(key, "bass") {
      bass' := bass + [key];
    } else if Contains(key, "drums") {
      drums' := drums + [key];
    } else if Contains(key, "vocals") {
      vocals' := vocals + [key];
    } else if Contains(key, "other") {
      other' := other + [key];
    }
  }

  /** The inner grouping loop of server.py:401-410, over the items of one result. */
  method GroupStems(ghost done: seq<Entry>, stems: seq<Entry>, bass: seq<string>, drums: seq<string>,
                    vocals: seq<string>, other: seq<string>, all: map<string, Clip>)
    returns (bass': seq<string>, drums': seq<string>, vocals': seq<string>, other': seq<string>, all': map<string, Clip>)
    requires GroupedAs(done, bass, drums, vocals, other, all)
    ensures GroupedAs(done + stems, bass', drums', vocals', other', all')
  {
    bass', drums', vocals', other', all' := bass, drums, vocals, other, all;
    var j := 0;
    assert done + stems[..j] == done;
    while j < |stems|
      invariant 0 <= j <= |stems|
      invariant GroupedAs(done + stems[..j], bass', drums', vocals', other', all')
    {
      var e := stems[j];
      GroupedStepAt(done, stems, j, bass', drums', vocals', other', all');
      bass', drums', vocals', other' := Place(e, bass', drums', vocals', other');
      all' := all'[e.key := e.clip];
      j := j + 1;
    }
    assert stems[..j] == stems;
  }

  /** The grouping loop of server.py:398-410. */
  method GroupKeys(infos: seq<TaskInfo>)
    returns (bass: seq<string>, drums: seq<string>, vocals: seq<string>, other: seq<string>, all: map<string, Clip>)
    ensures GroupedAs(Flatten(infos), bass, drums, vocals, other, all)
  {
    bass, drums, vocals, other, all := [], [], [], [], map[];
    var i := 0;
    while i < |infos|
      invariant 0 <= i <= |infos|
      invariant GroupedAs(Flatten(infos[..i]), bass, drums, vocals, other, all)
    {
      bass, drums, vocals, other, all := GroupStems(Flatten(infos[..i]), infos[i].stems, bass, drums, vocals, other, all);
      FlattenSnoc(infos, i);
      i := i + 1;
    }
    assert infos[..i] == infos;
  }

  /** One joining loop of server.py:424-445: the first clip, then `+=` each further one. */
  method JoinStem(keys: seq<string>, all: map<string, Clip>) returns (track: seq<Clip>)
    requires |keys| > 0
    requires forall k | k in keys :: k in all
    ensures track == StemTrack(keys, all)
  {
    track := [all[keys[0]]];
    var i := 1;
    while i < |keys|
      invariant 1 <= i <= |keys|
      invariant track == StemTrack(keys[..i], all)
    {
      track := track + [all[keys[i]]];
      assert keys[..i + 1][..i] == keys[..i];
      i := i + 1;
    }
    assert keys[..i] == keys;
  }

  /** The overlay loop of server.py:450-459; None where the source raises. */
  method OverlaySelection(sel: seq<string>, stems: Stems) returns (mix: Option<Mix>)
    ensures mix == MixOf(sel, stems)
  {
    if |sel| == 0 {
      return None;
    }
    var first := StemNamed(sel[0]);
    if first.None? {
      NoMixWithUnknownName(sel, stems, 0);
      return None;
    }
    var m := Load(stems.Get(first.value));
    var i := 1;
    while i < |sel|
      invariant 1 <= i <= |sel|
      invariant MixOf(sel[..i], stems) == Some(m)
    {
      var next := StemNamed(sel[i]);
      if next.None? {
        NoMixWithUnknownName(sel, stems, i);
        return None;
      }
      assert sel[..i + 1][..i] == sel[..i];
      m := Overlay(m, Load(stems.Get(next.value)));
      i := i + 1;
    }
    assert sel[..i] == sel;
    return Some(m);
  }

  lemma NoMixWithUnknownName(sel: seq<string>, stems: Stems, i: nat)
    requires i < |sel| && StemNamed(sel[i]).None?
    ensures MixOf(sel, stems).None?
  {
    MixOverlaysSelection(sel, stems);
  }

  /** server.py:398-459: group, sort, join and overlay; None where the source raises. */
  method Reassemble(infos: seq<TaskInfo>, sel: seq<string>) returns (r: Option<Reassembled>)
    ensures r == Assemble(Flatten(infos), sel)
  {
    ghost var es := Flatten(infos);
    var bass, drums, vocals, other, all := GroupKeys(infos);
    if !(Parses(bass, Bass) && Parses(drums, Drums) && Parses(vocals, Vocals) && Parses(other, Other)) {
      assert !GroupsParse(es);
      return None;
    }
    bass := SortBySuffix(bass, Bass);
    drums := SortBySuffix(drums, Drums);
    vocals := SortBySuffix(vocals, Vocals);
    other := SortBySuffix(other, Other);
    if |bass| == 0 || |drums| == 0 || |vocals| == 0 || |other| == 0 {
      assert !GroupsNonEmpty(es);
      return None;
    }
    var bassTrack := JoinSorted(bass, all, es, Bass);
    var drumsTrack := JoinSorted(drums, all, es, Drums);
    var vocalsTrack := JoinSorted(vocals, all, es, Vocals);
    var otherTrack := JoinSorted(other, all, es, Other);
    var stems := Stems(bassTrack, drumsTrack, vocalsTrack, otherTrack);
    assert GroupsParse(es) && GroupsNonEmpty(es);
    var mix := OverlaySelection(sel, stems);
    if mix.None? {
      return None;
    }
    return Some(Reassembled(stems, mix.value));
  }

  /** JoinStem on a sorted group of the items `es`. */
  method JoinSorted(keys: seq<string>, all: map<string, Clip>, ghost es: seq<Entry>, ghost s: Stem)
    returns (track: seq<Clip>)
    requires keys == SortBySuffix(Group(es, s), s) && all == Table(es) && |keys| > 0
    ensures track == StemTrackOf(es, s)
  {
    SameElements(keys, Group(es, s));
    GroupMembers(es, s);
    track := JoinStem(keys, all);
  }
}
