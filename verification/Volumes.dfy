/** Named volumes: every test gets volumes of its own, so the names users give are suffixed with the id of the
    run. The suffixed names are remembered, both for other compositions and for the clean-up. */
module Volumes {

  /** What a composition says about volumes. `named`: those with their paths in the container, as the user gave
      them; `final`: what is mounted. */
  datatype VolumeUse = VolumeUse(named: seq<(string, string)>, final: seq<string>)

  function Suffixed(volume: string, suffix: string): string {
    volume + "-" + suffix
  }

  function Mount(volume: (string, string), suffix: string): string {
    Suffixed(volume.0, suffix) + ":" + volume.1
  }

  /** What is mounted when every volume is suffixed directly. */
  function Resolved(c: VolumeUse, suffix: string): VolumeUse {
    c.(final := seq(|c.named|, i requires 0 <= i < |c.named| => Mount(c.named[i], suffix)))
  }

  function NamesOf(named: seq<(string, string)>): set<string> {
    set v | v in named :: v.0
  }

  function Used(cs: seq<VolumeUse>): set<string> {
    set c, v | c in cs && v in c.named :: v.0
  }

  function AllSuffixed(names: set<string>, suffix: string): set<string> {
    set n | n in names :: Suffixed(n, suffix)
  }

  lemma NamesMore(named: seq<(string, string)>, j: nat)
    requires j < |named|
    ensures NamesOf(named[..j + 1]) == NamesOf(named[..j]) + {named[j].0}
  {
    assert named[..j + 1] == named[..j] + [named[j]];
  }

  lemma UsedMore(cs: seq<VolumeUse>, i: nat)
    requires i < |cs|
    ensures Used(cs[..i + 1]) == Used(cs[..i]) + NamesOf(cs[i].named)
  {
    assert cs[..i + 1] == cs[..i] + [cs[i]];
  }

  ghost predicate NoDuplicates(s: seq<string>) {
    forall i, j :: 0 <= i < j < |s| ==> s[i] != s[j]
  }

  type Memo = map<string, string>

  ghost predicate Suffixes(memo: Memo, names: set<string>, suffix: string) {
    memo.Keys == names && forall n :: n in memo ==> memo[n] == Suffixed(n, suffix)
  }

  lemma SuffixedDiffer(a: string, b: string, suffix: string)
    requires Suffixed(a, suffix) == Suffixed(b, suffix)
    ensures a == b
  {
    assert a == Suffixed(a, suffix)[..|Suffixed(a, suffix)| - |suffix| - 1];
    assert b == Suffixed(b, suffix)[..|Suffixed(b, suffix)| - |suffix| - 1];
  }

  lemma FreshSuffixed(names: set<string>, n: string, suffix: string)
    requires n !in names
    ensures Suffixed(n, suffix) !in AllSuffixed(names, suffix)
    ensures AllSuffixed(names + {n}, suffix) == AllSuffixed(names, suffix) + {Suffixed(n, suffix)}
  {
    if Suffixed(n, suffix) in AllSuffixed(names, suffix) {
      var k :| k in names && Suffixed(k, suffix) == Suffixed(n, suffix);
      SuffixedDiffer(k, n, suffix);
    }
  }

  /** A mount is the name of the volume, a dash, the id of the run, a colon and the path. */
  predicate IsMount(mount: string, volume: (string, string), run: string) {
    var n, k := |volume.0|, |volume.0| + 1 + |run|;
    && |mount| == k + 1 + |volume.1|
    && mount[..n] == volume.0 && mount[n] == '-' && mount[n + 1..k] == run && mount[k] == ':'
    && mount[k + 1..] == volume.1
  }

  lemma MountSplits(volume: (string, string), run: string)
    ensures IsMount(Mount(volume, run), volume, run)
  {
    var m, n, k := Mount(volume, run), |volume.0|, |volume.0| + 1 + |run|;
    assert m == volume.0 + ("-" + run + ":" + volume.1);
    assert m == (volume.0 + "-") + run + (":" + volume.1);
    assert m == (volume.0 + "-" + run + ":") + volume.1;
  }

  /** Unless the name or the id has a colon, the first one separates what is mounted, which is in the clean-up list,
      from where. */
  lemma FirstColon(mount: string, volume: (string, string), run: string)
    requires IsMount(mount, volume, run) && ':' !in volume.0 && ':' !in run
    ensures var k := |volume.0| + 1 + |run|;
            && k < |mount| && mount[k] == ':' && mount[..k] == Suffixed(volume.0, run) && mount[k + 1..] == volume.1
            && forall i :: 0 <= i < k ==> mount[i] != ':'
  {
    var n, k := |volume.0|, |volume.0| + 1 + |run|;
    assert forall i :: 0 <= i < n ==> mount[i] == mount[..n][i];
    assert forall i :: n < i < k ==> mount[i] == mount[n + 1..k][i - n - 1];
    assert mount[..k] == mount[..n] + [mount[n]] + mount[n + 1..k];
  }

  /** `c'` mounts the volumes that the user named for `c`, in their order. */
  predicate MountsAll(c: VolumeUse, run: string, c': VolumeUse) {
    && c'.named == c.named && |c'.final| == |c.named|
    && forall j :: 0 <= j < |c.named| ==> IsMount(c'.final[j], c.named[j], run)
  }

  lemma AllMounted(cs: seq<VolumeUse>, cs': seq<VolumeUse>, run: string)
    requires |cs'| == |cs| && forall i :: 0 <= i < |cs| ==> cs'[i] == Resolved(cs[i], run)
    ensures forall i :: 0 <= i < |cs| ==> MountsAll(cs[i], run, cs'[i])
  {
    forall i | 0 <= i < |cs|
      ensures MountsAll(cs[i], run, cs'[i])
    {
      ResolvedMounts(cs[i], run);
    }
  }

  /** The volumes are mounted one by one. */
  predicate Mounted(named: seq<(string, string)>, run: string, final: seq<string>) {
    |final| == |named| && forall j :: 0 <= j < |named| ==> final[j] == Mount(named[j], run)
  }

  lemma MountOneMore(named: seq<(string, string)>, run: string, final: seq<string>, j: nat)
    requires j < |named| && Mounted(named[..j], run, final)
    ensures Mounted(named[..j + 1], run, final + [Mount(named[j], run)])
  {
    assert named[..j + 1] == named[..j] + [named[j]];
  }

  lemma Remembered(memo: Memo, names: set<string>, run: string, n: string)
    requires Suffixes(memo, names, run) && n in memo
    ensures memo[n] == Suffixed(n, run) && names + {n} == names
  {
  }

  lemma RememberOneMore(memo: Memo, names: set<string>, run: string, n: string)
    requires Suffixes(memo, names, run) && n !in memo
    ensures Suffixes(memo[n := Suffixed(n, run)], names + {n}, run)
  {
  }

  /** The clean-up list has the names that are mounted. */
  ghost predicate ListsAll(volumes: seq<string>, cs: seq<VolumeUse>, run: string) {
    forall v :: v in volumes <==> exists n :: n in Used(cs) && v == n + "-" + run
  }

  lemma AllListed(volumes: seq<string>, cs: seq<VolumeUse>, run: string)
    requires (set v | v in volumes) == AllSuffixed(Used(cs), run)
    ensures ListsAll(volumes, cs, run)
  {
    assert forall v :: v in volumes <==> v in AllSuffixed(Used(cs), run);
  }

  lemma ResolvedMounts(c: VolumeUse, run: string)
    ensures MountsAll(c, run, Resolved(c, run))
  {
    forall j | 0 <= j < |c.named|
      ensures IsMount(Resolved(c, run).final[j], c.named[j], run)
    {
      MountSplits(c.named[j], run);
    }
  }

  /** The part of a run that deals with the volumes of its compositions. */
  class VolumeResolver {
    const id: string
    var compositions: seq<VolumeUse>
    var namedVolumes: seq<string>

    constructor (id: string, compositions: seq<VolumeUse>)
      ensures this.id == id && this.compositions == compositions && namedVolumes == []
    {
      this.id, this.compositions, namedVolumes := id, compositions, [];
    }

    /** Every composition mounts what suffixing its volumes one by one gives, in order, and the clean-up list has
        the name of every volume any composition uses exactly once. */
    method ResolveNamedVolumes()
      modifies this
      ensures |compositions| == |old(compositions)|
      ensures forall i :: 0 <= i < |compositions| ==> compositions[i] == Resolved(old(compositions)[i], id)
      ensures forall i :: 0 <= i < |compositions| ==> MountsAll(old(compositions)[i], id, compositions[i])
      ensures NoDuplicates(namedVolumes)
      ensures (set v | v in namedVolumes) == AllSuffixed(Used(old(compositions)), id)
      ensures ListsAll(namedVolumes, old(compositions), id)
      ensures |namedVolumes| == |Used(old(compositions))|
    {
      var memo: Memo := map[];
      ghost var was := compositions;
      for i := 0 to |compositions|
        invariant |compositions| == |was|
        invariant forall k :: 0 <= k < |was| ==> compositions[k] == if k < i then Resolved(was[k], id) else was[k]
        invariant Suffixes(memo, Used(was[..i]), id)
      {
        var final: seq<string>;
        final, memo := Mounts(compositions[i].named, memo, Used(was[..i]));
        compositions := compositions[i := compositions[i].(final := final)];
        UsedMore(was, i);
      }
      assert was[..|was|] == was;
      AllMounted(was, compositions, id);
      namedVolumes := Drain(memo, Used(was));
      AllListed(namedVolumes, was, id);
    }

    method Mounts(named: seq<(string, string)>, before: Memo, ghost names: set<string>)
      returns (final: seq<string>, memo: Memo)
      requires Suffixes(before, names, id)
      ensures Mounted(named, id, final)
      ensures Suffixes(memo, names + NamesOf(named), id)
    {
      final, memo := [], before;
      for j := 0 to |named|
        invariant Mounted(named[..j], id, final)
        invariant Suffixes(memo, names + NamesOf(named[..j]), id)
      {
        var (volume, path) := named[j];
        NamesMore(named, j);
        MountOneMore(named, id, final, j);
        ghost var known := names + NamesOf(named[..j]);
        assert names + NamesOf(named[..j + 1]) == known + {volume};
        if volume in memo {
          Remembered(memo, known, id, volume);
          final := final + [memo[volume] + ":" + path];
        } else {
          final := final + [volume + "-" + id + ":" + path];
          RememberOneMore(memo, known, id, volume);
          memo := memo[volume := volume + "-" + id];
        }
      }
      assert named[..|named|] == named;
    }

    /** In an arbitrary order. */
    method Drain(memo: Memo, ghost names: set<string>) returns (volumes: seq<string>)
      requires Suffixes(memo, names, id)
      ensures NoDuplicates(volumes) && |volumes| == |names|
      ensures (set v | v in volumes) == AllSuffixed(names, id)
    {
      volumes := [];
      var todo := memo.Keys;
      while todo != {}
        invariant todo <= names && |volumes| == |names| - |todo|
        invariant NoDuplicates(volumes)
        invariant (set v | v in volumes) == AllSuffixed(names - todo, id)
        decreases todo
      {
        var n :| n in todo;
        FreshSuffixed(names - todo, n, id);
        assert Suffixed(n, id) in volumes ==> Suffixed(n, id) in (set v | v in volumes);
        assert names - (todo - {n}) == (names - todo) + {n};
        assert (set v | v in volumes + [memo[n]]) == (set v | v in volumes) + {memo[n]};
        todo := todo - {n};
        volumes := volumes + [memo[n]];
      }
    }
  }
}
