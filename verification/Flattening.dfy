/** What flattening comes to, whatever the archive: the last effect on a path wins, and host metadata leaves no trace
    (src/oci/image.rs:41-46, 69-108). */
module Flattening {
  import opened Base
  import opened Image

  // ----- last effect wins

  /** The tree just before the j-th effect. */
  function Before(tree: Tree, effects: seq<Effect>, j: nat): Tree
    requires j <= |effects|
  {
    Unpacked(tree, effects[..j]).tree
  }

  ghost predicate Kills(tree: Tree, effects: seq<Effect>, j: nat, p: Path)
    requires j < |effects|
  {
    var v := Victim(Before(tree, effects, j), effects[j]);
    v.Some? && v.value <= p
  }

  /** No whiteout from the `from`-th effect on has a victim at or above `p`. */
  ghost predicate Spared(tree: Tree, effects: seq<Effect>, p: Path, from: nat) {
    forall j :: from <= j < |effects| ==> !Kills(tree, effects, j, p)
  }

  /** The effect creates `p` or something below it. */
  predicate Makes(e: Effect, p: Path) { e.Create? && p <= e.path }

  predicate CreatesAt(e: Effect, p: Path) { e.Create? && e.path == p }

  /** Some create at or below `p` has no later whiteout above or at `p`, or `p` was there and has none at all. */
  ghost predicate ShouldLive(tree: Tree, effects: seq<Effect>, p: Path) {
    || (p in tree && Spared(tree, effects, p, 0))
    || exists i :: 0 <= i < |effects| && Makes(effects[i], p) && Spared(tree, effects, p, i + 1)
  }

  lemma BeforePrefix(tree: Tree, effects: seq<Effect>, k: nat, j: nat)
    requires j <= k <= |effects|
    ensures Before(tree, effects[..k], j) == Before(tree, effects, j)
  {
    assert effects[..k][..j] == effects[..j];
  }

  lemma SparedStep(tree: Tree, effects: seq<Effect>, p: Path, from: nat)
    requires effects != [] && from < |effects|
    ensures var k := |effects| - 1;
            Spared(tree, effects, p, from) <==> Spared(tree, effects[..k], p, from) && !Kills(tree, effects, k, p)
  {
    var k := |effects| - 1;
    forall j | 0 <= j < k ensures Kills(tree, effects[..k], j, p) == Kills(tree, effects, j, p) {
      BeforePrefix(tree, effects, k, j);
    }
  }

  lemma ShouldLiveStep(tree: Tree, effects: seq<Effect>, p: Path)
    requires effects != []
    ensures var k := |effects| - 1;
            ShouldLive(tree, effects, p)
            <==> Makes(effects[k], p) || (ShouldLive(tree, effects[..k], p) && !Kills(tree, effects, k, p))
  {
    var k := |effects| - 1;
    var pre := effects[..k];
    SparedStep(tree, effects, p, 0);
    forall m | 0 < m <= k
      ensures Spared(tree, effects, p, m) <==> Spared(tree, pre, p, m) && !Kills(tree, effects, k, p)
    {
      SparedStep(tree, effects, p, m);
    }
    hide Kills;
    assert Spared(tree, effects, p, k + 1);
    if ShouldLive(tree, pre, p) && !Kills(tree, effects, k, p) && !(p in tree && Spared(tree, pre, p, 0)) {
      var i :| 0 <= i < |pre| && Makes(pre[i], p) && Spared(tree, pre, p, i + 1);
      assert effects[i] == pre[i];
    }
    if ShouldLive(tree, effects, p) && !Makes(effects[k], p) && !(p in tree && Spared(tree, effects, p, 0)) {
      var i :| 0 <= i < |effects| && Makes(effects[i], p) && Spared(tree, effects, p, i + 1);
      assert i != k && pre[i] == effects[i];
    }
    if k == 0 {
      assert pre == [];
    }
  }

  /** A path is live in the end if and only if some create at or below it — or its initial presence — has no later
      whiteout at or above it. For every archive that unpacks, whatever order its entries come in. */
  lemma {:induction false} LastEffectWins(tree: Tree, effects: seq<Effect>, p: Path)
    requires Unpacked(tree, effects).Ok? && p != []
    ensures p in Unpacked(tree, effects).tree <==> ShouldLive(tree, effects, p)
  {
    if effects == [] {
      assert Spared(tree, effects, p, 0);
    } else {
      var k := |effects| - 1;
      var pre := effects[..k];
      LastEffectWins(tree, pre, p);
      ShouldLiveStep(tree, effects, p);
      var t := Unpacked(tree, pre).tree;
      assert Before(tree, effects, k) == t;
      ApplyLives(t, effects[k], p);
      hide ShouldLive, Apply, Makes;
    }
  }

  lemma ApplyLives(t: Tree, e: Effect, p: Path)
    requires Apply(t, e).Ok? && p != []
    ensures p in Apply(t, e).tree <==> Makes(e, p) || (p in t && !(Victim(t, e).Some? && Victim(t, e).value <= p))
    ensures p in t && p in Apply(t, e).tree && !CreatesAt(e, p) ==> Apply(t, e).tree[p] == t[p]
    ensures CreatesAt(e, p) ==> Apply(t, e).tree[p] == e.node
    ensures p !in t && Makes(e, p) && !CreatesAt(e, p) ==> Apply(t, e).tree[p] == IMPLICIT
  {
    if e.Create? {
      UppersAre(e.path, p);
      assert Makes(e, p) ==> p == e.path || p < e.path;
    }
  }

  /** What a live path is: what the last create naming it wrote, unless a later whiteout removed that. */
  lemma {:induction false} LastCreateWins(tree: Tree, effects: seq<Effect>, p: Path, i: nat)
    requires Unpacked(tree, effects).Ok? && p != [] && i < |effects|
    requires CreatesAt(effects[i], p) && Spared(tree, effects, p, i + 1)
    requires forall j :: i < j < |effects| ==> !CreatesAt(effects[j], p)
    ensures p in Unpacked(tree, effects).tree && Unpacked(tree, effects).tree[p] == effects[i].node
  {
    var k := |effects| - 1;
    var pre := effects[..k];
    var t := Unpacked(tree, pre).tree;
    assert Before(tree, effects, k) == t;
    ApplyLives(t, effects[k], p);
    if i < k {
      SparedStep(tree, effects, p, i + 1);
      assert pre[i] == effects[i] && forall j :: i < j < |pre| ==> pre[j] == effects[j];
      hide CreatesAt, Apply, Spared;
      LastCreateWins(tree, pre, p, i);
    }
  }

  /** A live path no surviving create names is what it was before, or a directory made on the way to something
      below it. */
  lemma {:induction false} OtherwiseUntouched(tree: Tree, effects: seq<Effect>, p: Path)
    requires Unpacked(tree, effects).Ok? && p != [] && p in Unpacked(tree, effects).tree
    requires forall i :: 0 <= i < |effects| && CreatesAt(effects[i], p) ==> !Spared(tree, effects, p, i + 1)
    ensures Unpacked(tree, effects).tree[p]
         == if p in tree && Spared(tree, effects, p, 0) then tree[p] else IMPLICIT
  {
    if effects == [] {
      assert Spared(tree, effects, p, 0);
    } else {
      var k := |effects| - 1;
      var pre := effects[..k];
      var t := Unpacked(tree, pre).tree;
      assert Before(tree, effects, k) == t;
      ApplyLives(t, effects[k], p);
      assert Spared(tree, effects, p, k + 1);
      assert !CreatesAt(effects[k], p);
      SparedStep(tree, effects, p, 0);
      LastEffectWins(tree, pre, p);
      if p in t {
        assert !Kills(tree, effects, k, p);
        forall i | 0 <= i < |pre| && CreatesAt(pre[i], p) ensures !Spared(tree, pre, p, i + 1) {
          assert CreatesAt(effects[i], p);
          SparedStep(tree, effects, p, i + 1);
        }
        OtherwiseUntouched(tree, pre, p);
      } else {
        assert Makes(effects[k], p);
      }
    }
  }

  // ----- host metadata

  /** The same file or directory, up to timestamps, ownership, and mode bits other than "executable or not". */
  predicate Alike(m: Node, n: Node) {
    m.File? == n.File? && (m.File? ==> m.content == n.content && Executable(m.meta.mode) == Executable(n.meta.mode))
  }

  ghost predicate AlikeTrees(s: Tree, t: Tree) { s.Keys == t.Keys && forall p :: p in s ==> Alike(s[p], t[p]) }

  predicate AlikeEffects(d: Effect, e: Effect) {
    d == e || (d.Create? && e.Create? && d.path == e.path && Alike(d.node, e.node))
  }

  ghost predicate AlikeStreams(a: seq<Effect>, b: seq<Effect>) {
    |a| == |b| && forall i :: 0 <= i < |a| ==> AlikeEffects(a[i], b[i])
  }

  /** The same end, and alike trees. */
  ghost predicate AlikeResults(q: Result, r: Result) {
    && q.Ok? == r.Ok? && q.Gone? == r.Gone? && q.TarError? == r.TarError? && q.IoError? == r.IoError?
    && AlikeTrees(q.tree, r.tree)
  }

  lemma AlikeApply(s: Tree, t: Tree, d: Effect, e: Effect)
    requires AlikeTrees(s, t) && AlikeEffects(d, e)
    ensures AlikeResults(Apply(s, d), Apply(t, e))
  {
    assert forall p :: p in s <==> p in s.Keys;
    assert forall p :: p in t <==> p in t.Keys;
    if d.Create? {
      assert Fits(s, d.path, d.node) <==> Fits(t, e.path, e.node);
    } else {
      assert Victim(s, d) == Victim(t, e);
    }
  }

  lemma AlikeNext(q: Result, r: Result, d: Effect, e: Effect)
    requires AlikeResults(q, r) && AlikeEffects(d, e)
    ensures AlikeResults(Next(q, d), Next(r, e))
  {
    AlikeApply(q.tree, r.tree, d, e);
    hide Apply, AlikeTrees;
  }

  lemma {:induction false} AlikeUnpacked(s: Tree, t: Tree, a: seq<Effect>, b: seq<Effect>)
    requires AlikeTrees(s, t) && AlikeStreams(a, b)
    ensures AlikeResults(Unpacked(s, a), Unpacked(t, b))
  {
    if a != [] {
      var k := |a| - 1;
      AlikeUnpacked(s, t, a[..k], b[..k]);
      AlikeNext(Unpacked(s, a[..k]), Unpacked(t, b[..k]), a[k], b[k]);
      hide Next;
    }
  }

  /** Host metadata leaves no trace: destinations and streams that differ only in timestamps, ownership and mode
      bits flatten to the very same tree, or fail in the same way. */
  lemma MetadataVanishes(s: Tree, t: Tree, a: seq<Effect>, b: seq<Effect>)
    requires AlikeTrees(s, t) && AlikeStreams(a, b)
    ensures var q, r := Flattened(s, a), Flattened(t, b);
            && q.Ok? == r.Ok? && q.TarError? == r.TarError? && q.IoError? == r.IoError?
            && (q.Ok? ==> q == r)
  {
    AlikeUnpacked(s, t, a, b);
    var q, r := Unpacked(s, a).tree, Unpacked(t, b).tree;
    assert forall p :: p in q.Keys <==> p in r.Keys;
    hide Unpacked;
  }

  predicate AlikeEntries(d: Entry, e: Entry) {
    d == e || (d.Entry? && e.Entry? && d.path == e.path && Alike(d.node, e.node))
  }

  /** Two archives that differ only in host metadata, unpacked over the same destination, give the same tree. */
  lemma ArchivesAgree(tree: Tree, a: seq<Entry>, b: seq<Entry>)
    requires |a| == |b| && forall i :: 0 <= i < |a| ==> AlikeEntries(a[i], b[i])
    ensures var q, r := Flattened(tree, Effects(a)), Flattened(tree, Effects(b));
            && q.Ok? == r.Ok? && q.TarError? == r.TarError? && q.IoError? == r.IoError?
            && (q.Ok? ==> q == r)
  {
    forall i | 0 <= i < |a| ensures AlikeEffects(Effects(a)[i], Effects(b)[i]) {
      assert AlikeEntries(a[i], b[i]);
    }
    hide Flattened, AlikeEffects;
    MetadataVanishes(tree, tree, Effects(a), Effects(b));
  }

  /** The documentation says an opaque marker clears its directory; it removes it, with everything the same archive
      put there before. The directory is back only if a later entry creates it or something below it. */
  lemma OpaqueRemoves(tree: Tree, effects: seq<Effect>, i: nat, dir: Path)
    requires Unpacked(tree, effects).Ok? && dir != [] && i < |effects| && effects[i] == Opaque(dir)
    requires var t := Before(tree, effects, i); dir in t && t[dir].Dir?
    ensures dir in Unpacked(tree, effects).tree
            <==> exists j :: i < j < |effects| && Makes(effects[j], dir) && Spared(tree, effects, dir, j + 1)
  {
    LastEffectWins(tree, effects, dir);
    assert Kills(tree, effects, i, dir);
    if dir in Unpacked(tree, effects).tree {
      var j :| 0 <= j < |effects| && Makes(effects[j], dir) && Spared(tree, effects, dir, j + 1);
      assert j + 1 > i;
      assert j != i;
    }
  }

  /** A directory is put there and an opaque marker follows: the directory is gone. */
  lemma OpaqueShows(dir: string, meta: Meta, marker: Node)
    requires dir != "" && !(WHITEOUT <= dir)
    ensures var entries := [Entry([Normal(dir)], Dir(meta)), Entry([Normal(dir), Normal(WHITEOUT + OPAQUE)], marker)];
            Flattened(map[], Effects(entries)) == Ok(map[])
  {
    var first, second := [Normal(dir)], [Normal(dir), Normal(WHITEOUT + OPAQUE)];
    NamesOf(dir, WHITEOUT + OPAQUE);
    var entries := [Entry(first, Dir(meta)), Entry(second, marker)];
    assert EffectOf(entries[0]) == Create([dir], Dir(meta));
    assert EffectOf(entries[1]) == Opaque([dir]) by { assert (WHITEOUT + OPAQUE)[|WHITEOUT|..] == OPAQUE; }
    hide EffectOf;
    var effects := Effects(entries);
    assert effects[..1] == [effects[0]] && effects[..1][..0] == [];
    assert Uppers([dir]) == {};
    assert Apply(map[], effects[0]) == Ok(map[[dir] := Dir(meta)]);
    assert Apply(map[[dir] := Dir(meta)], effects[1]) == Ok(map[]);
    hide Apply, Effects;
    assert Unpacked(map[], effects[..1]) == Ok(map[[dir] := Dir(meta)]);
  }

  lemma NamesOf(a: string, b: string)
    ensures Names([Normal(a)]) == [a] && Names([Normal(a), Normal(b)]) == [a, b]
  {
    assert [Normal(a)][..0] == [] && [Normal(a), Normal(b)][..1] == [Normal(a)];
    assert [Normal(a), Normal(b)][1] == Normal(b);
  }

  predicate CreatesAfter(effects: seq<Effect>, i: nat) { exists j :: i < j < |effects| && effects[j].Create? }

  /** The `i`-th entry is reached, and is an opaque marker at the root of the archive. */
  predicate RootOpaque(tree: Tree, effects: seq<Effect>, i: nat)
    requires i < |effects|
  {
    effects[i] == Opaque([]) && Unpacked(tree, effects[..i]).Ok?
  }

  /** An opaque marker at the root of the archive removes the destination itself: flattening fails whatever follows, in
      the walk if nothing more is to be created, else at the next thing created. */
  lemma RootOpaqueFails(tree: Tree, entries: seq<Entry>, i: nat)
    requires Closed(tree) && i < |entries| && RootOpaque(tree, Effects(entries), i)
    ensures Flattened(tree, Effects(entries)) == if CreatesAfter(Effects(entries), i) then TarError(map[]) else IoError(map[])
  {
    var effects := Effects(entries);
    assert effects[..i] == Effects(entries[..i]);
    UnpackedCloses(tree, entries[..i]);
    assert effects[..i + 1][..i] == effects[..i];
    assert Unpacked(tree, effects[..i + 1]) == Gone(map[]);
    GoneOrFailed(tree, effects, i + 1);
    hide Unpacked;
    assert CreatesAfter(effects, i) <==> exists j :: i + 1 <= j < |effects| && effects[j].Create?;
  }

  lemma OnlyRootGoes(tree: Tree, entry: Entry)
    requires Apply(tree, EffectOf(entry)).Gone?
    ensures EffectOf(entry) == Opaque([])
  {
  }

  lemma {:induction false} GoneBecause(tree: Tree, entries: seq<Entry>) returns (i: nat)
    requires Unpacked(tree, Effects(entries)).Gone?
    ensures i < |entries| && RootOpaque(tree, Effects(entries), i) && !CreatesAfter(Effects(entries), i)
  {
    var effects := Effects(entries);
    var k := |entries| - 1;
    assert effects[..k] == Effects(entries[..k]);
    var r := Unpacked(tree, effects[..k]);
    if r.Ok? {
      assert effects[k] == EffectOf(entries[k]);
      OnlyRootGoes(r.tree, entries[k]);
      i := k;
    } else {
      i := GoneBecause(tree, entries[..k]);
      assert !effects[k].Create?;
      assert effects[..k][..i] == effects[..i];
      assert forall j :: i < j < k ==> !effects[..k][j].Create?;
    }
    hide Apply, EffectOf, Effects;
  }

  /** The walk fails if and only if an opaque marker at the root was reached and nothing was to be created after it. */
  lemma WalkFailsExactly(tree: Tree, entries: seq<Entry>)
    requires Closed(tree)
    ensures Flattened(tree, Effects(entries)).IoError?
            <==> exists i :: 0 <= i < |entries| && RootOpaque(tree, Effects(entries), i) && !CreatesAfter(Effects(entries), i)
  {
    var effects := Effects(entries);
    forall i | 0 <= i < |entries| && RootOpaque(tree, effects, i) && !CreatesAfter(effects, i)
      ensures Flattened(tree, effects).IoError?
    {
      RootOpaqueFails(tree, entries, i);
    }
    NeverIoError(tree, effects);
    if Unpacked(tree, effects).Gone? {
      var i := GoneBecause(tree, entries);
    }
    hide RootOpaque, CreatesAfter, Effects, Unpacked;
  }

  lemma {:induction false} NeverIoError(tree: Tree, effects: seq<Effect>)
    ensures !Unpacked(tree, effects).IoError?
  {
    if effects != [] { NeverIoError(tree, effects[..|effects| - 1]); }
  }

  lemma {:induction false} GoneOrFailed(tree: Tree, effects: seq<Effect>, k: nat)
    requires k <= |effects| && Unpacked(tree, effects[..k]) == Gone(map[])
    ensures Unpacked(tree, effects) == if exists j :: k <= j < |effects| && effects[j].Create? then TarError(map[]) else Gone(map[])
  {
    if k == |effects| {
      assert effects[..k] == effects;
    } else {
      var pre := effects[..|effects| - 1];
      assert pre[..k] == effects[..k];
      GoneOrFailed(tree, pre, k);
      assert forall j :: k <= j < |pre| ==> pre[j] == effects[j];
    }
  }
}
