/**
  The resolution engine shared by the six `GetQIBy*Quest` resolvers: for each stem of a
  ladder, in order, try every backend in precedence order with `stem + "." + extension`,
  and stop at the first path that exists.
*/
module Resolver {
  import opened Wrappers

  /** Backend identifiers are the values returned by `QuestInterface::GetIdentifier()`. */
  type BackendId = nat

  /** The identifier of the embedded-Perl backend. */
  const PerlBackendId: BackendId := 0xf8b05c11

  /**
    A registered backend object. Two registrations may share an identifier while being
    different objects, so an object is its identifier together with an instance tag.
  */
  datatype Backend = Backend(id: BackendId, instance: nat)

  /** A resolver hit: the backend that owns the script, and the full path found. */
  datatype Hit = Hit(backend: Backend, path: string)

  /** What a resolver returns (null or a backend and its file) and the paths it tested, in order. */
  datatype Resolution = Resolution(hit: Option<Hit>, trail: seq<string>)

  /** Every backend in the precedence list has an extension. */
  predicate Covers(prec: seq<Backend>, ext: map<BackendId, string>) {
    forall j :: 0 <= j < |prec| ==> prec[j].id in ext
  }

  function Candidate(stem: string, ext: map<BackendId, string>, b: Backend): (path: string)
    requires b.id in ext
  {
    stem + "." + ext[b.id]
  }

  /** `r`, preceded by the paths in `tried`. */
  function After(tried: seq<string>, r: Resolution): (a: Resolution) {
    Resolution(r.hit, tried + r.trail)
  }

  /** One tier: the first backend, in precedence order, whose candidate for `stem` exists. */
  function ResolveStem(stem: string, prec: seq<Backend>, ext: map<BackendId, string>, files: set<string>): (r: Resolution)
    requires Covers(prec, ext)
    ensures r.hit.Some? ==> r.hit.value.backend in prec && r.hit.value.path in files
  {
    if prec == [] then
      Resolution(None, [])
    else
      var path := Candidate(stem, ext, prec[0]);
      if path in files then Resolution(Some(Hit(prec[0], path)), [path])
      else After([path], ResolveStem(stem, prec[1..], ext, files))
  }

  /** A whole ladder: the tiers in order, stopping at the first one that hits. */
  function ResolveLadder(stems: seq<string>, prec: seq<Backend>, ext: map<BackendId, string>, files: set<string>): (r: Resolution)
    requires Covers(prec, ext)
    ensures r.hit.Some? ==> r.hit.value.backend in prec && r.hit.value.path in files
  {
    if stems == [] then
      Resolution(None, [])
    else
      var first := ResolveStem(stems[0], prec, ext, files);
      if first.hit.Some? then first
      else After(first.trail, ResolveLadder(stems[1..], prec, ext, files))
  }

  /** The loop the resolvers repeat for each stem, with its early return on the first hit. */
  method ProbeStem(stem: string, prec: seq<Backend>, ext: map<BackendId, string>, files: set<string>)
    returns (r: Resolution)
    requires Covers(prec, ext)
    ensures r == ResolveStem(stem, prec, ext, files)
  {
    var tried: seq<string> := [];
    var i := 0;
    while i < |prec|
      invariant 0 <= i <= |prec|
      invariant ResolveStem(stem, prec, ext, files) == After(tried, ResolveStem(stem, prec[i..], ext, files))
    {
      assert prec[i..][0] == prec[i] && prec[i..][1..] == prec[i + 1..];
      var path := stem + "." + ext[prec[i].id];
      tried := tried + [path];
      if path in files {
        return Resolution(Some(Hit(prec[i], path)), tried);
      }
      i := i + 1;
    }
    r := Resolution(None, tried);
  }

  /** One more tier of a ladder after the paths in `done` were tried and missed. */
  lemma NextTier(done: seq<string>, stems: seq<string>, prec: seq<Backend>, ext: map<BackendId, string>, files: set<string>)
    requires Covers(prec, ext) && stems != []
    ensures var first := ResolveStem(stems[0], prec, ext, files);
      After(done, ResolveLadder(stems, prec, ext, files)) ==
        if first.hit.Some? then After(done, first)
        else After(done + first.trail, ResolveLadder(stems[1..], prec, ext, files))
  {
  }

  // ---------------------------------------------------------------------------
  // Independent description: the probe order, and the first existing candidate in it

  /** The candidates for one stem, in precedence order. */
  function Candidates(stem: string, prec: seq<Backend>, ext: map<BackendId, string>): (c: seq<string>)
    requires Covers(prec, ext)
    ensures |c| == |prec|
    ensures forall j :: 0 <= j < |prec| ==> c[j] == Candidate(stem, ext, prec[j])
  {
    seq(|prec|, j requires 0 <= j < |prec| => Candidate(stem, ext, prec[j]))
  }

  /** Every candidate of a ladder, stem by stem: the order in which paths are tested. */
  function ProbeOrder(stems: seq<string>, prec: seq<Backend>, ext: map<BackendId, string>): (order: seq<string>)
    requires Covers(prec, ext)
  {
    if stems == [] then [] else Candidates(stems[0], prec, ext) + ProbeOrder(stems[1..], prec, ext)
  }

  /** Candidate (i, j) exists, and no candidate tried before it does. */
  ghost predicate FirstExisting(stems: seq<string>, prec: seq<Backend>, ext: map<BackendId, string>, files: set<string>, i: int, j: int)
    requires Covers(prec, ext)
  {
    && 0 <= i < |stems| && 0 <= j < |prec|
    && Candidate(stems[i], ext, prec[j]) in files
    && (forall i', j' :: 0 <= i' < i && 0 <= j' < |prec| ==> Candidate(stems[i'], ext, prec[j']) !in files)
    && (forall j' :: 0 <= j' < j ==> Candidate(stems[i], ext, prec[j']) !in files)
  }

  lemma {:induction false} ProbeOrderLength(stems: seq<string>, prec: seq<Backend>, ext: map<BackendId, string>)
    requires Covers(prec, ext)
    ensures |ProbeOrder(stems, prec, ext)| == |stems| * |prec|
    decreases |stems|
  {
    if stems != [] {
      ProbeOrderLength(stems[1..], prec, ext);
      assert |stems| * |prec| == |prec| + (|stems| - 1) * |prec|;
    }
  }

  /** Position i * |prec| + j of the probe order is backend j's candidate for stem i. */
  lemma {:induction false} ProbeOrderAt(stems: seq<string>, prec: seq<Backend>, ext: map<BackendId, string>, i: int, j: int)
    requires Covers(prec, ext)
    requires 0 <= i < |stems| && 0 <= j < |prec|
    ensures |ProbeOrder(stems, prec, ext)| == |stems| * |prec|
    ensures 0 <= i * |prec| + j < |stems| * |prec|
    ensures ProbeOrder(stems, prec, ext)[i * |prec| + j] == Candidate(stems[i], ext, prec[j])
    decreases |stems|
  {
    ProbeOrderLength(stems, prec, ext);
    var p := |prec|;
    var head := Candidates(stems[0], prec, ext);
    assert ProbeOrder(stems, prec, ext) == head + ProbeOrder(stems[1..], prec, ext);
    assert |stems| * p == p + (|stems| - 1) * p;
    if i == 0 {
      assert i * p + j == j;
    } else {
      ProbeOrderAt(stems[1..], prec, ext, i - 1, j);
      assert i * p + j == p + ((i - 1) * p + j);
    }
  }

  /** Tier level: a hit is the first backend whose candidate exists. */
  lemma {:induction false} StemHitIsFirst(stem: string, prec: seq<Backend>, ext: map<BackendId, string>, files: set<string>)
    requires Covers(prec, ext)
    ensures var r := ResolveStem(stem, prec, ext, files);
      r.hit.Some? ==>
        exists j :: 0 <= j < |prec| && r.hit.value == Hit(prec[j], Candidate(stem, ext, prec[j])) &&
          forall k :: 0 <= k < j ==> Candidate(stem, ext, prec[k]) !in files
    decreases |prec|
  {
    var r := ResolveStem(stem, prec, ext, files);
    if prec != [] && Candidate(stem, ext, prec[0]) !in files && r.hit.Some? {
      var tail := prec[1..];
      StemHitIsFirst(stem, tail, ext, files);
      var j :| 0 <= j < |tail| && r.hit.value == Hit(tail[j], Candidate(stem, ext, tail[j])) &&
          forall k :: 0 <= k < j ==> Candidate(stem, ext, tail[k]) !in files;
      assert forall k :: 1 <= k < j + 1 ==> prec[k] == tail[k - 1];
    }
  }

  /** Tier level: the first existing candidate is the one found. */
  lemma {:induction false} StemFindsFirst(stem: string, prec: seq<Backend>, ext: map<BackendId, string>, files: set<string>, j: int)
    requires Covers(prec, ext)
    requires 0 <= j < |prec| && Candidate(stem, ext, prec[j]) in files
    requires forall k :: 0 <= k < j ==> Candidate(stem, ext, prec[k]) !in files
    ensures ResolveStem(stem, prec, ext, files).hit == Some(Hit(prec[j], Candidate(stem, ext, prec[j])))
    ensures |ResolveStem(stem, prec, ext, files).trail| == j + 1
    decreases |prec|
  {
    if j > 0 {
      assert Candidate(stem, ext, prec[0]) !in files;
      var tail := prec[1..];
      assert forall k :: 0 <= k < j - 1 ==> tail[k] == prec[k + 1];
      StemFindsFirst(stem, tail, ext, files, j - 1);
    }
  }

  /** Tier level: null exactly when no candidate exists; the trail is then every candidate. */
  lemma {:induction false} StemMiss(stem: string, prec: seq<Backend>, ext: map<BackendId, string>, files: set<string>)
    requires Covers(prec, ext)
    ensures var r := ResolveStem(stem, prec, ext, files);
      (r.hit.None? <==> forall j :: 0 <= j < |prec| ==> Candidate(stem, ext, prec[j]) !in files) &&
      (r.hit.None? ==> r.trail == Candidates(stem, prec, ext))
    decreases |prec|
  {
    if prec != [] {
      var tail := prec[1..];
      StemMiss(stem, tail, ext, files);
      assert forall j :: 1 <= j < |prec| ==> prec[j] == tail[j - 1];
      assert Candidates(stem, prec, ext) == [Candidate(stem, ext, prec[0])] + Candidates(stem, tail, ext);
    }
  }

  /** Tier level: the trail is the candidates up to and including the hit, all earlier ones missing. */
  lemma {:induction false} StemTrail(stem: string, prec: seq<Backend>, ext: map<BackendId, string>, files: set<string>)
    requires Covers(prec, ext)
    ensures var r := ResolveStem(stem, prec, ext, files);
      && |r.trail| <= |prec|
      && r.trail == Candidates(stem, prec, ext)[..|r.trail|]
      && (r.hit.Some? ==> |r.trail| > 0 && r.trail[|r.trail| - 1] == r.hit.value.path)
      && (r.hit.None? ==> |r.trail| == |prec|)
      && (forall k :: 0 <= k < |r.trail| && (r.hit.Some? ==> k < |r.trail| - 1) ==> r.trail[k] !in files)
    decreases |prec|
  {
    if prec != [] {
      var tail := prec[1..];
      StemTrail(stem, tail, ext, files);
      assert Candidates(stem, prec, ext) == [Candidate(stem, ext, prec[0])] + Candidates(stem, tail, ext);
    }
  }

  /** Ladder level: a hit is candidate (i, j) for the first existing (i, j) in probe order. */
  lemma {:induction false} LadderHitIsFirst(stems: seq<string>, prec: seq<Backend>, ext: map<BackendId, string>, files: set<string>)
    requires Covers(prec, ext)
    ensures var r := ResolveLadder(stems, prec, ext, files);
      r.hit.Some? ==>
        exists i, j :: FirstExisting(stems, prec, ext, files, i, j) &&
          r.hit.value == Hit(prec[j], Candidate(stems[i], ext, prec[j]))
    decreases |stems|
  {
    var r := ResolveLadder(stems, prec, ext, files);
    if stems != [] && r.hit.Some? {
      var first := ResolveStem(stems[0], prec, ext, files);
      if first.hit.Some? {
        StemHitIsFirst(stems[0], prec, ext, files);
        var j :| 0 <= j < |prec| && first.hit.value == Hit(prec[j], Candidate(stems[0], ext, prec[j])) &&
          forall k :: 0 <= k < j ==> Candidate(stems[0], ext, prec[k]) !in files;
        assert FirstExisting(stems, prec, ext, files, 0, j);
      } else {
        StemMiss(stems[0], prec, ext, files);
        var tail := stems[1..];
        LadderHitIsFirst(tail, prec, ext, files);
        var i, j :| FirstExisting(tail, prec, ext, files, i, j) &&
          r.hit.value == Hit(prec[j], Candidate(tail[i], ext, prec[j]));
        assert forall i' :: 1 <= i' <= i + 1 ==> stems[i'] == tail[i' - 1];
        assert FirstExisting(stems, prec, ext, files, i + 1, j);
      }
    }
  }

  /** Ladder level: the first existing candidate in probe order is the one found. */
  lemma {:induction false} LadderFindsFirst(stems: seq<string>, prec: seq<Backend>, ext: map<BackendId, string>, files: set<string>, i: int, j: int)
    requires Covers(prec, ext)
    requires FirstExisting(stems, prec, ext, files, i, j)
    ensures ResolveLadder(stems, prec, ext, files).hit == Some(Hit(prec[j], Candidate(stems[i], ext, prec[j])))
    ensures |ResolveLadder(stems, prec, ext, files).trail| == i * |prec| + j + 1
    decreases |stems|
  {
    if i == 0 {
      StemFindsFirst(stems[0], prec, ext, files, j);
    } else {
      StemMiss(stems[0], prec, ext, files);
      FirstExistingInTail(stems, prec, ext, files, i, j);
      LadderFindsFirst(stems[1..], prec, ext, files, i - 1, j);
      var k := |prec|;
      assert i * k == k + (i - 1) * k;
    }
  }

  /** A first hit past the first stem is the first hit of the remaining stems, one tier earlier. */
  lemma FirstExistingInTail(stems: seq<string>, prec: seq<Backend>, ext: map<BackendId, string>, files: set<string>, i: int, j: int)
    requires Covers(prec, ext)
    requires FirstExisting(stems, prec, ext, files, i, j) && i > 0
    ensures FirstExisting(stems[1..], prec, ext, files, i - 1, j)
  {
    var tail := stems[1..];
    assert forall i' :: 0 <= i' < |tail| ==> tail[i'] == stems[i' + 1];
  }

  /** Ladder level: null exactly when no candidate of any stem exists. */
  lemma {:induction false} LadderMiss(stems: seq<string>, prec: seq<Backend>, ext: map<BackendId, string>, files: set<string>)
    requires Covers(prec, ext)
    ensures ResolveLadder(stems, prec, ext, files).hit.None? <==>
      forall i, j :: 0 <= i < |stems| && 0 <= j < |prec| ==> Candidate(stems[i], ext, prec[j]) !in files
    decreases |stems|
  {
    if stems != [] {
      var tail := stems[1..];
      StemMiss(stems[0], prec, ext, files);
      LadderMiss(tail, prec, ext, files);
      assert forall i :: 1 <= i < |stems| ==> stems[i] == tail[i - 1];
    }
  }

  /**
    Ladder level: the paths tested are a prefix of the probe order; on a miss every
    candidate of every stem is tried.
  */
  lemma {:induction false} LadderTrail(stems: seq<string>, prec: seq<Backend>, ext: map<BackendId, string>, files: set<string>)
    requires Covers(prec, ext)
    ensures var r := ResolveLadder(stems, prec, ext, files);
      var order := ProbeOrder(stems, prec, ext);
      && |r.trail| <= |order|
      && r.trail == order[..|r.trail|]
      && (r.hit.None? ==> r.trail == order && |r.trail| == |stems| * |prec|)
    decreases |stems|
  {
    ProbeOrderLength(stems, prec, ext);
    if stems != [] {
      var tail := stems[1..];
      StemTrail(stems[0], prec, ext, files);
      LadderTrail(tail, prec, ext, files);
      var first := ResolveStem(stems[0], prec, ext, files);
      var order := ProbeOrder(stems, prec, ext);
      assert order == Candidates(stems[0], prec, ext) + ProbeOrder(tail, prec, ext);
      if first.hit.None? {
        var rest := ResolveLadder(tail, prec, ext, files);
        assert first.trail == Candidates(stems[0], prec, ext);
        assert order[..|first.trail| + |rest.trail|] == first.trail + rest.trail;
      }
    }
  }

  /** Ladder level: every path tested misses, except a hit, which is the last one tried. */
  lemma {:induction false} LadderTrailMisses(stems: seq<string>, prec: seq<Backend>, ext: map<BackendId, string>, files: set<string>)
    requires Covers(prec, ext)
    ensures var r := ResolveLadder(stems, prec, ext, files);
      && (r.hit.Some? ==> |r.trail| > 0 && r.trail[|r.trail| - 1] == r.hit.value.path)
      && (forall k :: 0 <= k < |r.trail| && (r.hit.Some? ==> k < |r.trail| - 1) ==> r.trail[k] !in files)
    decreases |stems|
  {
    if stems != [] {
      var first := ResolveStem(stems[0], prec, ext, files);
      StemTrail(stems[0], prec, ext, files);
      if first.hit.None? {
        var rest := ResolveLadder(stems[1..], prec, ext, files);
        LadderTrailMisses(stems[1..], prec, ext, files);
        assert forall k :: |first.trail| <= k < |first.trail| + |rest.trail| ==>
          (first.trail + rest.trail)[k] == rest.trail[k - |first.trail|];
      }
    }
  }

  /** With a backend registered, resolving a ladder always tests its first candidate first. */
  lemma LadderProbesFirstCandidate(stems: seq<string>, prec: seq<Backend>, ext: map<BackendId, string>, files: set<string>)
    requires Covers(prec, ext) && |stems| > 0 && |prec| > 0
    ensures var r := ResolveLadder(stems, prec, ext, files);
      |r.trail| > 0 && r.trail[0] == Candidate(stems[0], ext, prec[0])
  {
    var first := ResolveStem(stems[0], prec, ext, files);
    assert |first.trail| > 0 && first.trail[0] == Candidate(stems[0], ext, prec[0]);
  }

  /** Registration order is probe order: with both `.pl` and `.lua` present, the first registered wins. */
  lemma PrecedenceExample(stem: string, files: set<string>)
    requires stem + ".pl" in files && stem + ".lua" in files
    ensures var perl := Backend(PerlBackendId, 0);
      var ext := map[PerlBackendId := "pl", 1 := "lua"];
      ResolveStem(stem, [perl, Backend(1, 1)], ext, files) == Resolution(Some(Hit(perl, stem + ".pl")), [stem + ".pl"])
  {
    var ext := map[PerlBackendId := "pl", 1 := "lua"];
    assert Candidate(stem, ext, Backend(PerlBackendId, 0)) == stem + ".pl";
  }

  /**
    A backend registered twice under one identifier is probed twice with its latest
    extension (the extension is looked up by identifier at probe time).
  */
  lemma DuplicateRegistrationProbesTwice(stem: string, id: BackendId, ext: map<BackendId, string>, files: set<string>)
    requires id in ext && stem + "." + ext[id] !in files
    ensures ResolveStem(stem, [Backend(id, 0), Backend(id, 1)], ext, files).trail ==
      [stem + "." + ext[id], stem + "." + ext[id]]
  {
    var prec := [Backend(id, 0), Backend(id, 1)];
    var path := stem + "." + ext[id];
    assert prec[1..] == [Backend(id, 1)] && prec[1..][1..] == [];
    assert ResolveStem(stem, prec[1..][1..], ext, files) == Resolution(None, []);
    assert ResolveStem(stem, prec[1..], ext, files) == Resolution(None, [path]);
  }
}
